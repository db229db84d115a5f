/**
 * The line format of the map file: one object per line as
 * `hash|posX|posY|posZ|rotX|rotY|rotZ` (MapObjectSerializer and
 * MapObjectDeserializer). The float-to-text rendering and the text-to-float
 * parser are culture dependent and enter as parameters.
 */
module MapObjectCodec {
  import opened Wrappers
  import opened Geometry
  import opened MapObjects

  const Separator: char := '|'

  /** How often `c` occurs in `s`. */
  function Count(c: char, s: string): nat {
    multiset(s)[c]
  }

  /** `string.Join(separator, parts)` */
  function Join(parts: seq<string>, separator: char): (r: string)
    requires |parts| >= 1
    ensures parts[0] <= r
    ensures |parts| > 1 ==> |parts[0]| < |r| && r[|parts[0]|] == separator
  {
    if |parts| == 1 then parts[0] else parts[0] + [separator] + Join(parts[1..], separator)
  }

  /**
   * `s.Split(separator)`: the pieces between separators, empty ones included.
   */
  function Split(s: string, separator: char): (parts: seq<string>)
    ensures parts != []
  {
    if s == [] then [""]
    else
      var rest := Split(s[1..], separator);
      if s[0] == separator then [""] + rest
      else [[s[0]] + rest[0]] + rest[1..]
  }

  /** There is always one more piece than there are separators. */
  lemma {:induction false} SplitLength(s: string, separator: char)
    ensures |Split(s, separator)| == Count(separator, s) + 1
  {
    if s != [] {
      SplitLength(s[1..], separator);
      assert s == [s[0]] + s[1..];
    }
  }

  /** A string with no separator splits into itself. */
  lemma {:induction false} SplitWithoutSeparator(s: string, separator: char)
    requires separator !in s
    ensures Split(s, separator) == [s]
  {
    if s != [] {
      SplitWithoutSeparator(s[1..], separator);
      assert s == [s[0]] + s[1..];
    }
  }

  /** One step of Split: the first character either starts a new piece or joins the first piece. */
  lemma SplitCons(c: char, rest: string, separator: char)
    ensures var tail := Split(rest, separator);
      Split([c] + rest, separator) == if c == separator then [""] + tail else [[c] + tail[0]] + tail[1..]
  {
    assert ([c] + rest)[1..] == rest;
  }

  /** No piece of a split holds the separator. */
  lemma {:induction false} SplitPiecesHaveNoSeparator(s: string, separator: char)
    ensures forall i :: 0 <= i < |Split(s, separator)| ==> separator !in Split(s, separator)[i]
  {
    if s != [] {
      SplitPiecesHaveNoSeparator(s[1..], separator);
      SplitCons(s[0], s[1..], separator);
      assert s == [s[0]] + s[1..];
    }
  }

  /** Prepending to the first piece commutes with appending more pieces. */
  lemma PrependToFirst(c: char, pieces: seq<string>, more: seq<string>)
    requires pieces != []
    ensures var all := pieces + more;
      [[c] + all[0]] + all[1..] == ([[c] + pieces[0]] + pieces[1..]) + more
  {
    var all := pieces + more;
    assert all[0] == pieces[0];
    assert all[1..] == pieces[1..] + more;
  }

  /** The inductive step of SplitAtSeparator: one more character in front of the left side. */
  lemma SplitAtSeparatorStep(c: char, a: string, b: string, separator: char)
    requires Split(a + [separator] + b, separator) == Split(a, separator) + Split(b, separator)
    ensures Split([c] + (a + [separator] + b), separator) == Split([c] + a, separator) + Split(b, separator)
  {
    SplitCons(c, a + [separator] + b, separator);
    SplitCons(c, a, separator);
    if c != separator {
      PrependToFirst(c, Split(a, separator), Split(b, separator));
    }
  }

  /** A separator splits the text on its two sides independently. */
  lemma {:induction false} SplitAtSeparator(a: string, b: string, separator: char)
    ensures Split(a + [separator] + b, separator) == Split(a, separator) + Split(b, separator)
  {
    if a == [] {
      assert a + [separator] + b == [separator] + b;
      SplitCons(separator, b, separator);
    } else {
      assert a == [a[0]] + a[1..];
      assert a + [separator] + b == [a[0]] + (a[1..] + [separator] + b);
      SplitAtSeparator(a[1..], b, separator);
      SplitAtSeparatorStep(a[0], a[1..], b, separator);
    }
  }

  /** Split undoes Join when no part contains the separator. */
  lemma {:induction false} SplitJoin(parts: seq<string>, separator: char)
    requires |parts| >= 1
    requires forall i :: 0 <= i < |parts| ==> separator !in parts[i]
    ensures Split(Join(parts, separator), separator) == parts
  {
    SplitWithoutSeparator(parts[0], separator);
    if |parts| > 1 {
      SplitJoin(parts[1..], separator);
      SplitAtSeparator(parts[0], Join(parts[1..], separator), separator);
      assert parts == [parts[0]] + parts[1..];
    }
  }

  /** Prepending an empty part puts a separator in front of the joined text. */
  lemma JoinPrependEmpty(rest: seq<string>, separator: char)
    requires |rest| >= 1
    ensures Join([""] + rest, separator) == [separator] + Join(rest, separator)
  {
    assert ([""] + rest)[1..] == rest;
  }

  /** Prepending a character to the first part prepends it to the joined text. */
  lemma JoinPrependChar(c: char, rest: seq<string>, separator: char)
    requires |rest| >= 1
    ensures Join([[c] + rest[0]] + rest[1..], separator) == [c] + Join(rest, separator)
  {
    var parts := [[c] + rest[0]] + rest[1..];
    if |rest| > 1 {
      assert parts[1..] == rest[1..];
    }
  }

  /** Join undoes Split, for every string. */
  lemma {:induction false} JoinSplit(s: string, separator: char)
    ensures Join(Split(s, separator), separator) == s
  {
    if s != [] {
      var rest := Split(s[1..], separator);
      JoinSplit(s[1..], separator);
      if s[0] == separator {
        JoinPrependEmpty(rest, separator);
      } else {
        JoinPrependChar(s[0], rest, separator);
      }
      assert s == [s[0]] + s[1..];
    }
  }

  /** Joining adds one separator between each two parts. */
  lemma {:induction false} JoinCount(parts: seq<string>, separator: char)
    requires |parts| >= 1
    requires forall i :: 1 <= i < |parts| ==> separator !in parts[i]
    ensures Count(separator, Join(parts, separator)) == Count(separator, parts[0]) + |parts| - 1
  {
    if |parts| > 1 {
      JoinCount(parts[1..], separator);
      assert separator !in parts[1];
      assert Count(separator, parts[1]) == 0;
    }
  }

  /** The seven fields of a line, in order: model hash, position X/Y/Z, rotation X/Y/Z. */
  function Fields(mapObject: MapObject, format: real -> string): seq<string> {
    [mapObject.modelName,
     format(mapObject.position.x), format(mapObject.position.y), format(mapObject.position.z),
     format(mapObject.rotation.x), format(mapObject.rotation.y), format(mapObject.rotation.z)]
  }

  /** The six scalars a line carries. */
  function Scalars(mapObject: MapObject): seq<real> {
    [mapObject.position.x, mapObject.position.y, mapObject.position.z,
     mapObject.rotation.x, mapObject.rotation.y, mapObject.rotation.z]
  }

  /** MapObjectSerializer.Serialize: the seven fields joined by '|'; the entity is not written. */
  function Serialize(mapObject: MapObject, format: real -> string): (line: string)
    ensures mapObject.modelName + [Separator] <= line
  {
    Join(Fields(mapObject, format), Separator)
  }

  /** Which step of the deserializer threw. */
  datatype DeserializeError =
    | IndexOutOfRange(index: nat)   // fewer parts than the index read
    | MalformedNumber(index: nat)   // float.Parse rejected the part

  /**
   * Parses the parts `start` .. `stop - 1` in order, as the source's `float.Parse(parts[k])`
   * calls run: the first missing or malformed part is the error.
   */
  function ParseParts(parts: seq<string>, parse: string -> Option<real>, start: nat, stop: nat): (r: Result<seq<real>, DeserializeError>)
    requires start <= stop
    ensures r.Success? ==> |r.value| == stop - start
    decreases stop - start
  {
    if start == stop then Success([])
    else if start >= |parts| then Failure(IndexOutOfRange(start))
    else match parse(parts[start])
      case None => Failure(MalformedNumber(start))
      case Some(v) =>
        match ParseParts(parts, parse, start + 1, stop)
        case Failure(e) => Failure(e)
        case Success(vs) => Success([v] + vs)
  }

  /**
   * MapObjectDeserializer.Deserialize: part 0 is the hash verbatim, parts 1-3
   * the position and parts 4-6 the rotation; later parts are ignored. The
   * result has no entity.
   */
  function Deserialize(line: string, parse: string -> Option<real>): (r: Result<MapObject, DeserializeError>)
    ensures Count(Separator, line) < 6 ==> r.Failure?
    ensures r.Success? ==> r.value.entity == None && r.value.modelName == Split(line, Separator)[0]
  {
    SplitLength(line, Separator);
    var parts := Split(line, Separator);
    match ParseParts(parts, parse, 1, 7)
    case Failure(e) => Failure(e)
    case Success(v) => Success(MapObject(parts[0], Vector3(v[0], v[1], v[2]), Vector3(v[3], v[4], v[5]), None))
  }

  /** Parsing parts succeeds exactly when every part is present and parses; the values are the parsed ones. */
  lemma {:induction false} ParsePartsSucceeds(parts: seq<string>, parse: string -> Option<real>, start: nat, stop: nat)
    requires start <= stop
    ensures ParseParts(parts, parse, start, stop).Success? <==>
      (start == stop || stop <= |parts|) && forall k :: start <= k < stop ==> parse(parts[k]).Some?
    ensures var r := ParseParts(parts, parse, start, stop);
      r.Success? ==> forall i :: 0 <= i < stop - start ==> parse(parts[start + i]) == Some(r.value[i])
    decreases stop - start
  {
    if start == stop {
    } else if start >= |parts| || parse(parts[start]).None? {
    } else {
      ParsePartsSucceeds(parts, parse, start + 1, stop);
      var r := ParseParts(parts, parse, start, stop);
      var tail := ParseParts(parts, parse, start + 1, stop);
      if tail.Success? {
        assert r.value == [parse(parts[start]).value] + tail.value;
        forall i | 0 < i < stop - start ensures parse(parts[start + i]) == Some(r.value[i]) {
          assert r.value[i] == tail.value[i - 1];
          assert start + i == (start + 1) + (i - 1);
        }
      }
    }
  }

  /**
   * A line deserializes exactly when it has at least seven parts and parts 1-6
   * all parse; then the vectors hold the parsed values. Any malformed field
   * fails the whole record.
   */
  lemma DeserializeSucceeds(line: string, parse: string -> Option<real>)
    ensures var parts := Split(line, Separator);
      Deserialize(line, parse).Success? <==> (|parts| >= 7 && forall k :: 1 <= k < 7 ==> parse(parts[k]).Some?)
    ensures var parts := Split(line, Separator);
      Deserialize(line, parse).Success? ==>
        Deserialize(line, parse).value.position == Vector3(parse(parts[1]).value, parse(parts[2]).value, parse(parts[3]).value) &&
        Deserialize(line, parse).value.rotation == Vector3(parse(parts[4]).value, parse(parts[5]).value, parse(parts[6]).value)
  {
    ParsePartsSucceeds(Split(line, Separator), parse, 1, 7);
  }

  /** Parsing looks at no part at or after `stop`. */
  lemma {:induction false} ParsePartsReadsPrefix(parts: seq<string>, other: seq<string>, parse: string -> Option<real>, start: nat, stop: nat)
    requires start <= stop <= |parts| && stop <= |other|
    requires parts[..stop] == other[..stop]
    ensures ParseParts(parts, parse, start, stop) == ParseParts(other, parse, start, stop)
    decreases stop - start
  {
    if start < stop {
      assert parts[start] == parts[..stop][start] == other[start];
      ParsePartsReadsPrefix(parts, other, parse, start + 1, stop);
    }
  }

  /** Parts after index 6 do not matter. */
  lemma DeserializeIgnoresTrailingParts(line: string, trailing: string, parse: string -> Option<real>)
    requires Count(Separator, line) >= 6
    ensures Deserialize(line + [Separator] + trailing, parse) == Deserialize(line, parse)
  {
    var parts := Split(line, Separator);
    var longer := Split(line + [Separator] + trailing, Separator);
    SplitLength(line, Separator);
    SplitAtSeparator(line, trailing, Separator);
    assert longer[..7] == parts[..7];
    ParsePartsReadsPrefix(parts, longer, parse, 1, 7);
  }

  /** The serialized line has the hash's own separators plus exactly six more. */
  lemma SerializeSeparatorCount(mapObject: MapObject, format: real -> string)
    requires forall v :: v in Scalars(mapObject) ==> Separator !in format(v)
    ensures Count(Separator, Serialize(mapObject, format)) == Count(Separator, mapObject.modelName) + 6
  {
    var f := Fields(mapObject, format);
    forall k | 1 <= k < 7 ensures Separator !in f[k] {
      assert f[k] == format(Scalars(mapObject)[k - 1]);
    }
    JoinCount(f, Separator);
  }

  /** The entity handle is never written. */
  lemma SerializeOmitsEntity(mapObject: MapObject, entity: Option<EntityHandle>, format: real -> string)
    ensures Serialize(mapObject.(entity := entity), format) == Serialize(mapObject, format)
  {
  }

  /** The text before the first separator is the hash, when the hash holds no separator. */
  lemma SerializeStartsWithHash(mapObject: MapObject, format: real -> string)
    requires Separator !in mapObject.modelName
    ensures Split(Serialize(mapObject, format), Separator)[0] == mapObject.modelName
  {
    var f := Fields(mapObject, format);
    SplitAtSeparator(f[0], Join(f[1..], Separator), Separator);
    SplitWithoutSeparator(f[0], Separator);
  }

  /** A serialized line splits back into its seven fields. */
  lemma SerializeSplits(mapObject: MapObject, format: real -> string)
    requires Separator !in mapObject.modelName
    requires forall v :: v in Scalars(mapObject) ==> Separator !in format(v)
    ensures Split(Serialize(mapObject, format), Separator) == Fields(mapObject, format)
  {
    var f := Fields(mapObject, format);
    forall k | 1 <= k < 7 ensures Separator !in f[k] {
      assert f[k] == format(Scalars(mapObject)[k - 1]);
    }
    SplitJoin(f, Separator);
  }

  /**
   * Round trip: deserializing a serialized object gives back its hash,
   * position and rotation (without the entity), provided the hash holds no
   * separator and the number text neither holds a separator nor loses
   * precision when parsed back.
   */
  lemma RoundTrip(mapObject: MapObject, format: real -> string, parse: string -> Option<real>)
    requires Separator !in mapObject.modelName
    requires forall v :: v in Scalars(mapObject) ==> Separator !in format(v) && parse(format(v)) == Some(v)
    ensures Deserialize(Serialize(mapObject, format), parse) == Success(mapObject.(entity := None))
  {
    var f := Fields(mapObject, format);
    var values := Scalars(mapObject);
    SerializeSplits(mapObject, format);
    forall i | 0 <= i < 6 ensures parse(f[1 + i]) == Some(values[i]) {
      assert f[1 + i] == format(values[i]);
    }
    ParsePartsSucceeds(f, parse, 1, 7);
    var r := ParseParts(f, parse, 1, 7);
    assert r.value == values;
  }
}
