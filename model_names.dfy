/**
 * How the newest editor turns a typed model name into a model reference: a
 * name starting with "0x" is a model hash written in hexadecimal, read the
 * way `int.TryParse(text, NumberStyles.HexNumber, ...)` reads it; any other
 * name is passed to the host as it is.
 */
module ModelNames {
  import opened Wrappers
  import opened MapObjects

  const TwoTo31: int := 0x8000_0000
  const TwoTo32: int := 0x1_0000_0000

  /** The white-space characters NumberStyles.HexNumber allows around the digits: U+0009 to U+000D and U+0020. */
  predicate IsWhite(c: char) {
    c == ' ' || ('\t' <= c <= '\r')
  }

  predicate IsHexDigit(c: char) {
    ('0' <= c <= '9') || ('a' <= c <= 'f') || ('A' <= c <= 'F')
  }

  predicate AllHexDigits(s: string) {
    forall i :: 0 <= i < |s| ==> IsHexDigit(s[i])
  }

  function HexDigitValue(c: char): (v: nat)
    requires IsHexDigit(c)
    ensures v < 16
  {
    if '0' <= c <= '9' then (c - '0') as nat
    else if 'a' <= c <= 'f' then (c - 'a') as nat + 10
    else (c - 'A') as nat + 10
  }

  /** The number the hexadecimal digits `s` stand for, most significant digit first. */
  function HexValue(s: string): nat
    requires AllHexDigits(s)
  {
    if s == [] then 0 else HexValue(s[..|s| - 1]) * 16 + HexDigitValue(s[|s| - 1])
  }

  function TrimStart(s: string): (t: string)
    ensures |t| <= |s|
    ensures t == [] || !IsWhite(t[0])
  {
    if s != [] && IsWhite(s[0]) then TrimStart(s[1..]) else s
  }

  function TrimEnd(s: string): (t: string)
    ensures |t| <= |s|
    ensures t == [] || !IsWhite(t[|t| - 1])
    ensures t == s[..|t|]
  {
    if s != [] && IsWhite(s[|s| - 1]) then TrimEnd(s[..|s| - 1]) else s
  }

  /** The 32-bit pattern `bits` read as a two's-complement Int32. */
  function ToInt32(bits: nat): (v: int)
    requires bits < TwoTo32
    ensures -TwoTo31 <= v < TwoTo31
    ensures v % TwoTo32 == bits
  {
    if bits < TwoTo31 then bits else bits - TwoTo32
  }

  /**
   * `int.TryParse(text, NumberStyles.HexNumber, ...)`: optional white space,
   * at least one hexadecimal digit and optional white space; the digits must
   * fit in 32 bits and are read as a two's-complement Int32, so "FFFFFFFF"
   * is -1. Anything else fails.
   */
  function TryParseHexInt32(text: string): (r: Option<int>)
    ensures r.Some? ==> -TwoTo31 <= r.value < TwoTo31
    ensures r.Some? ==> TrimEnd(TrimStart(text)) != []
  {
    var digits := TrimEnd(TrimStart(text));
    if digits != [] && AllHexDigits(digits) && HexValue(digits) < TwoTo32 then Some(ToInt32(HexValue(digits))) else None
  }

  predicate StartsWithHexPrefix(modelName: string) {
    |modelName| >= 2 && modelName[..2] == "0x"
  }

  /**
   * The model a spawn asks the host for: a "0x" name whose remainder parses
   * as a hexadecimal Int32 names that hash; a "0x" name that does not parse
   * names nothing, and the spawn fails; any other name is used as it is.
   */
  function ResolveModel(modelName: string): (r: Option<ModelRef>)
    ensures !StartsWithHexPrefix(modelName) ==> r == Some(ByName(modelName))
    ensures StartsWithHexPrefix(modelName) ==> r.None? || r.value.ByHash?
  {
    if StartsWithHexPrefix(modelName) then
      match TryParseHexInt32(modelName[2..])
      case Some(modelHash) => Some(ByHash(modelHash))
      case None => None
    else
      Some(ByName(modelName))
  }

  /** The upper-case hexadecimal digit for `d`. */
  function HexChar(d: nat): (c: char)
    requires d < 16
    ensures IsHexDigit(c) && !IsWhite(c) && HexDigitValue(c) == d
  {
    if d < 10 then ('0' as int + d) as char else ('A' as int + d - 10) as char
  }

  /** `v` written with exactly `width` hexadecimal digits, keeping the low digits. */
  function ToHexDigits(v: nat, width: nat): (s: string)
    ensures |s| == width && AllHexDigits(s)
    ensures forall i :: 0 <= i < |s| ==> !IsWhite(s[i])
  {
    if width == 0 then [] else ToHexDigits(v / 16, width - 1) + [HexChar(v % 16)]
  }

  function Pow16(n: nat): (p: nat)
    ensures p >= 1
  {
    if n == 0 then 1 else 16 * Pow16(n - 1)
  }

  /** Digits written by ToHexDigits read back as the number when it fits in the width. */
  lemma {:induction false} HexValueOfDigits(v: nat, width: nat)
    requires v < Pow16(width)
    ensures HexValue(ToHexDigits(v, width)) == v
  {
    if width > 0 {
      var s := ToHexDigits(v, width);
      assert s[..|s| - 1] == ToHexDigits(v / 16, width - 1);
      assert v / 16 < Pow16(width - 1);
      HexValueOfDigits(v / 16, width - 1);
    }
  }

  /** `hash.ToString("X8")`: the Int32's 32-bit pattern as eight upper-case hexadecimal digits. */
  function FormatHexInt32(modelHash: int): (s: string)
    requires -TwoTo31 <= modelHash < TwoTo31
    ensures |s| == 8
  {
    ToHexDigits(if modelHash < 0 then modelHash + TwoTo32 else modelHash, 8)
  }

  lemma TrimmedHexDigits(s: string)
    requires s != [] && forall i :: 0 <= i < |s| ==> !IsWhite(s[i])
    ensures TrimEnd(TrimStart(s)) == s
  {
  }

  /** Every Int32 hash written as eight hexadecimal digits parses back to itself. */
  lemma ParseFormattedHash(modelHash: int)
    requires -TwoTo31 <= modelHash < TwoTo31
    ensures TryParseHexInt32(FormatHexInt32(modelHash)) == Some(modelHash)
  {
    var bits := if modelHash < 0 then modelHash + TwoTo32 else modelHash;
    assert Pow16(8) == TwoTo32;
    HexValueOfDigits(bits, 8);
    TrimmedHexDigits(FormatHexInt32(modelHash));
  }

  /** A spawn from "0x" followed by a formatted hash asks the host for exactly that hash. */
  lemma ResolveFormattedHash(modelHash: int)
    requires -TwoTo31 <= modelHash < TwoTo31
    ensures ResolveModel("0x" + FormatHexInt32(modelHash)) == Some(ByHash(modelHash))
  {
    var name := "0x" + FormatHexInt32(modelHash);
    assert name[..2] == "0x" && name[2..] == FormatHexInt32(modelHash);
    ParseFormattedHash(modelHash);
  }

  /** "0x" alone, or followed by a character that is neither a digit nor white space, names no model. */
  lemma ResolveRejectsNonHex(rest: string)
    requires rest == [] || (!IsHexDigit(rest[0]) && !IsWhite(rest[0]))
    ensures ResolveModel("0x" + rest) == None
  {
    var name := "0x" + rest;
    assert name[..2] == "0x" && name[2..] == rest;
    var digits := TrimEnd(TrimStart(rest));
    if digits != [] {
      assert digits[0] == rest[0];
      assert !AllHexDigits(digits);
    }
  }
}
