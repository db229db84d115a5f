/**
 * The generic `Clamp` extension method of MathUtility, written over a
 * comparison function that plays the role of IComparable<T>.CompareTo.
 */
module MathUtility {

  /** The laws every CompareTo implementation of a total order obeys. */
  ghost predicate IsTotalCompare<T(!new)>(compare: (T, T) -> int) {
    && (forall a: T :: compare(a, a) == 0)
    && (forall a: T, b: T :: compare(a, b) < 0 <==> compare(b, a) > 0)
    && (forall a: T, b: T, c: T :: compare(a, b) <= 0 && compare(b, c) <= 0 ==> compare(a, c) <= 0)
  }

  /** `val.Clamp(min, max)`: the lower bound is checked first, then the upper bound. */
  function Clamp<T>(val: T, min: T, max: T, compare: (T, T) -> int): (r: T)
    ensures r == val || r == min || r == max
  {
    if compare(val, min) < 0 then min
    else if compare(val, max) > 0 then max
    else val
  }

  lemma ClampBelowMin<T>(val: T, min: T, max: T, compare: (T, T) -> int)
    requires compare(val, min) < 0
    ensures Clamp(val, min, max, compare) == min
  {
  }

  lemma ClampAboveMax<T>(val: T, min: T, max: T, compare: (T, T) -> int)
    requires compare(val, min) >= 0 && compare(val, max) > 0
    ensures Clamp(val, min, max, compare) == max
  {
  }

  lemma ClampWithin<T>(val: T, min: T, max: T, compare: (T, T) -> int)
    requires compare(val, min) >= 0 && compare(val, max) <= 0
    ensures Clamp(val, min, max, compare) == val
  {
  }

  /** With ordered bounds the result lies between them. */
  lemma ClampInRange<T(!new)>(val: T, min: T, max: T, compare: (T, T) -> int)
    requires IsTotalCompare(compare)
    requires compare(min, max) <= 0
    ensures var r := Clamp(val, min, max, compare); compare(min, r) <= 0 && compare(r, max) <= 0
  {
    var r := Clamp(val, min, max, compare);
    assert compare(min, min) == 0 && compare(max, max) == 0;
    if compare(val, min) >= 0 {
      assert !(compare(min, val) > 0);
    }
  }

  /** With ordered bounds, clamping an already clamped value changes nothing. */
  lemma ClampIdempotent<T(!new)>(val: T, min: T, max: T, compare: (T, T) -> int)
    requires IsTotalCompare(compare)
    requires compare(min, max) <= 0
    ensures var r := Clamp(val, min, max, compare); Clamp(r, min, max, compare) == r
  {
    var r := Clamp(val, min, max, compare);
    ClampInRange(val, min, max, compare);
    assert compare(r, min) < 0 <==> compare(min, r) > 0;
  }

  /**
   * With inverted bounds (min after max) the min check still wins for a value
   * below min; every other value comes out as max.
   */
  lemma ClampInvertedBounds<T(!new)>(val: T, min: T, max: T, compare: (T, T) -> int)
    requires IsTotalCompare(compare)
    requires compare(min, max) > 0
    ensures Clamp(val, min, max, compare) == if compare(val, min) < 0 then min else max
  {
    if compare(val, min) >= 0 {
      assert compare(min, val) <= 0;
      assert compare(min, val) <= 0 && compare(val, max) <= 0 ==> compare(min, max) <= 0;
    }
  }

  /** Int32.CompareTo */
  function CompareInt(a: int, b: int): int {
    if a < b then -1 else if a > b then 1 else 0
  }

  /** Single.CompareTo, for the finite values the model uses. */
  function CompareReal(a: real, b: real): int {
    if a < b then -1 else if a > b then 1 else 0
  }

  lemma CompareIntIsTotal()
    ensures IsTotalCompare(CompareInt)
  {
  }

  lemma CompareRealIsTotal()
    ensures IsTotalCompare(CompareReal)
  {
  }

  /** `val.Clamp(min, max)` on ints, as the selection and menu code use it. */
  function ClampInt(val: int, min: int, max: int): (r: int)
    ensures min <= max ==> min <= r <= max
    ensures min <= val <= max ==> r == val
    ensures val < min ==> r == min
    ensures min <= max < val ==> r == max
  {
    Clamp(val, min, max, CompareInt)
  }

  /** `val.Clamp(min, max)` on floats, as the camera's pitch limit uses it. */
  function ClampReal(val: real, min: real, max: real): (r: real)
    ensures min <= max ==> min <= r <= max
    ensures min <= val <= max ==> r == val
    ensures val < min ==> r == min
    ensures min <= max < val ==> r == max
  {
    Clamp(val, min, max, CompareReal)
  }
}
