/**
 * The transformation state every editor snapshot keeps: a mode (move or turn)
 * and, per mode, the axis the arrow keys act on. Modes cycle through the two
 * enum values and axes through the three, each by `(value + 1) % count`.
 */
module Transformation {
  import opened Geometry
  import opened MapObjects

  datatype TransformationMode = Translation | Rotation

  datatype TransformationAxis = X | Y | Z

  /** The enum's underlying integer. */
  function ModeIndex(mode: TransformationMode): nat {
    match mode
    case Translation => 0
    case Rotation => 1
  }

  /** The enum's underlying integer. */
  function AxisIndex(axis: TransformationAxis): nat {
    match axis
    case X => 0
    case Y => 1
    case Z => 2
  }

  /** The enum member `Enum.GetValues(typeof(TransformationMode)).Length == 2` puts at index `i`. */
  function ModeAt(i: nat): (mode: TransformationMode)
    requires i < 2
    ensures ModeIndex(mode) == i
  {
    if i == 0 then Translation else Rotation
  }

  /** The enum member at index `i` of the three axes. */
  function AxisAt(i: nat): (axis: TransformationAxis)
    requires i < 3
    ensures AxisIndex(axis) == i
  {
    if i == 0 then X else if i == 1 then Y else Z
  }

  /** `(TransformationMode)(((int)mode + 1) % 2)` */
  function NextMode(mode: TransformationMode): (r: TransformationMode)
    ensures r != mode
  {
    ModeAt((ModeIndex(mode) + 1) % 2)
  }

  /** `(TransformationAxis)(((int)axis + 1) % 3)` */
  function NextAxis(axis: TransformationAxis): (r: TransformationAxis)
    ensures r != axis
  {
    AxisAt((AxisIndex(axis) + 1) % 3)
  }

  /** The enum member's name as `{value}` interpolation renders it. */
  function ModeName(mode: TransformationMode): string {
    match mode
    case Translation => "Translation"
    case Rotation => "Rotation"
  }

  function AxisName(axis: TransformationAxis): string {
    match axis
    case X => "X"
    case Y => "Y"
    case Z => "Z"
  }

  /** `mode` advanced `n` times. */
  function IterateMode(mode: TransformationMode, n: nat): TransformationMode {
    if n == 0 then mode else NextMode(IterateMode(mode, n - 1))
  }

  /** `axis` advanced `n` times. */
  function IterateAxis(axis: TransformationAxis, n: nat): TransformationAxis {
    if n == 0 then axis else NextAxis(IterateAxis(axis, n - 1))
  }

  /** Changing the mode always switches to the other mode. */
  lemma NextModeSwitches(mode: TransformationMode)
    ensures NextMode(mode) != mode
    ensures NextMode(NextMode(mode)) == mode
  {
  }

  /** Changing the axis never keeps it, and three changes come back to it. */
  lemma NextAxisCycles(axis: TransformationAxis)
    ensures NextAxis(axis) != axis
    ensures NextAxis(NextAxis(NextAxis(axis))) == axis
  {
  }

  /** After `n` mode changes the mode is the one `n` places further, counted mod 2. */
  lemma {:induction false} IterateModeIndex(mode: TransformationMode, n: nat)
    ensures ModeIndex(IterateMode(mode, n)) == (ModeIndex(mode) + n) % 2
  {
    if n > 0 {
      IterateModeIndex(mode, n - 1);
    }
  }

  /** One more step of counting mod 3. */
  lemma ModThreeSucc(a: nat)
    ensures (a % 3 + 1) % 3 == (a + 1) % 3
  {
    var q, r := a / 3, a % 3;
    assert a == 3 * q + r;
    if r < 2 {
      assert a + 1 == 3 * q + (r + 1);
    } else {
      assert a + 1 == 3 * (q + 1);
    }
  }

  /** An axis at position `k` mod 3 moves to position `k + 1` mod 3. */
  lemma NextAxisIndex(axis: TransformationAxis, k: nat)
    requires AxisIndex(axis) == k % 3
    ensures AxisIndex(NextAxis(axis)) == (k + 1) % 3
  {
    ModThreeSucc(k);
  }

  /** After `n` axis changes the axis is the one `n` places further, counted mod 3. */
  lemma {:induction false} IterateAxisIndex(axis: TransformationAxis, n: nat)
    ensures AxisIndex(IterateAxis(axis, n)) == (AxisIndex(axis) + n) % 3
  {
    if n > 0 {
      var k: nat := AxisIndex(axis) + n - 1;
      IterateAxisIndex(axis, n - 1);
      NextAxisIndex(IterateAxis(axis, n - 1), k);
      assert k + 1 == AxisIndex(axis) + n;
    }
  }

  /** The component of `v` along `axis`. */
  function Component(v: Vector3, axis: TransformationAxis): real {
    match axis
    case X => v.x
    case Y => v.y
    case Z => v.z
  }

  /** `new Vector3(amount, 0, 0)` and its Y and Z counterparts. */
  function AxisVector(axis: TransformationAxis, amount: real): (v: Vector3)
    ensures forall a :: Component(v, a) == if a == axis then amount else 0.0
  {
    match axis
    case X => Vector3(amount, 0.0, 0.0)
    case Y => Vector3(0.0, amount, 0.0)
    case Z => Vector3(0.0, 0.0, amount)
  }

  /**
   * ApplyTransformation followed by Translate/RotateLastSpawnedObject on one
   * object: in translation mode the position moves by `amount * translationSpeed`
   * along the translation axis; in rotation mode the rotation turns by
   * `amount * rotationSpeed` about the rotation axis. One component of one
   * vector changes; the model name and entity are kept.
   */
  function ApplyToObject(mapObject: MapObject, mode: TransformationMode, translationAxis: TransformationAxis,
                         rotationAxis: TransformationAxis, amount: real, translationSpeed: real, rotationSpeed: real): (r: MapObject)
    ensures r.modelName == mapObject.modelName && r.entity == mapObject.entity
    ensures mode == Translation ==>
      r.rotation == mapObject.rotation &&
      forall a :: Component(r.position, a) == Component(mapObject.position, a) + (if a == translationAxis then amount * translationSpeed else 0.0)
    ensures mode == Rotation ==>
      r.position == mapObject.position &&
      forall a :: Component(r.rotation, a) == Component(mapObject.rotation, a) + (if a == rotationAxis then amount * rotationSpeed else 0.0)
  {
    match mode
    case Translation =>
      mapObject.(position := Add(mapObject.position, Scale(AxisVector(translationAxis, amount), translationSpeed)))
    case Rotation =>
      mapObject.(rotation := Add(mapObject.rotation, Scale(AxisVector(rotationAxis, amount), rotationSpeed)))
  }

  /** Applying `a` and then `-a` on the same axis restores the object. */
  lemma ApplyThenOpposite(mapObject: MapObject, mode: TransformationMode, translationAxis: TransformationAxis,
                          rotationAxis: TransformationAxis, amount: real, translationSpeed: real, rotationSpeed: real)
    ensures var once := ApplyToObject(mapObject, mode, translationAxis, rotationAxis, amount, translationSpeed, rotationSpeed);
      ApplyToObject(once, mode, translationAxis, rotationAxis, -amount, translationSpeed, rotationSpeed) == mapObject
  {
  }

  /**
   * The two older editors' ApplyTransformation on their list of spawned
   * objects: only the last object moves or turns; an empty list stays empty.
   */
  function ApplyToLast(objects: seq<MapObject>, mode: TransformationMode, translationAxis: TransformationAxis,
                       rotationAxis: TransformationAxis, amount: real, translationSpeed: real, rotationSpeed: real): (r: seq<MapObject>)
    ensures |r| == |objects|
    ensures forall i :: 0 <= i < |objects| - 1 ==> r[i] == objects[i]
  {
    if objects == [] then objects
    else objects[|objects| - 1 := ApplyToObject(objects[|objects| - 1], mode, translationAxis, rotationAxis,
                                                 amount, translationSpeed, rotationSpeed)]
  }

  /**
   * ApplyToLast keeps the list's length and every object but the last; on
   * the last it changes one component of the position (by amount times the
   * translation speed) or of the rotation (by amount times the rotation
   * speed), chosen by the mode and that mode's axis; and the opposite amount
   * undoes it.
   */
  lemma ApplyToLastOnlyLast(objects: seq<MapObject>, mode: TransformationMode, translationAxis: TransformationAxis,
                            rotationAxis: TransformationAxis, amount: real, translationSpeed: real, rotationSpeed: real)
    ensures var r := ApplyToLast(objects, mode, translationAxis, rotationAxis, amount, translationSpeed, rotationSpeed);
      |r| == |objects| && (objects == [] ==> r == objects) &&
      (forall i :: 0 <= i < |objects| - 1 ==> r[i] == objects[i]) &&
      (objects != [] ==>
        var last, moved := objects[|objects| - 1], r[|objects| - 1];
        moved.modelName == last.modelName && moved.entity == last.entity &&
        (mode == Translation ==>
           moved.rotation == last.rotation &&
           forall a :: Component(moved.position, a) == Component(last.position, a) + (if a == translationAxis then amount * translationSpeed else 0.0)) &&
        (mode == Rotation ==>
           moved.position == last.position &&
           forall a :: Component(moved.rotation, a) == Component(last.rotation, a) + (if a == rotationAxis then amount * rotationSpeed else 0.0)))
    ensures ApplyToLast(ApplyToLast(objects, mode, translationAxis, rotationAxis, amount, translationSpeed, rotationSpeed),
                        mode, translationAxis, rotationAxis, -amount, translationSpeed, rotationSpeed) == objects
  {
    if objects != [] {
      ApplyThenOpposite(objects[|objects| - 1], mode, translationAxis, rotationAxis, amount, translationSpeed, rotationSpeed);
    }
  }
}
