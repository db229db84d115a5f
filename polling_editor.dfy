/**
 * The oldest map editor (MapEditor.cs): an array of bindings polled in order
 * once per tick, each firing when its key is pressed, it passes the edit-mode
 * gate and its cooldown has run out; the transformation of the last spawned
 * object; a test spawn near the player; and a free camera it moves itself.
 * There is no held or handled set: holding an action key fires it again every
 * 31 ticks.
 *
 * The key handlers are values of `Command`; `Perform` runs one. The game host
 * appears as a `Host` value that answers the queries of one tick, and the
 * effects on it are recorded in the ghost log `hostCalls`.
 */
module PollingEditor {
  import opened Wrappers
  import opened Geometry
  import opened MapObjects
  import opened HostCalls
  import opened Transformation
  import opened NamedSpawn
  import opened CameraMotion
  import Inputs

  const TranslationSpeed: real := 0.1
  const RotationSpeed: real := 1.0
  /** The cooldown of the toggle, spawn, mode and axis bindings. */
  const ActionCooldown: int := 30
  /** The model the spawn key creates. */
  const TestObjectModelName: string := "P_TRUNK04X"

  /** The handlers the bindings run. */
  datatype Command =
    | ToggleMapEditor
    | SpawnTestObject
    | ChangeTransformationMode
    | ChangeTransformationAxis
    | ApplyTransformation(amount: real)
    | MoveCamera(relativeDeltaTranslation: Vector3, relativeDeltaRotation: Vector3)

  /** Only the toggle handler changes the edit mode, and so the gate of later bindings in the same tick. */
  predicate IsToggle(command: Command) {
    command == ToggleMapEditor
  }

  /** This editor's binding record: no repeatable flag; the tick it last fired, 0 until then. */
  datatype PollInput = PollInput(
    name: string,
    key: Inputs.Key,
    cooldownDurationInTicks: int,
    canBeUsedOutsideOfMapEditor: bool,
    handler: Command,
    lastUsageTick: int)

  /** The bindings the constructor builds, in array order. */
  function InitialInputs(): (inputs: seq<PollInput>)
    ensures |inputs| == 12
  {
    [PollInput("Toggle Map Editor", Inputs.F1, ActionCooldown, true, ToggleMapEditor, 0),
     PollInput("Spawn Test Object", Inputs.F2, ActionCooldown, false, SpawnTestObject, 0),
     PollInput("Change Transformation Mode", Inputs.Comma, ActionCooldown, false, ChangeTransformationMode, 0),
     PollInput("Change Transformation Axis", Inputs.Period, ActionCooldown, false, ChangeTransformationAxis, 0),
     PollInput("Negative Transformation", Inputs.Left, 0, false, ApplyTransformation(-1.0), 0),
     PollInput("Positive Transformation", Inputs.Right, 0, false, ApplyTransformation(1.0), 0),
     PollInput("Move Camera Forward", Inputs.W, 0, false, MoveCamera(RelativeFront, Zero), 0),
     PollInput("Move Camera Backward", Inputs.S, 0, false, MoveCamera(RelativeBack, Zero), 0),
     PollInput("Move Camera Left", Inputs.A, 0, false, MoveCamera(RelativeLeft, Zero), 0),
     PollInput("Move Camera Right", Inputs.D, 0, false, MoveCamera(RelativeRight, Zero), 0),
     PollInput("Move Camera Up", Inputs.E, 0, false, MoveCamera(RelativeTop, Zero), 0),
     PollInput("Move Camera Down", Inputs.Q, 0, false, MoveCamera(RelativeBottom, Zero), 0)]
  }

  /**
   * The first four bindings (toggle, spawn, mode, axis) have the 30-tick
   * cooldown and the rest none; only the toggle works outside the editor and
   * only it changes the edit mode; every key is bound once; and every
   * binding starts unused.
   */
  lemma InitialInputsRoles()
    ensures forall i :: 0 <= i < 12 ==> InitialInputs()[i].lastUsageTick == 0
    ensures forall i :: 0 <= i < 12 ==> InitialInputs()[i].cooldownDurationInTicks == if i < 4 then ActionCooldown else 0
    ensures forall i :: 0 <= i < 12 ==> (InitialInputs()[i].canBeUsedOutsideOfMapEditor <==> i == 0)
    ensures forall i :: 0 <= i < 12 ==> (IsToggle(InitialInputs()[i].handler) <==> i == 0)
    ensures forall i, j :: 0 <= i < j < 12 ==> InitialInputs()[i].key != InitialInputs()[j].key
  {
  }

  /** `inputs` differs from the built bindings only in the last-usage stamps. */
  ghost predicate Stamped(inputs: seq<PollInput>) {
    |inputs| == |InitialInputs()| &&
    forall i :: 0 <= i < |inputs| ==> inputs[i] == InitialInputs()[i].(lastUsageTick := inputs[i].lastUsageTick)
  }

  /** Only bindings that work outside the editor can fire there, and no camera binding does. */
  lemma CameraBindingsNeedEditor(inputs: seq<PollInput>, i: nat)
    requires Stamped(inputs) && i < |inputs|
    ensures inputs[i].handler.MoveCamera? ==> !inputs[i].canBeUsedOutsideOfMapEditor
  {
    InitialInputsRoles();
  }

  /** The condition of HandleInputs for one binding, with `pressed` the keys the host reports down. */
  predicate PollFires(input: PollInput, pressed: set<Inputs.Key>, isInMapEditorMode: bool, tick: int) {
    input.key in pressed &&
    Inputs.EditModeGate(input.canBeUsedOutsideOfMapEditor, isInMapEditorMode) &&
    tick - input.lastUsageTick > input.cooldownDurationInTicks
  }

  /** What HandleInputs reads and writes: the bindings (for the stamps), the edit mode and the handlers run so far. */
  datatype PollState = PollState(inputs: seq<PollInput>, isInMapEditorMode: bool, fired: seq<Command>)

  /** One iteration of the HandleInputs loop, for the binding at index `i`. */
  function PollStep(s: PollState, i: nat, pressed: set<Inputs.Key>, tick: int): (r: PollState)
    requires i < |s.inputs|
    ensures |r.inputs| == |s.inputs|
  {
    var input := s.inputs[i];
    if !PollFires(input, pressed, s.isInMapEditorMode, tick) then s
    else PollState(s.inputs[i := input.(lastUsageTick := tick)],
                   if IsToggle(input.handler) then !s.isInMapEditorMode else s.isInMapEditorMode,
                   s.fired + [input.handler])
  }

  /** The first `n` iterations of the HandleInputs loop. */
  function Poll(s: PollState, n: nat, pressed: set<Inputs.Key>, tick: int): (r: PollState)
    requires n <= |s.inputs|
    ensures |r.inputs| == |s.inputs| && |s.fired| <= |r.fired| <= |s.fired| + n
  {
    if n == 0 then s else PollStep(Poll(s, n - 1, pressed, tick), n - 1, pressed, tick)
  }

  /** A whole HandleInputs pass. */
  function OneTick(s: PollState, pressed: set<Inputs.Key>, tick: int): (r: PollState)
    ensures |r.inputs| == |s.inputs| && |s.fired| <= |r.fired| <= |s.fired| + |s.inputs|
  {
    Poll(s, |s.inputs|, pressed, tick)
  }

  /**
   * After `n` iterations: the bindings not yet visited are unchanged; every
   * binding is unchanged or only stamped with the tick; and the handlers
   * run are appended to those run before, at most one per binding visited.
   */
  lemma {:induction false} PollEffect(s: PollState, n: nat, pressed: set<Inputs.Key>, tick: int)
    requires n <= |s.inputs|
    ensures var r := Poll(s, n, pressed, tick);
      (forall j :: n <= j < |s.inputs| ==> r.inputs[j] == s.inputs[j]) &&
      (forall j :: 0 <= j < |s.inputs| ==> r.inputs[j] == s.inputs[j] || r.inputs[j] == s.inputs[j].(lastUsageTick := tick)) &&
      |s.fired| <= |r.fired| <= |s.fired| + n && r.fired[..|s.fired|] == s.fired
  {
    if n > 0 {
      PollEffect(s, n - 1, pressed, tick);
      var before := Poll(s, n - 1, pressed, tick);
      var r := Poll(s, n, pressed, tick);
      assert r.fired[..|before.fired|] == before.fired;
      assert r.fired[..|s.fired|] == before.fired[..|s.fired|];
    }
  }

  /** The stamp binding `i` ends a pass with: the tick when it fired, its old stamp otherwise. */
  lemma {:induction false} PollStampAt(s: PollState, n: nat, i: nat, pressed: set<Inputs.Key>, tick: int)
    requires i < n <= |s.inputs|
    ensures var before := Poll(s, i, pressed, tick);
      before.inputs[i] == s.inputs[i] &&
      Poll(s, n, pressed, tick).inputs[i] ==
        if PollFires(s.inputs[i], pressed, before.isInMapEditorMode, tick) then s.inputs[i].(lastUsageTick := tick) else s.inputs[i]
  {
    PollEffect(s, i, pressed, tick);
    if n > i + 1 {
      PollStampAt(s, n - 1, i, pressed, tick);
    }
  }

  /** The state at the start of tick `tick0 + k`, after one pass per tick with the keys pressed in each. */
  function TickState(s: PollState, presses: seq<set<Inputs.Key>>, tick0: int, k: nat): (r: PollState)
    requires k <= |presses|
    ensures |r.inputs| == |s.inputs|
  {
    if k == 0 then s else OneTick(TickState(s, presses, tick0, k - 1), presses[k - 1], tick0 + k - 1)
  }

  /** Whether binding `i` fires during tick `tick0 + k`. */
  ghost predicate FiresDuring(s: PollState, presses: seq<set<Inputs.Key>>, tick0: int, k: nat, i: nat)
    requires k < |presses| && i < |s.inputs|
  {
    var start := TickState(s, presses, tick0, k);
    PollFires(start.inputs[i], presses[k], Poll(start, i, presses[k], tick0 + k).isInMapEditorMode, tick0 + k)
  }

  /** One pass keeps every binding but its stamp, and a stamp only moves forward when its cooldown is not negative. */
  lemma OneTickStamp(s: PollState, pressed: set<Inputs.Key>, tick: int, i: nat)
    requires i < |s.inputs| && s.inputs[i].cooldownDurationInTicks >= 0
    ensures var r := OneTick(s, pressed, tick).inputs[i];
      r == s.inputs[i].(lastUsageTick := r.lastUsageTick) && r.lastUsageTick >= s.inputs[i].lastUsageTick
  {
    PollStampAt(s, |s.inputs|, i, pressed, tick);
  }

  /** Over the ticks from `k1` to `k2`, binding `i` keeps everything but its stamp, which never moves back. */
  lemma {:induction false} StampMonotone(s: PollState, presses: seq<set<Inputs.Key>>, tick0: int, i: nat, k1: nat, k2: nat)
    requires i < |s.inputs| && s.inputs[i].cooldownDurationInTicks >= 0
    requires k1 <= k2 <= |presses|
    ensures var a, b := TickState(s, presses, tick0, k1).inputs[i], TickState(s, presses, tick0, k2).inputs[i];
      b == a.(lastUsageTick := b.lastUsageTick) && b.lastUsageTick >= a.lastUsageTick &&
      b.cooldownDurationInTicks == s.inputs[i].cooldownDurationInTicks
    decreases k2
  {
    if k2 > k1 {
      StampMonotone(s, presses, tick0, i, k1, k2 - 1);
      StampMonotone(s, presses, tick0, i, 0, k2 - 1);
      OneTickStamp(TickState(s, presses, tick0, k2 - 1), presses[k2 - 1], tick0 + k2 - 1, i);
    } else if k1 > 0 {
      StampMonotone(s, presses, tick0, i, 0, k1 - 1);
      OneTickStamp(TickState(s, presses, tick0, k1 - 1), presses[k1 - 1], tick0 + k1 - 1, i);
    }
  }

  /**
   * A binding whose cooldown is c fires at most once in any c + 1
   * consecutive ticks: two ticks in which it fires are more than c apart,
   * whatever keys are pressed and however the edit mode changes.
   */
  lemma CooldownSpacing(s: PollState, presses: seq<set<Inputs.Key>>, tick0: int, i: nat, k1: nat, k2: nat)
    requires i < |s.inputs| && s.inputs[i].cooldownDurationInTicks >= 0
    requires k1 < k2 < |presses|
    requires FiresDuring(s, presses, tick0, k1, i) && FiresDuring(s, presses, tick0, k2, i)
    ensures k2 - k1 > s.inputs[i].cooldownDurationInTicks
  {
    var start1 := TickState(s, presses, tick0, k1);
    StampMonotone(s, presses, tick0, i, 0, k1);
    PollStampAt(start1, |start1.inputs|, i, presses[k1], tick0 + k1);
    assert TickState(s, presses, tick0, k1 + 1).inputs[i].lastUsageTick == tick0 + k1;
    StampMonotone(s, presses, tick0, i, k1 + 1, k2);
    var start2 := TickState(s, presses, tick0, k2);
    PollEffect(start2, i, presses[k2], tick0 + k2);
  }

  /**
   * With the built bindings (up to their stamps), each of the toggle, spawn,
   * mode and axis bindings fires at most once in any 31 consecutive ticks.
   */
  lemma ActionBindingsSpacing(s: PollState, presses: seq<set<Inputs.Key>>, tick0: int, i: nat, k1: nat, k2: nat)
    requires Stamped(s.inputs) && i < 4
    requires k1 < k2 < |presses|
    requires FiresDuring(s, presses, tick0, k1, i) && FiresDuring(s, presses, tick0, k2, i)
    ensures k2 - k1 > ActionCooldown
  {
    InitialInputsRoles();
    CooldownSpacing(s, presses, tick0, i, k1, k2);
  }

  /**
   * The editor cannot be entered during the first 31 ticks: starting outside
   * it with fresh bindings, nothing fires on ticks 0 to 30, whatever is pressed.
   */
  lemma {:induction false} NoEarlyToggle(s: PollState, n: nat, pressed: set<Inputs.Key>, tick: int)
    requires s.inputs == InitialInputs() && !s.isInMapEditorMode && tick <= ActionCooldown && n <= 12
    ensures Poll(s, n, pressed, tick) == s
  {
    if n > 0 {
      NoEarlyToggle(s, n - 1, pressed, tick);
      InitialInputsRoles();
      assert !PollFires(s.inputs[n - 1], pressed, false, tick);
    }
  }

  /**
   * What the host answers during one tick: the keys it reports pressed,
   * object creation (None for a null entity), the player's pose, a point
   * picked within 3 units around the player (`Around(3.0f)`), the next
   * random number in [0, 1), and cosine and sine for the camera.
   */
  datatype Host = Host(
    pressedKeys: set<Inputs.Key>,
    createObject: (ModelRef, Vector3) -> Option<EntityHandle>,
    playerPosition: Vector3,
    playerRotation: Vector3,
    aroundPlayer: Vector3,
    randomDouble: real,
    trig: Trig)

  /** The test spawn's pose: at the host's point around the player, turned to a yaw of `randomDouble * 360` degrees. */
  function TestObjectPose(aroundPlayer: Vector3, randomDouble: real): (pose: (Vector3, Vector3))
    ensures pose.0 == aroundPlayer && pose.1.x == 0.0 && pose.1.y == 0.0
    ensures 0.0 <= randomDouble < 1.0 ==> 0.0 <= pose.1.z < 360.0
  {
    (aroundPlayer, Vector3(0.0, 0.0, randomDouble * 360.0))
  }

  /**
   * The editor as one value: what the handlers read and change. The camera
   * is the editor's own field here, and `hostCalls` its one log.
   */
  datatype EditorState = EditorState(
    spawnedObjects: seq<MapObject>,
    isInMapEditorMode: bool,
    transformationMode: TransformationMode,
    translationAxis: TransformationAxis,
    rotationAxis: TransformationAxis,
    camera: Option<HostCamera>,
    hostCalls: seq<HostCall>)

  /** Every object has an entity; in the editor the camera exists, and it is active exactly then. */
  ghost predicate StateValid(st: EditorState) {
    AllBacked(st.spawnedObjects) &&
    (st.isInMapEditorMode ==> st.camera.Some?) &&
    (st.camera.Some? ==> st.camera.value.isActive == st.isInMapEditorMode)
  }

  /**
   * ToggleMapEditor: entering creates the active camera at the player's
   * pose, switches rendering to it and takes control from the player;
   * leaving deletes the camera, switches back and gives control back.
   */
  function Toggled(st: EditorState, host: Host): (r: EditorState)
    requires StateValid(st)
    ensures StateValid(r) && r.isInMapEditorMode == !st.isInMapEditorMode
    ensures r.isInMapEditorMode ==> r.camera.value.position == host.playerPosition && r.camera.value.rotation == host.playerRotation
    ensures r.spawnedObjects == st.spawnedObjects
  {
    if !st.isInMapEditorMode then
      st.(isInMapEditorMode := true,
          camera := Some(HostCamera(host.playerPosition, host.playerRotation, EditorCameraFieldOfView, true, false)),
          hostCalls := st.hostCalls + [EnterScriptedCamera, SetCanControlCharacter(false), UserFriendlyPrint("Entered Map Editor")])
    else
      st.(isInMapEditorMode := false,
          camera := Some(st.camera.value.(isActive := false, isDeleted := true)),
          hostCalls := st.hostCalls + [ExitScriptedCamera, SetCanControlCharacter(true), UserFriendlyPrint("Exited Map Editor")])
  }

  /**
   * SpawnTestObject: the test model is created at the host's point around
   * the player with a random yaw, and joins the end of the list when the
   * host creates its entity.
   */
  function TestSpawned(st: EditorState, host: Host): (r: EditorState)
    requires StateValid(st)
    ensures StateValid(r)
    ensures |st.spawnedObjects| <= |r.spawnedObjects| <= |st.spawnedObjects| + 1
    ensures r.spawnedObjects[..|st.spawnedObjects|] == st.spawnedObjects
    ensures |r.spawnedObjects| > |st.spawnedObjects| ==>
      r.spawnedObjects[|st.spawnedObjects|].modelName == TestObjectModelName &&
      r.spawnedObjects[|st.spawnedObjects|].position == host.aroundPlayer
  {
    var pose := TestObjectPose(host.aroundPlayer, host.randomDouble);
    SpawnAppendsIffCreated(st.spawnedObjects, TestObjectModelName, pose.0, pose.1, host.createObject);
    st.(spawnedObjects := SpawnedObjects(st.spawnedObjects, TestObjectModelName, pose.0, pose.1, host.createObject),
        hostCalls := st.hostCalls + SpawnCalls(TestObjectModelName, pose.0, pose.1, host.createObject))
  }

  /** ApplyTransformation(amount): the last object moves or turns along the current mode's axis, and the host is told. */
  function Transformed(st: EditorState, amount: real): (r: EditorState)
    requires StateValid(st)
    ensures StateValid(r) && |r.spawnedObjects| == |st.spawnedObjects|
    ensures forall i :: 0 <= i < |st.spawnedObjects| - 1 ==> r.spawnedObjects[i] == st.spawnedObjects[i]
  {
    var objects := ApplyToLast(st.spawnedObjects, st.transformationMode, st.translationAxis, st.rotationAxis,
                               amount, TranslationSpeed, RotationSpeed);
    ApplyToLastOnlyLast(st.spawnedObjects, st.transformationMode, st.translationAxis, st.rotationAxis,
                        amount, TranslationSpeed, RotationSpeed);
    if st.spawnedObjects == [] then st
    else
      var moved := objects[|objects| - 1];
      st.(spawnedObjects := objects,
          hostCalls := st.hostCalls + [if st.transformationMode == Translation
                                       then SetEntityPosition(moved.entity, moved.position)
                                       else SetEntityRotation(moved.entity, moved.rotation)])
  }

  /** ChangeTransformationMode: the other mode, printed. */
  function ModeChanged(st: EditorState): EditorState {
    var mode := NextMode(st.transformationMode);
    st.(transformationMode := mode, hostCalls := st.hostCalls + [UserFriendlyPrint("Transformation Mode: " + ModeName(mode))])
  }

  /** ChangeTransformationAxis: the current mode's next axis, printed. */
  function AxisChanged(st: EditorState): EditorState {
    if st.transformationMode == Translation then
      var axis := NextAxis(st.translationAxis);
      st.(translationAxis := axis, hostCalls := st.hostCalls + [UserFriendlyPrint("Translation Axis: " + AxisName(axis))])
    else
      var axis := NextAxis(st.rotationAxis);
      st.(rotationAxis := axis, hostCalls := st.hostCalls + [UserFriendlyPrint("Rotation Axis: " + AxisName(axis))])
  }

  /**
   * MoveCamera: the camera moves by the camera-relative translation turned
   * by its yaw, at full speed; its rotation stays. Its bindings fire only in
   * the editor, where the camera exists.
   */
  function CameraMoved(st: EditorState, relativeDeltaTranslation: Vector3, trig: Trig): (r: EditorState)
    requires StateValid(st)
    ensures StateValid(r) && r.spawnedObjects == st.spawnedObjects && r.isInMapEditorMode == st.isInMapEditorMode
    ensures r.camera.Some? <==> st.camera.Some?
    ensures r.camera.Some? ==> r.camera.value.rotation == st.camera.value.rotation
    ensures relativeDeltaTranslation == Zero ==> r == st
  {
    if st.camera.None? then st
    else
      var was := st.camera.value;
      var position := Translated(was.position, was.rotation, relativeDeltaTranslation, 1.0, trig);
      assert relativeDeltaTranslation == Zero ==> was.(position := position) == was;
      st.(camera := Some(was.(position := position)))
  }

  /**
   * What running one handler does to the editor. Only the toggle changes the
   * edit mode, as the polling assumes of `IsToggle`; only the spawn adds an
   * object, one at most, and only the spawn and the transformation touch the
   * list; only the toggle and the camera handlers touch the camera.
   */
  function Effect(st: EditorState, command: Command, host: Host): (r: EditorState)
    requires StateValid(st)
    ensures StateValid(r)
    ensures r.isInMapEditorMode == (st.isInMapEditorMode != IsToggle(command))
    ensures |st.spawnedObjects| <= |r.spawnedObjects| <= |st.spawnedObjects| + (if command == SpawnTestObject then 1 else 0)
    ensures !command.SpawnTestObject? && !command.ApplyTransformation? ==> r.spawnedObjects == st.spawnedObjects
    ensures !command.ToggleMapEditor? && !command.MoveCamera? ==> r.camera == st.camera
  {
    match command
    case ToggleMapEditor => Toggled(st, host)
    case SpawnTestObject => TestSpawned(st, host)
    case ChangeTransformationMode => ModeChanged(st)
    case ChangeTransformationAxis => AxisChanged(st)
    case ApplyTransformation(amount) => Transformed(st, amount)
    case MoveCamera(relativeDeltaTranslation, _) => CameraMoved(st, relativeDeltaTranslation, host.trig)
  }

  /** The handlers of `commands` run one after the other. */
  function Effects(st: EditorState, commands: seq<Command>, host: Host): (r: EditorState)
    requires StateValid(st)
    ensures StateValid(r)
  {
    if commands == [] then st
    else Effect(Effects(st, commands[..|commands| - 1], host), commands[|commands| - 1], host)
  }

  /** How many of `commands` are the spawn. */
  function Spawns(commands: seq<Command>): nat {
    if commands == [] then 0
    else Spawns(commands[..|commands| - 1]) + (if commands[|commands| - 1] == SpawnTestObject then 1 else 0)
  }

  /**
   * The list never shrinks, and it grows by at most one object per spawn
   * handler run: no handler of this editor removes an object.
   */
  lemma {:induction false} EffectsGrowBySpawns(st: EditorState, commands: seq<Command>, host: Host)
    requires StateValid(st)
    ensures var r := Effects(st, commands, host);
      |st.spawnedObjects| <= |r.spawnedObjects| <= |st.spawnedObjects| + Spawns(commands)
  {
    if commands != [] {
      EffectsGrowBySpawns(st, commands[..|commands| - 1], host);
    }
  }

  /** Running `a` and then `b` is running `a + b`. */
  lemma {:induction false} EffectsAppend(st: EditorState, a: seq<Command>, b: seq<Command>, host: Host)
    requires StateValid(st)
    ensures Effects(st, a + b, host) == Effects(Effects(st, a, host), b, host)
  {
    if b == [] {
      assert a + b == a;
    } else {
      var b', last := b[..|b| - 1], b[|b| - 1];
      assert a + b == (a + b') + [last];
      assert (a + b)[..|a + b| - 1] == a + b';
      EffectsAppend(st, a, b', host);
    }
  }

  /**
   * The state of the polling loop after the first `i` bindings: the poll so
   * far, and the editor as the handlers fired so far leave it.
   */
  ghost predicate Progress(start: PollState, i: nat, pressed: set<Inputs.Key>, tick: int,
                           p: PollState, initial: EditorState, st: EditorState, host: Host)
  {
    i <= |start.inputs| && p == Poll(start, i, pressed, tick) &&
    |start.fired| <= |p.fired| && StateValid(initial) &&
    st == Effects(initial, p.fired[|start.fired|..], host)
  }

  lemma ProgressStart(start: PollState, pressed: set<Inputs.Key>, tick: int, initial: EditorState, host: Host)
    requires StateValid(initial)
    ensures Progress(start, 0, pressed, tick, start, initial, initial, host)
  {
    assert start.fired[|start.fired|..] == [];
  }

  /** One binding of the loop: the poll takes a `PollStep`, and the editor follows the handler it fired, if any. */
  lemma ProgressStep(start: PollState, i: nat, pressed: set<Inputs.Key>, tick: int,
                     p: PollState, initial: EditorState, st: EditorState, st': EditorState, host: Host)
    requires Progress(start, i, pressed, tick, p, initial, st, host) && i < |start.inputs|
    requires st' == if PollFires(p.inputs[i], pressed, p.isInMapEditorMode, tick) then Effect(st, p.inputs[i].handler, host) else st
    ensures Progress(start, i + 1, pressed, tick, PollStep(p, i, pressed, tick), initial, st', host)
  {
    var next := PollStep(p, i, pressed, tick);
    if PollFires(p.inputs[i], pressed, p.isInMapEditorMode, tick) {
      var run := next.fired[|start.fired|..];
      assert run == p.fired[|start.fired|..] + [p.inputs[i].handler];
      assert run[..|run| - 1] == p.fired[|start.fired|..];
    }
  }

  class MapEditor {
    var spawnedObjects: seq<MapObject>
    const inputs: array<PollInput>
    var isInMapEditorMode: bool
    var tick: int
    var transformationMode: TransformationMode
    var translationAxis: TransformationAxis
    var rotationAxis: TransformationAxis
    /** The scripted camera; None (null) until the editor is first entered. */
    var camera: Option<HostCamera>
    /** Prints, entity updates, camera and control switches, in order. */
    ghost var hostCalls: seq<HostCall>
    /** The handlers the polling ran, in order. */
    ghost var handlersRun: seq<Command>

    /**
     * Every spawned object has an entity; the bindings are the built ones up
     * to their stamps; in the editor the camera exists, and it is active
     * exactly then.
     */
    ghost predicate Valid()
      reads this`spawnedObjects, this`isInMapEditorMode, this`camera, inputs
    {
      AllBacked(spawnedObjects) &&
      Stamped(inputs[..]) &&
      (isInMapEditorMode ==> camera.Some?) &&
      (camera.Some? ==> camera.value.isActive == isInMapEditorMode)
    }

    /** The editor as the value the handler specification works on. */
    ghost function State(): EditorState
      reads this`spawnedObjects, this`isInMapEditorMode, this`transformationMode, this`translationAxis, this`rotationAxis,
            this`camera, this`hostCalls
    {
      EditorState(spawnedObjects, isInMapEditorMode, transformationMode, translationAxis, rotationAxis, camera, hostCalls)
    }

    /** The poll state HandleInputs starts from. */
    ghost function Polled(): PollState
      reads this`isInMapEditorMode, this`handlersRun, inputs
    {
      PollState(inputs[..], isInMapEditorMode, handlersRun)
    }

    constructor ()
      ensures Valid() && fresh(inputs)
      ensures spawnedObjects == [] && inputs[..] == InitialInputs()
      ensures !isInMapEditorMode && tick == 0 && camera == None
      ensures transformationMode == Translation && translationAxis == X && rotationAxis == X
      ensures hostCalls == [] && handlersRun == []
    {
      spawnedObjects := [];
      inputs := new PollInput[12](i requires 0 <= i < 12 => InitialInputs()[i]);
      isInMapEditorMode := false;
      tick := 0;
      transformationMode := Translation;
      translationAxis := X;
      rotationAxis := X;
      camera := None;
      hostCalls := [];
      handlersRun := [];
      new;
      assert inputs[..] == InitialInputs();
    }

    /**
     * Polls the bindings and advances the tick by one. The editor ends as the
     * handlers the polling fired, run in order, leave it.
     */
    method OnTick(host: Host)
      requires Valid()
      modifies this`spawnedObjects, this`isInMapEditorMode, this`tick, this`transformationMode, this`translationAxis,
               this`rotationAxis, this`camera, this`hostCalls, this`handlersRun, inputs
      ensures Valid()
      ensures PollState(inputs[..], isInMapEditorMode, handlersRun) ==
              OneTick(PollState(old(inputs[..]), old(isInMapEditorMode), old(handlersRun)), host.pressedKeys, old(tick))
      ensures State() == Effects(old(State()), handlersRun[|old(handlersRun)|..], host)
      ensures tick == old(tick) + 1
    {
      HandleInputs(host);
      tick := tick + 1;
    }

    /** Visits the bindings in array order; the whole pass is the fold `OneTick`. */
    method HandleInputs(host: Host)
      requires Valid()
      modifies this`spawnedObjects, this`isInMapEditorMode, this`transformationMode, this`translationAxis,
               this`rotationAxis, this`camera, this`hostCalls, this`handlersRun, inputs
      ensures Valid()
      ensures PollState(inputs[..], isInMapEditorMode, handlersRun) ==
              OneTick(PollState(old(inputs[..]), old(isInMapEditorMode), old(handlersRun)), host.pressedKeys, tick)
      ensures State() == Effects(old(State()), handlersRun[|old(handlersRun)|..], host)
    {
      ghost var start, initial := Polled(), State();
      var i := 0;
      ProgressStart(start, host.pressedKeys, tick, initial, host);
      while i < inputs.Length
        invariant 0 <= i <= inputs.Length
        invariant Valid()
        invariant Progress(start, i, host.pressedKeys, tick, Polled(), initial, State(), host)
      {
        ghost var p, before := Polled(), State();
        HandleInput(i, host);
        ProgressStep(start, i, host.pressedKeys, tick, p, initial, before, State(), host);
        i := i + 1;
      }
    }

    /** One pass of the HandleInputs loop, for the binding at index `i`: the step `PollStep`. */
    method HandleInput(i: nat, host: Host)
      requires Valid() && i < inputs.Length
      modifies this`spawnedObjects, this`isInMapEditorMode, this`transformationMode, this`translationAxis,
               this`rotationAxis, this`camera, this`hostCalls, this`handlersRun, inputs
      ensures Valid()
      ensures PollState(inputs[..], isInMapEditorMode, handlersRun) ==
              PollStep(PollState(old(inputs[..]), old(isInMapEditorMode), old(handlersRun)), i, host.pressedKeys, tick)
      ensures State() == if PollFires(old(inputs[i]), host.pressedKeys, old(isInMapEditorMode), tick)
                         then Effect(old(State()), old(inputs[i]).handler, host)
                         else old(State())
    {
      var input := inputs[i];
      if input.key in host.pressedKeys &&
         (input.canBeUsedOutsideOfMapEditor || (isInMapEditorMode && !input.canBeUsedOutsideOfMapEditor)) &&
         tick - input.lastUsageTick > input.cooldownDurationInTicks
      {
        CameraBindingsNeedEditor(inputs[..], i);
        MarkFired(i);
        Perform(input.handler, host);
      }
    }

    /** The bookkeeping of a firing binding: stamped with the tick, its handler recorded. */
    method MarkFired(i: nat)
      requires Valid() && i < inputs.Length
      modifies this`handlersRun, inputs
      ensures Valid()
      ensures inputs[..] == old(inputs[..])[i := old(inputs[i]).(lastUsageTick := tick)]
      ensures handlersRun == old(handlersRun) + [old(inputs[i]).handler]
      ensures inputs[i].handler == old(inputs[i]).handler && inputs[i].canBeUsedOutsideOfMapEditor == old(inputs[i]).canBeUsedOutsideOfMapEditor
    {
      var input := inputs[i];
      inputs[i] := input.(lastUsageTick := tick);
      handlersRun := handlersRun + [input.handler];
    }

    /**
     * Runs one handler: the editor ends as `Effect` says. The frame states
     * that no handler touches the bindings, the tick or the record of
     * handlers run. The camera handlers need the editor on, which their
     * bindings' gate ensures.
     */
    method Perform(command: Command, host: Host)
      requires Valid() && (command.MoveCamera? ==> isInMapEditorMode)
      modifies this`spawnedObjects, this`isInMapEditorMode, this`transformationMode, this`translationAxis,
               this`rotationAxis, this`camera, this`hostCalls
      ensures Valid()
      ensures State() == Effect(old(State()), command, host)
    {
      match command
      case ToggleMapEditor => ToggleMapEditor(host);
      case SpawnTestObject => SpawnTestObject(host);
      case ChangeTransformationMode => ChangeTransformationMode();
      case ChangeTransformationAxis => ChangeTransformationAxis();
      case ApplyTransformation(amount) => ApplyTransformation(amount);
      case MoveCamera(relativeDeltaTranslation, relativeDeltaRotation) =>
        MoveCamera(relativeDeltaTranslation, relativeDeltaRotation, host.trig);
    }

    /**
     * Moves the camera by the camera-relative translation turned by its yaw,
     * at the camera movement speed. The rotation argument is not used. The
     * source dereferences the camera, so there must be one.
     */
    method MoveCamera(relativeDeltaTranslation: Vector3, relativeDeltaRotation: Vector3, trig: Trig)
      requires camera.Some?
      modifies this`camera
      ensures camera == Some(old(camera).value.(position := Translated(old(camera).value.position, old(camera).value.rotation,
                                                                       relativeDeltaTranslation, 1.0, trig)))
    {
      var cameraRotation := camera.value.rotation;
      var localSpaceRelativeDeltaTranslation := RotateByYaw(relativeDeltaTranslation, cameraRotation.z, trig);
      camera := Some(camera.value.(position := Add(camera.value.position, Scale(localSpaceRelativeDeltaTranslation, CameraMovementSpeed))));
    }

    /**
     * Moves or turns the last spawned object by `amount` along the axis of
     * the current mode, and tells the host; nothing happens with no object.
     */
    method ApplyTransformation(amount: real)
      requires Valid()
      modifies this`spawnedObjects, this`hostCalls
      ensures Valid() && State() == Transformed(old(State()), amount)
      ensures spawnedObjects == ApplyToLast(old(spawnedObjects), transformationMode, translationAxis, rotationAxis, amount, TranslationSpeed, RotationSpeed)
      ensures old(spawnedObjects) == [] ==> hostCalls == old(hostCalls)
      ensures old(spawnedObjects) != [] ==>
        var moved := spawnedObjects[|spawnedObjects| - 1];
        hostCalls == old(hostCalls) + [if transformationMode == Translation
                                       then SetEntityPosition(moved.entity, moved.position)
                                       else SetEntityRotation(moved.entity, moved.rotation)]
    {
      match transformationMode
      case Translation => TranslateLastSpawnedObject(Scale(AxisVector(translationAxis, amount), TranslationSpeed));
      case Rotation => RotateLastSpawnedObject(Scale(AxisVector(rotationAxis, amount), RotationSpeed));
    }

    method TranslateLastSpawnedObject(deltaTranslation: Vector3)
      requires Valid()
      modifies this`spawnedObjects, this`hostCalls
      ensures Valid()
      ensures old(spawnedObjects) == [] ==> spawnedObjects == old(spawnedObjects) && hostCalls == old(hostCalls)
      ensures old(spawnedObjects) != [] ==>
        var last := |old(spawnedObjects)| - 1;
        var moved := old(spawnedObjects)[last].(position := Add(old(spawnedObjects)[last].position, deltaTranslation));
        spawnedObjects == old(spawnedObjects)[last := moved] &&
        hostCalls == old(hostCalls) + [SetEntityPosition(moved.entity, moved.position)]
    {
      if spawnedObjects == [] {
        return;
      }
      var lastSpawnedObject := spawnedObjects[|spawnedObjects| - 1];
      var newPosition := Add(lastSpawnedObject.position, deltaTranslation);
      hostCalls := hostCalls + [SetEntityPosition(lastSpawnedObject.entity, newPosition)];
      spawnedObjects := spawnedObjects[|spawnedObjects| - 1 := lastSpawnedObject.(position := newPosition)];
    }

    method RotateLastSpawnedObject(deltaRotation: Vector3)
      requires Valid()
      modifies this`spawnedObjects, this`hostCalls
      ensures Valid()
      ensures old(spawnedObjects) == [] ==> spawnedObjects == old(spawnedObjects) && hostCalls == old(hostCalls)
      ensures old(spawnedObjects) != [] ==>
        var last := |old(spawnedObjects)| - 1;
        var turned := old(spawnedObjects)[last].(rotation := Add(old(spawnedObjects)[last].rotation, deltaRotation));
        spawnedObjects == old(spawnedObjects)[last := turned] &&
        hostCalls == old(hostCalls) + [SetEntityRotation(turned.entity, turned.rotation)]
    {
      if spawnedObjects == [] {
        return;
      }
      var lastSpawnedObject := spawnedObjects[|spawnedObjects| - 1];
      var newRotation := Add(lastSpawnedObject.rotation, deltaRotation);
      hostCalls := hostCalls + [SetEntityRotation(lastSpawnedObject.entity, newRotation)];
      spawnedObjects := spawnedObjects[|spawnedObjects| - 1 := lastSpawnedObject.(rotation := newRotation)];
    }

    /** Switches to the other mode and prints it. */
    method ChangeTransformationMode()
      modifies this`transformationMode, this`hostCalls
      ensures State() == ModeChanged(old(State()))
      ensures transformationMode == NextMode(old(transformationMode))
      ensures hostCalls == old(hostCalls) + [UserFriendlyPrint("Transformation Mode: " + ModeName(transformationMode))]
    {
      transformationMode := NextMode(transformationMode);
      hostCalls := hostCalls + [UserFriendlyPrint("Transformation Mode: " + ModeName(transformationMode))];
    }

    /** Advances the current mode's axis, leaves the other mode's axis alone, and prints the new axis. */
    method ChangeTransformationAxis()
      modifies this`translationAxis, this`rotationAxis, this`hostCalls
      ensures State() == AxisChanged(old(State()))
      ensures transformationMode == Translation ==>
        translationAxis == NextAxis(old(translationAxis)) && rotationAxis == old(rotationAxis) &&
        hostCalls == old(hostCalls) + [UserFriendlyPrint("Translation Axis: " + AxisName(translationAxis))]
      ensures transformationMode == Rotation ==>
        rotationAxis == NextAxis(old(rotationAxis)) && translationAxis == old(translationAxis) &&
        hostCalls == old(hostCalls) + [UserFriendlyPrint("Rotation Axis: " + AxisName(rotationAxis))]
    {
      match transformationMode
      case Translation =>
        translationAxis := NextAxis(translationAxis);
        hostCalls := hostCalls + [UserFriendlyPrint("Translation Axis: " + AxisName(translationAxis))];
      case Rotation =>
        rotationAxis := NextAxis(rotationAxis);
        hostCalls := hostCalls + [UserFriendlyPrint("Rotation Axis: " + AxisName(rotationAxis))];
    }

    /**
     * Flips the edit mode. Entering creates an active camera at the player's
     * pose, switches rendering to it and takes control from the player;
     * leaving deactivates and deletes the camera, switches back and gives
     * control back.
     */
    method ToggleMapEditor(host: Host)
      requires Valid()
      modifies this`isInMapEditorMode, this`camera, this`hostCalls
      ensures Valid() && State() == Toggled(old(State()), host)
      ensures isInMapEditorMode == !old(isInMapEditorMode)
      ensures isInMapEditorMode ==>
        camera == Some(HostCamera(host.playerPosition, host.playerRotation, EditorCameraFieldOfView, true, false)) &&
        hostCalls == old(hostCalls) + [EnterScriptedCamera, SetCanControlCharacter(false), UserFriendlyPrint("Entered Map Editor")]
      ensures !isInMapEditorMode ==>
        camera == Some(old(camera).value.(isActive := false, isDeleted := true)) &&
        hostCalls == old(hostCalls) + [ExitScriptedCamera, SetCanControlCharacter(true), UserFriendlyPrint("Exited Map Editor")]
    {
      isInMapEditorMode := !isInMapEditorMode;
      if isInMapEditorMode {
        OnMapEditorModeEnter(host);
      } else {
        OnMapEditorModeExit();
      }
    }

    method OnMapEditorModeEnter(host: Host)
      modifies this`camera, this`hostCalls
      ensures camera == Some(HostCamera(host.playerPosition, host.playerRotation, EditorCameraFieldOfView, true, false))
      ensures hostCalls == old(hostCalls) + [EnterScriptedCamera, SetCanControlCharacter(false), UserFriendlyPrint("Entered Map Editor")]
    {
      camera := Some(HostCamera(host.playerPosition, host.playerRotation, EditorCameraFieldOfView, false, false));
      camera := Some(camera.value.(isActive := true));
      hostCalls := hostCalls + [EnterScriptedCamera, SetCanControlCharacter(false), UserFriendlyPrint("Entered Map Editor")];
    }

    /** The source dereferences the camera, so there must be one. */
    method OnMapEditorModeExit()
      requires camera.Some?
      modifies this`camera, this`hostCalls
      ensures camera == Some(old(camera).value.(isActive := false, isDeleted := true))
      ensures hostCalls == old(hostCalls) + [ExitScriptedCamera, SetCanControlCharacter(true), UserFriendlyPrint("Exited Map Editor")]
    {
      camera := Some(camera.value.(isActive := false));
      camera := Some(camera.value.(isDeleted := true));
      hostCalls := hostCalls + [ExitScriptedCamera, SetCanControlCharacter(true), UserFriendlyPrint("Exited Map Editor")];
    }

    /**
     * Asks the host for `hashValue` at `position`, sets the rotation (even on
     * a null entity), and appends the object when the entity exists.
     */
    method SpawnObject(hashValue: string, position: Vector3, rotation: Vector3,
                       createObject: (ModelRef, Vector3) -> Option<EntityHandle>) returns (spawned: Option<MapObject>)
      requires Valid()
      modifies this`spawnedObjects, this`hostCalls
      ensures Valid()
      ensures spawnedObjects == SpawnedObjects(old(spawnedObjects), hashValue, position, rotation, createObject)
      ensures hostCalls == old(hostCalls) + SpawnCalls(hashValue, position, rotation, createObject)
      ensures spawned.Some? <==> |spawnedObjects| > |old(spawnedObjects)|
      ensures spawned.Some? ==> spawned.value == spawnedObjects[|old(spawnedObjects)|]
    {
      var entity := createObject(ByName(hashValue), position);
      hostCalls := hostCalls + [SetEntityRotation(entity, rotation)];
      var spawnedObject := MapObject(hashValue, position, rotation, entity);
      if entity.None? {
        hostCalls := hostCalls + [UserFriendlyPrint("Failed to create " + hashValue)];
        return None;
      }
      spawnedObjects := spawnedObjects + [spawnedObject];
      hostCalls := hostCalls + [UserFriendlyPrint("Created " + hashValue)];
      return Some(spawnedObject);
    }

    /** Spawns the test model at a point around the player, turned to a random yaw. */
    method SpawnTestObject(host: Host)
      requires Valid()
      modifies this`spawnedObjects, this`hostCalls
      ensures Valid() && State() == TestSpawned(old(State()), host)
      ensures var pose := TestObjectPose(host.aroundPlayer, host.randomDouble);
        spawnedObjects == SpawnedObjects(old(spawnedObjects), TestObjectModelName, pose.0, pose.1, host.createObject) &&
        hostCalls == old(hostCalls) + SpawnCalls(TestObjectModelName, pose.0, pose.1, host.createObject)
    {
      var spawnRotation := Vector3(0.0, 0.0, host.randomDouble * 360.0);
      var spawnPosition := host.aroundPlayer;
      var _ := SpawnObject(TestObjectModelName, spawnPosition, spawnRotation, host.createObject);
    }
  }
}
