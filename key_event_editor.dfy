/**
 * The middle map editor (MapEditing/MapEditor.cs): the same key dispatch as
 * the newest editor, but with cooldowns of 30 ticks on the toggle, spawn,
 * mode and axis keys; a list of spawned objects whose last element the arrow
 * keys move or turn; a test spawn of one fixed model where the camera ray
 * hits; and the unclamped free camera.
 *
 * The key handlers are values of `Command`; `Perform` runs one. The game host
 * appears as a `Host` value that answers the queries of one tick, and the
 * effects on it are recorded in the ghost log `hostCalls`.
 */
module KeyEventEditor {
  import opened Wrappers
  import opened Geometry
  import opened MapObjects
  import opened HostCalls
  import opened Transformation
  import opened Inputs
  import opened NamedSpawn
  import opened CameraMotion
  import UnclampedCamera

  const TranslationSpeed: real := 0.025
  const RotationSpeed: real := 1.0
  /** The cooldown of the toggle, spawn, mode and axis bindings. */
  const ActionCooldown: int := 30
  /** The model the spawn key creates. */
  const TestObjectModelName: string := "P_TRUNK04X"

  /** The handlers the bindings run. */
  datatype Command =
    | ToggleMapEditor
    | SpawnTestObject
    | ChangeTransformationMode
    | ChangeTransformationAxis
    | ApplyTransformation(amount: real)
    | TranslateCamera(relativeTranslation: Vector3)
    | SetCameraSpeedModifier(speedModifier: real)

  /** Only the toggle handler changes the edit mode, and so the gate of later keys in the same tick. */
  predicate IsToggle(command: Command) {
    command == ToggleMapEditor
  }

  /**
   * The binding the constructor creates for `key`, if any. The toggle, spawn,
   * mode and axis keys fire once per press with a 30-tick cooldown; the
   * transformation and camera keys repeat while held with no cooldown; only
   * the toggle works outside the editor.
   */
  function Binding(key: Key): Option<Input<Command>> {
    match key
    case F1 => Some(NewInput("Toggle Map Editor", F1, false, ActionCooldown, true, ToggleMapEditor))
    case F2 => Some(NewInput("Spawn Test Object", F2, false, ActionCooldown, false, SpawnTestObject))
    case Comma => Some(NewInput("Change Transformation Mode", Comma, false, ActionCooldown, false, ChangeTransformationMode))
    case Period => Some(NewInput("Change Transformation Axis", Period, false, ActionCooldown, false, ChangeTransformationAxis))
    case Left => Some(NewInput("Negative Transformation", Left, true, 0, false, ApplyTransformation(-1.0)))
    case Right => Some(NewInput("Positive Transformation", Right, true, 0, false, ApplyTransformation(1.0)))
    case W => Some(NewInput("Move Camera Forward", W, true, 0, false, TranslateCamera(RelativeFront)))
    case S => Some(NewInput("Move Camera Backward", S, true, 0, false, TranslateCamera(RelativeBack)))
    case A => Some(NewInput("Move Camera Left", A, true, 0, false, TranslateCamera(RelativeLeft)))
    case D => Some(NewInput("Move Camera Right", D, true, 0, false, TranslateCamera(RelativeRight)))
    case E => Some(NewInput("Move Camera Up", E, true, 0, false, TranslateCamera(RelativeTop)))
    case Q => Some(NewInput("Move Camera Down", Q, true, 0, false, TranslateCamera(RelativeBottom)))
    case Shift => Some(NewInput("Fast Camera Speed", Shift, true, 0, false, SetCameraSpeedModifier(10.0)))
    case Control => Some(NewInput("Slow Camera Speed", Control, true, 0, false, SetCameraSpeedModifier(0.1)))
    case _ => None
  }

  function BoundKeys(): set<Key> {
    {F1, F2, Comma, Period, Left, Right, W, S, A, D, E, Q, Shift, Control}
  }

  /** The binding table, `ToDictionary(input => input.Key)` over the bindings above. */
  function Bindings(): map<Key, Input<Command>> {
    map key | key in BoundKeys() :: Binding(key).value
  }

  /** The keys held once per press: the toggle, spawn, mode and axis keys. */
  function ActionKeys(): set<Key> {
    {F1, F2, Comma, Period}
  }

  lemma BindingRole(k: Key)
    requires Binding(k).Some?
    ensures Binding(k).value.key == k && Binding(k).value.lastUsageTick == 0
    ensures Binding(k).value.canBeUsedOutsideOfMapEditor <==> k == F1
    ensures IsToggle(Binding(k).value.handler) <==> k == F1
    ensures !Binding(k).value.isRepeatable <==> k in ActionKeys()
    ensures Binding(k).value.cooldownDurationInTicks == if k in ActionKeys() then ActionCooldown else 0
  {
  }

  /**
   * Every binding sits under its own key and starts unused; the toggle on F1
   * is the only binding usable outside the editor and the only one that
   * changes the edit mode; the four action keys are exactly the
   * non-repeatable ones and carry the 30-tick cooldown, the others none.
   */
  lemma BindingsRoles()
    ensures KeyedByOwnKey(Bindings())
    ensures forall k :: k in Bindings() ==> Bindings()[k].lastUsageTick == 0
    ensures forall k :: k in Bindings() ==> (Bindings()[k].canBeUsedOutsideOfMapEditor <==> k == F1)
    ensures forall k :: k in Bindings() ==> (IsToggle(Bindings()[k].handler) <==> k == F1)
    ensures forall k :: k in Bindings() ==> (!Bindings()[k].isRepeatable <==> k in ActionKeys())
    ensures forall k :: k in Bindings() ==>
      Bindings()[k].cooldownDurationInTicks == if k in ActionKeys() then ActionCooldown else 0
  {
    BindingsTable();
    forall k | k in BoundKeys() {
      BindingRole(k);
    }
  }

  /** Bindings() holds exactly the bindings of the bound keys. */
  lemma BindingsTable()
    ensures forall k :: k in Bindings() <==> Binding(k).Some?
    ensures forall k :: k in Bindings() ==> Bindings()[k] == Binding(k).value
  {
    forall k
      ensures k in Bindings() <==> Binding(k).Some?
    {
      match k
      case OtherKey(_) =>
      case _ =>
    }
  }

  /** `inputs` differs from the built table only in the last-usage stamps. */
  ghost predicate Stamped(inputs: map<Key, Input<Command>>) {
    inputs.Keys == Bindings().Keys &&
    forall k :: k in inputs ==> inputs[k] == Bindings()[k].(lastUsageTick := inputs[k].lastUsageTick)
  }

  /** One dispatch step changes at most the stamp of the key it fires. */
  lemma StepKeepsStamped(s: DispatchState<Command>, key: Key, tick: int)
    requires Stamped(s.inputs)
    ensures Stamped(Step(s, key, tick, IsToggle).inputs)
  {
    if Fires(s, key, tick) {
      var inputs := Step(s, key, tick, IsToggle).inputs;
      forall k | k in inputs
        ensures inputs[k] == Bindings()[k].(lastUsageTick := inputs[k].lastUsageTick)
      {
        if k != key {
          assert inputs[k] == s.inputs[k];
        }
      }
    }
  }

  /** The key dispatch never adds, removes or rewrites a binding, only its stamp. */
  lemma {:induction false} DispatchKeepsStamped(s: DispatchState<Command>, keys: seq<Key>, tick: int)
    requires Stamped(s.inputs)
    ensures Stamped(Dispatch(s, keys, tick, IsToggle).inputs)
  {
    if keys != [] {
      DispatchKeepsStamped(s, keys[..|keys| - 1], tick);
      StepKeepsStamped(Dispatch(s, keys[..|keys| - 1], tick, IsToggle), keys[|keys| - 1], tick);
    }
  }

  /**
   * An action key that fired at tick `t` does not fire again at any tick up
   * to `t + 30`, held or pressed again; and while it stays held it does not
   * fire again at all, because it is in the handled set until key-up.
   */
  lemma ActionKeyCooldown(s: DispatchState<Command>, key: Key, t: int, later: int)
    requires Stamped(s.inputs) && key in ActionKeys() && Fires(s, key, t)
    ensures var r := Step(s, key, t, IsToggle);
      key in r.handled && !Fires(r, key, later) &&
      (later <= t + ActionCooldown ==> !Fires(r.(handled := r.handled - {key}), key, later))
  {
    BindingRole(key);
    var r := Step(s, key, t, IsToggle);
    assert r.inputs[key] == s.inputs[key].(lastUsageTick := t);
    assert s.inputs[key].cooldownDurationInTicks == ActionCooldown;
    assert !s.inputs[key].isRepeatable;
  }

  /** While an action key is still in the handled set it does not fire, whatever the tick. */
  lemma HeldActionKeyBlocked(s: DispatchState<Command>, key: Key, tick: int)
    requires Stamped(s.inputs) && key in ActionKeys() && key in s.handled
    ensures !Fires(s, key, tick)
  {
    BindingRole(key);
  }

  /**
   * During the first 31 ticks the editor cannot be entered: starting outside
   * it with fresh bindings, no held key fires on ticks 0 to 30, because the
   * toggle's stamp starts at 0 and its cooldown is 30.
   */
  lemma {:induction false} NoEarlyToggle(s: DispatchState<Command>, keys: seq<Key>, tick: int)
    requires s.inputs == Bindings() && !s.isInMapEditorMode && tick <= ActionCooldown
    ensures Dispatch(s, keys, tick, IsToggle) == s
  {
    if keys != [] {
      NoEarlyToggle(s, keys[..|keys| - 1], tick);
      var key := keys[|keys| - 1];
      if key in Bindings() {
        BindingsRoles();
        assert !Fires(s, key, tick);
      }
    }
  }

  /**
   * What the host answers during one tick: the ray cast from the camera,
   * object creation (None for a null entity), the player's pose, and cosine
   * and sine for the camera.
   */
  datatype Host = Host(
    raycast: RaycastHit,
    createObject: (ModelRef, Vector3) -> Option<EntityHandle>,
    playerPosition: Vector3,
    playerRotation: Vector3,
    trig: Trig)

  /**
   * Where the test spawn places an object and how it turns it: at the ray's
   * hit, turned to the surface normal, or at the camera, turned to the
   * camera's yaw, when the ray hits nothing.
   */
  function TestObjectPose(raycast: RaycastHit, cameraPosition: Vector3, cameraRotation: Vector3): (pose: (Vector3, Vector3))
    ensures raycast.didHit ==> pose == (raycast.hitPosition, raycast.surfaceNormal)
    ensures !raycast.didHit ==> pose == (cameraPosition, Vector3(0.0, 0.0, cameraRotation.z))
  {
    if raycast.didHit then (raycast.hitPosition, raycast.surfaceNormal)
    else (cameraPosition, Vector3(0.0, 0.0, cameraRotation.z))
  }

  /**
   * The editor and its camera as one value: what the handlers and the
   * camera tick read and change. `hostCalls` is the editor's own log and
   * `cameraCalls` the camera's.
   */
  datatype EditorState = EditorState(
    spawnedObjects: seq<MapObject>,
    isInMapEditorMode: bool,
    transformationMode: TransformationMode,
    translationAxis: TransformationAxis,
    rotationAxis: TransformationAxis,
    camera: Option<HostCamera>,
    cameraTranslation: Vector3,
    cameraRotation: Vector3,
    cameraSpeedModifier: real,
    hostCalls: seq<HostCall>,
    cameraCalls: seq<HostCall>)

  /** Every object has an entity; in the editor the camera exists, and it is active exactly then. */
  ghost predicate StateValid(st: EditorState) {
    AllBacked(st.spawnedObjects) &&
    (st.isInMapEditorMode ==> st.camera.Some?) &&
    (st.camera.Some? ==> st.camera.value.isActive == st.isInMapEditorMode)
  }

  /**
   * ToggleMapEditor: entering creates the active camera at the player's
   * pose and takes control from the player; leaving deletes the camera and
   * gives control back.
   */
  function Toggled(st: EditorState, host: Host): (r: EditorState)
    requires StateValid(st)
    ensures StateValid(r) && r.isInMapEditorMode == !st.isInMapEditorMode
    ensures r.isInMapEditorMode ==> r.camera.value.position == host.playerPosition && r.camera.value.rotation == host.playerRotation
    ensures r.spawnedObjects == st.spawnedObjects
  {
    if !st.isInMapEditorMode then
      st.(isInMapEditorMode := true,
          camera := Some(HostCamera(host.playerPosition, host.playerRotation, EditorCameraFieldOfView, true, false)),
          cameraCalls := st.cameraCalls + [EnterScriptedCamera],
          hostCalls := st.hostCalls + [SetCanControlCharacter(false), UserFriendlyPrint("Entered Map Editor")])
    else
      st.(isInMapEditorMode := false,
          camera := Some(st.camera.value.(isActive := false, isDeleted := true)),
          cameraCalls := st.cameraCalls + [ExitScriptedCamera],
          hostCalls := st.hostCalls + [SetCanControlCharacter(true), UserFriendlyPrint("Exited Map Editor")])
  }

  /**
   * SpawnTestObject: the test model is created where the camera ray hits
   * (or at the camera) and joins the end of the list when the host creates
   * its entity.
   */
  function TestSpawned(st: EditorState, host: Host): (r: EditorState)
    requires StateValid(st)
    ensures StateValid(r)
    ensures |st.spawnedObjects| <= |r.spawnedObjects| <= |st.spawnedObjects| + 1
    ensures r.spawnedObjects[..|st.spawnedObjects|] == st.spawnedObjects
    ensures |r.spawnedObjects| > |st.spawnedObjects| ==> r.spawnedObjects[|st.spawnedObjects|].modelName == TestObjectModelName
  {
    var pose := TestObjectPose(host.raycast, PositionOf(st.camera), RotationOf(st.camera));
    SpawnAppendsIffCreated(st.spawnedObjects, TestObjectModelName, pose.0, pose.1, host.createObject);
    st.(spawnedObjects := SpawnedObjects(st.spawnedObjects, TestObjectModelName, pose.0, pose.1, host.createObject),
        hostCalls := st.hostCalls + SpawnCalls(TestObjectModelName, pose.0, pose.1, host.createObject))
  }

  /** ApplyTransformation(amount): the last object moves or turns along the current mode's axis, and the host is told. */
  function Transformed(st: EditorState, amount: real): (r: EditorState)
    requires StateValid(st)
    ensures StateValid(r) && |r.spawnedObjects| == |st.spawnedObjects|
    ensures forall i :: 0 <= i < |st.spawnedObjects| - 1 ==> r.spawnedObjects[i] == st.spawnedObjects[i]
  {
    var objects := ApplyToLast(st.spawnedObjects, st.transformationMode, st.translationAxis, st.rotationAxis,
                               amount, TranslationSpeed, RotationSpeed);
    ApplyToLastOnlyLast(st.spawnedObjects, st.transformationMode, st.translationAxis, st.rotationAxis,
                        amount, TranslationSpeed, RotationSpeed);
    if st.spawnedObjects == [] then st
    else
      var moved := objects[|objects| - 1];
      st.(spawnedObjects := objects,
          hostCalls := st.hostCalls + [if st.transformationMode == Translation
                                       then SetEntityPosition(moved.entity, moved.position)
                                       else SetEntityRotation(moved.entity, moved.rotation)])
  }

  /** ChangeTransformationMode: the other mode, printed. */
  function ModeChanged(st: EditorState): EditorState {
    var mode := NextMode(st.transformationMode);
    st.(transformationMode := mode, hostCalls := st.hostCalls + [UserFriendlyPrint("Transformation Mode: " + ModeName(mode))])
  }

  /** ChangeTransformationAxis: the current mode's next axis, printed. */
  function AxisChanged(st: EditorState): EditorState {
    if st.transformationMode == Translation then
      var axis := NextAxis(st.translationAxis);
      st.(translationAxis := axis, hostCalls := st.hostCalls + [UserFriendlyPrint("Translation Axis: " + AxisName(axis))])
    else
      var axis := NextAxis(st.rotationAxis);
      st.(rotationAxis := axis, hostCalls := st.hostCalls + [UserFriendlyPrint("Rotation Axis: " + AxisName(axis))])
  }

  /**
   * What running one handler does to the editor. Only the toggle changes the
   * edit mode, as the key dispatch assumes of `IsToggle`; only the spawn adds
   * an object, one at most, and only the spawn and the transformation touch
   * the list; only the camera keys touch the camera input.
   */
  function Effect(st: EditorState, command: Command, host: Host): (r: EditorState)
    requires StateValid(st)
    ensures StateValid(r)
    ensures r.isInMapEditorMode == (st.isInMapEditorMode != IsToggle(command))
    ensures |st.spawnedObjects| <= |r.spawnedObjects| <= |st.spawnedObjects| + (if command == SpawnTestObject then 1 else 0)
    ensures !command.SpawnTestObject? && !command.ApplyTransformation? ==> r.spawnedObjects == st.spawnedObjects
    ensures !command.TranslateCamera? && !command.SetCameraSpeedModifier? ==>
      r.cameraTranslation == st.cameraTranslation && r.cameraSpeedModifier == st.cameraSpeedModifier
  {
    match command
    case ToggleMapEditor => Toggled(st, host)
    case SpawnTestObject => TestSpawned(st, host)
    case ChangeTransformationMode => ModeChanged(st)
    case ChangeTransformationAxis => AxisChanged(st)
    case ApplyTransformation(amount) => Transformed(st, amount)
    case TranslateCamera(relativeTranslation) => st.(cameraTranslation := Add(st.cameraTranslation, relativeTranslation))
    case SetCameraSpeedModifier(speedModifier) => st.(cameraSpeedModifier := speedModifier)
  }

  /** The handlers of `commands` run one after the other. */
  function Effects(st: EditorState, commands: seq<Command>, host: Host): (r: EditorState)
    requires StateValid(st)
    ensures StateValid(r)
  {
    if commands == [] then st
    else Effect(Effects(st, commands[..|commands| - 1], host), commands[|commands| - 1], host)
  }

  /** How many of `commands` are the spawn. */
  function Spawns(commands: seq<Command>): nat {
    if commands == [] then 0
    else Spawns(commands[..|commands| - 1]) + (if commands[|commands| - 1] == SpawnTestObject then 1 else 0)
  }

  /**
   * The list never shrinks, and it grows by at most one object per spawn
   * handler run: no handler of this editor removes an object.
   */
  lemma {:induction false} EffectsGrowBySpawns(st: EditorState, commands: seq<Command>, host: Host)
    requires StateValid(st)
    ensures var r := Effects(st, commands, host);
      |st.spawnedObjects| <= |r.spawnedObjects| <= |st.spawnedObjects| + Spawns(commands)
  {
    if commands != [] {
      EffectsGrowBySpawns(st, commands[..|commands| - 1], host);
    }
  }

  /** Running `a` and then `b` is running `a + b`. */
  lemma {:induction false} EffectsAppend(st: EditorState, a: seq<Command>, b: seq<Command>, host: Host)
    requires StateValid(st)
    ensures Effects(st, a + b, host) == Effects(Effects(st, a, host), b, host)
  {
    if b == [] {
      assert a + b == a;
    } else {
      var b', last := b[..|b| - 1], b[|b| - 1];
      assert a + b == (a + b') + [last];
      assert (a + b)[..|a + b| - 1] == a + b';
      EffectsAppend(st, a, b', host);
    }
  }

  /**
   * The camera's tick: the camera moves by this tick's translation input,
   * turned by its yaw and scaled by the speed modifier, and turns by the
   * rotation input without limit; then the inputs are cleared. A tick with
   * no input leaves the camera where it is.
   */
  function CameraTicked(st: EditorState, trig: Trig): (r: EditorState)
    requires StateValid(st)
    ensures StateValid(r)
    ensures r.cameraTranslation == Zero && r.cameraRotation == Zero && r.cameraSpeedModifier == 1.0
    ensures r.spawnedObjects == st.spawnedObjects && r.isInMapEditorMode == st.isInMapEditorMode
    ensures st.cameraTranslation == Zero && st.cameraRotation == Zero ==> r.camera == st.camera
  {
    st.(camera := if st.camera.None? then None
                  else Some(st.camera.value.(
                    position := Translated(st.camera.value.position, st.camera.value.rotation,
                                           st.cameraTranslation, st.cameraSpeedModifier, trig),
                    rotation := UnclampedCamera.Rotated(st.camera.value.rotation, st.cameraRotation))),
        cameraTranslation := Zero, cameraRotation := Zero, cameraSpeedModifier := 1.0)
  }

  /**
   * The state of the dispatch loop after the first `i` keys of `order`: the
   * dispatch so far, and the editor as the handlers fired so far leave it.
   */
  ghost predicate Progress(start: DispatchState<Command>, order: seq<Key>, i: nat, tick: int,
                           d: DispatchState<Command>, initial: EditorState, st: EditorState, host: Host)
  {
    i <= |order| && d == Dispatch(start, order[..i], tick, IsToggle) &&
    |start.fired| <= |d.fired| && StateValid(initial) &&
    st == Effects(initial, d.fired[|start.fired|..], host)
  }

  lemma ProgressStart(start: DispatchState<Command>, order: seq<Key>, tick: int, initial: EditorState, host: Host)
    requires StateValid(initial)
    ensures Progress(start, order, 0, tick, start, initial, initial, host)
  {
    assert order[..0] == [] && start.fired[|start.fired|..] == [];
  }

  /** One key of the loop: the dispatch takes a `Step`, and the editor follows the handler it fired, if any. */
  lemma ProgressStep(start: DispatchState<Command>, order: seq<Key>, i: nat, tick: int,
                     d: DispatchState<Command>, initial: EditorState, st: EditorState, st': EditorState, host: Host)
    requires Progress(start, order, i, tick, d, initial, st, host) && i < |order|
    requires st' == if Fires(d, order[i], tick) then Effect(st, d.inputs[order[i]].handler, host) else st
    ensures Progress(start, order, i + 1, tick, Step(d, order[i], tick, IsToggle), initial, st', host)
  {
    assert order[..i + 1][..i] == order[..i] && order[..i + 1][i] == order[i];
    var next := Step(d, order[i], tick, IsToggle);
    if Fires(d, order[i], tick) {
      var run := next.fired[|start.fired|..];
      assert run == d.fired[|start.fired|..] + [d.inputs[order[i]].handler];
      assert run[..|run| - 1] == d.fired[|start.fired|..];
    }
  }

  class MapEditor {
    var spawnedObjects: seq<MapObject>
    var keyboardInputs: map<Key, Input<Command>>
    var keysToProcess: set<Key>
    var handledNonRepeatableKeys: set<Key>
    var isInMapEditorMode: bool
    var tick: int
    var transformationMode: TransformationMode
    var translationAxis: TransformationAxis
    var rotationAxis: TransformationAxis
    const mapEditorCamera: UnclampedCamera.MapEditorCamera
    /** Prints, entity updates and control switches, in order. */
    ghost var hostCalls: seq<HostCall>
    /** The handlers the key dispatch ran, in order. */
    ghost var handlersRun: seq<Command>

    /**
     * Every spawned object has an entity; a key is handled only while held;
     * in the editor the camera exists, and it is active exactly then.
     */
    ghost predicate Valid()
      reads this`spawnedObjects, this`keysToProcess, this`handledNonRepeatableKeys, this`isInMapEditorMode, mapEditorCamera`camera
    {
      AllBacked(spawnedObjects) &&
      handledNonRepeatableKeys <= keysToProcess &&
      (isInMapEditorMode ==> mapEditorCamera.camera.Some?) &&
      (mapEditorCamera.camera.Some? ==> mapEditorCamera.camera.value.isActive == isInMapEditorMode)
    }

    /** The editor as the value the handler specification works on. */
    ghost function State(): EditorState
      reads this`spawnedObjects, this`isInMapEditorMode, this`transformationMode, this`translationAxis, this`rotationAxis,
            this`hostCalls, mapEditorCamera`camera, mapEditorCamera`deltaRelativeTranslationThisTick,
            mapEditorCamera`deltaRelativeRotationThisTick, mapEditorCamera`speedModifierThisTick, mapEditorCamera`hostCalls
    {
      EditorState(spawnedObjects, isInMapEditorMode, transformationMode, translationAxis, rotationAxis,
                  mapEditorCamera.camera, mapEditorCamera.deltaRelativeTranslationThisTick,
                  mapEditorCamera.deltaRelativeRotationThisTick, mapEditorCamera.speedModifierThisTick,
                  hostCalls, mapEditorCamera.hostCalls)
    }

    /** The dispatch state HandleKeys starts from. */
    ghost function Dispatched(): DispatchState<Command>
      reads this`keyboardInputs, this`handledNonRepeatableKeys, this`isInMapEditorMode, this`handlersRun
    {
      DispatchState(keyboardInputs, handledNonRepeatableKeys, isInMapEditorMode, handlersRun)
    }

    constructor ()
      ensures Valid() && fresh(mapEditorCamera)
      ensures spawnedObjects == [] && keyboardInputs == Bindings() && keysToProcess == {} && handledNonRepeatableKeys == {}
      ensures !isInMapEditorMode && tick == 0
      ensures transformationMode == Translation && translationAxis == X && rotationAxis == X
      ensures mapEditorCamera.camera == None
      ensures hostCalls == [] && handlersRun == []
    {
      spawnedObjects := [];
      keyboardInputs := Bindings();
      keysToProcess := {};
      handledNonRepeatableKeys := {};
      isInMapEditorMode := false;
      tick := 0;
      transformationMode := Translation;
      translationAxis := X;
      rotationAxis := X;
      mapEditorCamera := new UnclampedCamera.MapEditorCamera();
      hostCalls := [];
      handlersRun := [];
    }

    /**
     * Runs the key dispatch, moves the camera and advances the tick by one.
     * The editor ends as the handlers the dispatch fired, run in order, and
     * then the camera tick leave it.
     */
    method OnTick(host: Host, order: seq<Key>)
      requires Valid()
      requires forall i, j :: 0 <= i < j < |order| ==> order[i] != order[j]
      requires forall k :: k in order <==> k in keysToProcess
      modifies this, mapEditorCamera
      ensures Valid()
      ensures var r := Dispatch(DispatchState(old(keyboardInputs), old(handledNonRepeatableKeys), old(isInMapEditorMode), old(handlersRun)),
                                order, old(tick), IsToggle);
        keyboardInputs == r.inputs && handledNonRepeatableKeys == r.handled &&
        isInMapEditorMode == r.isInMapEditorMode && handlersRun == r.fired
      ensures State() == CameraTicked(Effects(old(State()), handlersRun[|old(handlersRun)|..], host), host.trig)
      ensures keysToProcess == old(keysToProcess)
      ensures tick == old(tick) + 1
    {
      HandleKeys(host, order);
      mapEditorCamera.OnTick(host.trig);
      tick := tick + 1;
    }

    /** A key goes down: it joins the held set. */
    method OnKeyDown(key: Key)
      requires Valid()
      modifies this`keysToProcess
      ensures Valid()
      ensures keysToProcess == old(keysToProcess) + {key}
    {
      keysToProcess := keysToProcess + {key};
    }

    /** A key goes up: it leaves the held set and the handled set, so a non-repeatable key can fire again. */
    method OnKeyUp(key: Key)
      requires Valid()
      modifies this`keysToProcess, this`handledNonRepeatableKeys
      ensures Valid()
      ensures keysToProcess == old(keysToProcess) - {key}
      ensures handledNonRepeatableKeys == old(handledNonRepeatableKeys) - {key}
    {
      keysToProcess := keysToProcess - {key};
      handledNonRepeatableKeys := handledNonRepeatableKeys - {key};
    }

    /**
     * Visits the held keys in `order` (the held set's enumeration order); the
     * whole pass is the fold `Dispatch`, with the same gate and bookkeeping
     * as the newest editor.
     */
    method HandleKeys(host: Host, order: seq<Key>)
      requires Valid()
      requires forall i, j :: 0 <= i < j < |order| ==> order[i] != order[j]
      requires forall k :: k in order <==> k in keysToProcess
      modifies this, mapEditorCamera
      ensures Valid()
      ensures keysToProcess == old(keysToProcess) && tick == old(tick)
      ensures var r := Dispatch(DispatchState(old(keyboardInputs), old(handledNonRepeatableKeys), old(isInMapEditorMode), old(handlersRun)),
                                order, tick, IsToggle);
        keyboardInputs == r.inputs && handledNonRepeatableKeys == r.handled &&
        isInMapEditorMode == r.isInMapEditorMode && handlersRun == r.fired
      ensures State() == Effects(old(State()), handlersRun[|old(handlersRun)|..], host)
    {
      ghost var start, initial := Dispatched(), State();
      var i := 0;
      ProgressStart(start, order, tick, initial, host);
      while i < |order|
        invariant 0 <= i <= |order|
        invariant Valid()
        invariant keysToProcess == old(keysToProcess) && tick == old(tick)
        invariant Progress(start, order, i, tick, Dispatched(), initial, State(), host)
      {
        var keyToProcess := order[i];
        ghost var d, before := Dispatched(), State();
        HandleKey(keyToProcess, host);
        ProgressStep(start, order, i, tick, d, initial, before, State(), host);
        i := i + 1;
      }
      assert order[..|order|] == order;
    }

    /**
     * One pass of the HandleKeys loop, for the held key `keyToProcess`: the
     * step `Step` of the dispatch, and the effect of the handler when it fires.
     */
    method HandleKey(keyToProcess: Key, host: Host)
      requires Valid() && keyToProcess in keysToProcess
      modifies this, mapEditorCamera
      ensures Valid()
      ensures keysToProcess == old(keysToProcess) && tick == old(tick)
      ensures DispatchState(keyboardInputs, handledNonRepeatableKeys, isInMapEditorMode, handlersRun) ==
              Step(DispatchState(old(keyboardInputs), old(handledNonRepeatableKeys), old(isInMapEditorMode), old(handlersRun)),
                   keyToProcess, tick, IsToggle)
      ensures State() == if Fires(old(Dispatched()), keyToProcess, tick)
                         then Effect(old(State()), old(keyboardInputs)[keyToProcess].handler, host)
                         else old(State())
    {
      ghost var before := DispatchState(keyboardInputs, handledNonRepeatableKeys, isInMapEditorMode, handlersRun);
      if keyToProcess !in keyboardInputs {
        return;
      }
      var input := keyboardInputs[keyToProcess];
      var shouldHandleInput :=
        (input.canBeUsedOutsideOfMapEditor || (isInMapEditorMode && !input.canBeUsedOutsideOfMapEditor)) &&
        tick - input.lastUsageTick > input.cooldownDurationInTicks &&
        (input.isRepeatable || keyToProcess !in handledNonRepeatableKeys);
      if shouldHandleInput {
        assert Fires(before, keyToProcess, tick);
        Fire(keyToProcess, host);
      }
    }

    /** A firing key: its bookkeeping, then its handler. */
    method Fire(keyToProcess: Key, host: Host)
      requires Valid() && keyToProcess in keysToProcess
      requires Fires(Dispatched(), keyToProcess, tick)
      modifies this, mapEditorCamera
      ensures Valid()
      ensures keysToProcess == old(keysToProcess) && tick == old(tick)
      ensures DispatchState(keyboardInputs, handledNonRepeatableKeys, isInMapEditorMode, handlersRun) ==
              Step(DispatchState(old(keyboardInputs), old(handledNonRepeatableKeys), old(isInMapEditorMode), old(handlersRun)),
                   keyToProcess, tick, IsToggle)
      ensures State() == Effect(old(State()), old(keyboardInputs)[keyToProcess].handler, host)
    {
      var handler := keyboardInputs[keyToProcess].handler;
      MarkFired(keyToProcess);
      Perform(handler, host);
    }

    /** The bookkeeping of a firing key: marked handled unless repeatable, stamped with the tick, its handler recorded. */
    method MarkFired(keyToProcess: Key)
      requires Valid() && keyToProcess in keyboardInputs && keyToProcess in keysToProcess
      modifies this`keyboardInputs, this`handledNonRepeatableKeys, this`handlersRun
      ensures Valid()
      ensures var input := old(keyboardInputs)[keyToProcess];
        keyboardInputs == old(keyboardInputs)[keyToProcess := input.(lastUsageTick := tick)] &&
        handledNonRepeatableKeys == (if input.isRepeatable then old(handledNonRepeatableKeys) else old(handledNonRepeatableKeys) + {keyToProcess}) &&
        handlersRun == old(handlersRun) + [input.handler]
    {
      var input := keyboardInputs[keyToProcess];
      if !input.isRepeatable {
        handledNonRepeatableKeys := handledNonRepeatableKeys + {keyToProcess};
      }
      keyboardInputs := keyboardInputs[keyToProcess := input.(lastUsageTick := tick)];
      handlersRun := handlersRun + [input.handler];
    }

    /**
     * Runs one handler: the editor ends as `Effect` says. The frame states
     * that no handler touches the bindings, the held or handled keys, the
     * tick or the record of handlers run.
     */
    method Perform(command: Command, host: Host)
      requires Valid()
      modifies this`spawnedObjects, this`hostCalls, this`isInMapEditorMode,
               this`transformationMode, this`translationAxis, this`rotationAxis,
               mapEditorCamera`camera, mapEditorCamera`hostCalls,
               mapEditorCamera`deltaRelativeTranslationThisTick, mapEditorCamera`speedModifierThisTick
      ensures Valid()
      ensures State() == Effect(old(State()), command, host)
    {
      match command
      case ToggleMapEditor => ToggleMapEditor(host);
      case SpawnTestObject => SpawnTestObject(host);
      case ChangeTransformationMode => ChangeTransformationMode();
      case ChangeTransformationAxis => ChangeTransformationAxis();
      case ApplyTransformation(amount) => ApplyTransformation(amount);
      case TranslateCamera(amount) => mapEditorCamera.Translate(amount);
      case SetCameraSpeedModifier(speedModifier) => mapEditorCamera.SetSpeedModifierThisTick(speedModifier);
    }

    /**
     * Moves or turns the last spawned object by `amount` along the axis of
     * the current mode, and tells the host; nothing happens with no object.
     */
    method ApplyTransformation(amount: real)
      requires Valid()
      modifies this`spawnedObjects, this`hostCalls
      ensures Valid() && State() == Transformed(old(State()), amount)
      ensures spawnedObjects == ApplyToLast(old(spawnedObjects), transformationMode, translationAxis, rotationAxis, amount, TranslationSpeed, RotationSpeed)
      ensures old(spawnedObjects) == [] ==> hostCalls == old(hostCalls)
      ensures old(spawnedObjects) != [] ==>
        var moved := spawnedObjects[|spawnedObjects| - 1];
        hostCalls == old(hostCalls) + [if transformationMode == Translation
                                       then SetEntityPosition(moved.entity, moved.position)
                                       else SetEntityRotation(moved.entity, moved.rotation)]
    {
      match transformationMode
      case Translation => TranslateLastSpawnedObject(Scale(AxisVector(translationAxis, amount), TranslationSpeed));
      case Rotation => RotateLastSpawnedObject(Scale(AxisVector(rotationAxis, amount), RotationSpeed));
    }

    method TranslateLastSpawnedObject(deltaTranslation: Vector3)
      requires Valid()
      modifies this`spawnedObjects, this`hostCalls
      ensures Valid()
      ensures old(spawnedObjects) == [] ==> spawnedObjects == old(spawnedObjects) && hostCalls == old(hostCalls)
      ensures old(spawnedObjects) != [] ==>
        var last := |old(spawnedObjects)| - 1;
        var moved := old(spawnedObjects)[last].(position := Add(old(spawnedObjects)[last].position, deltaTranslation));
        spawnedObjects == old(spawnedObjects)[last := moved] &&
        hostCalls == old(hostCalls) + [SetEntityPosition(moved.entity, moved.position)]
    {
      if spawnedObjects == [] {
        return;
      }
      var lastSpawnedObject := spawnedObjects[|spawnedObjects| - 1];
      var newPosition := Add(lastSpawnedObject.position, deltaTranslation);
      hostCalls := hostCalls + [SetEntityPosition(lastSpawnedObject.entity, newPosition)];
      spawnedObjects := spawnedObjects[|spawnedObjects| - 1 := lastSpawnedObject.(position := newPosition)];
    }

    method RotateLastSpawnedObject(deltaRotation: Vector3)
      requires Valid()
      modifies this`spawnedObjects, this`hostCalls
      ensures Valid()
      ensures old(spawnedObjects) == [] ==> spawnedObjects == old(spawnedObjects) && hostCalls == old(hostCalls)
      ensures old(spawnedObjects) != [] ==>
        var last := |old(spawnedObjects)| - 1;
        var turned := old(spawnedObjects)[last].(rotation := Add(old(spawnedObjects)[last].rotation, deltaRotation));
        spawnedObjects == old(spawnedObjects)[last := turned] &&
        hostCalls == old(hostCalls) + [SetEntityRotation(turned.entity, turned.rotation)]
    {
      if spawnedObjects == [] {
        return;
      }
      var lastSpawnedObject := spawnedObjects[|spawnedObjects| - 1];
      var newRotation := Add(lastSpawnedObject.rotation, deltaRotation);
      hostCalls := hostCalls + [SetEntityRotation(lastSpawnedObject.entity, newRotation)];
      spawnedObjects := spawnedObjects[|spawnedObjects| - 1 := lastSpawnedObject.(rotation := newRotation)];
    }

    /** Switches to the other mode and prints it. */
    method ChangeTransformationMode()
      modifies this`transformationMode, this`hostCalls
      ensures State() == ModeChanged(old(State()))
      ensures transformationMode == NextMode(old(transformationMode))
      ensures hostCalls == old(hostCalls) + [UserFriendlyPrint("Transformation Mode: " + ModeName(transformationMode))]
    {
      transformationMode := NextMode(transformationMode);
      hostCalls := hostCalls + [UserFriendlyPrint("Transformation Mode: " + ModeName(transformationMode))];
    }

    /** Advances the current mode's axis, leaves the other mode's axis alone, and prints the new axis. */
    method ChangeTransformationAxis()
      modifies this`translationAxis, this`rotationAxis, this`hostCalls
      ensures State() == AxisChanged(old(State()))
      ensures transformationMode == Translation ==>
        translationAxis == NextAxis(old(translationAxis)) && rotationAxis == old(rotationAxis) &&
        hostCalls == old(hostCalls) + [UserFriendlyPrint("Translation Axis: " + AxisName(translationAxis))]
      ensures transformationMode == Rotation ==>
        rotationAxis == NextAxis(old(rotationAxis)) && translationAxis == old(translationAxis) &&
        hostCalls == old(hostCalls) + [UserFriendlyPrint("Rotation Axis: " + AxisName(rotationAxis))]
    {
      match transformationMode
      case Translation =>
        translationAxis := NextAxis(translationAxis);
        hostCalls := hostCalls + [UserFriendlyPrint("Translation Axis: " + AxisName(translationAxis))];
      case Rotation =>
        rotationAxis := NextAxis(rotationAxis);
        hostCalls := hostCalls + [UserFriendlyPrint("Rotation Axis: " + AxisName(rotationAxis))];
    }

    /**
     * Flips the edit mode. Entering creates the camera at the player's pose
     * and takes control from the player; leaving deletes the camera and gives
     * control back.
     */
    method ToggleMapEditor(host: Host)
      requires Valid()
      modifies this`isInMapEditorMode, this`hostCalls, mapEditorCamera`camera, mapEditorCamera`hostCalls
      ensures Valid() && State() == Toggled(old(State()), host)
      ensures isInMapEditorMode == !old(isInMapEditorMode)
      ensures isInMapEditorMode ==>
        mapEditorCamera.camera == Some(HostCamera(host.playerPosition, host.playerRotation, EditorCameraFieldOfView, true, false)) &&
        mapEditorCamera.hostCalls == old(mapEditorCamera.hostCalls) + [EnterScriptedCamera] &&
        hostCalls == old(hostCalls) + [SetCanControlCharacter(false), UserFriendlyPrint("Entered Map Editor")]
      ensures !isInMapEditorMode ==>
        mapEditorCamera.camera == Some(old(mapEditorCamera.camera).value.(isActive := false, isDeleted := true)) &&
        mapEditorCamera.hostCalls == old(mapEditorCamera.hostCalls) + [ExitScriptedCamera] &&
        hostCalls == old(hostCalls) + [SetCanControlCharacter(true), UserFriendlyPrint("Exited Map Editor")]
    {
      isInMapEditorMode := !isInMapEditorMode;
      if isInMapEditorMode {
        mapEditorCamera.Enter(host.playerPosition, host.playerRotation);
        hostCalls := hostCalls + [SetCanControlCharacter(false), UserFriendlyPrint("Entered Map Editor")];
      } else {
        mapEditorCamera.Exit();
        hostCalls := hostCalls + [SetCanControlCharacter(true), UserFriendlyPrint("Exited Map Editor")];
      }
    }

    /**
     * Asks the host for `hashValue` at `position`, sets the rotation (even on
     * a null entity), and appends the object when the entity exists.
     */
    method SpawnObject(hashValue: string, position: Vector3, rotation: Vector3,
                       createObject: (ModelRef, Vector3) -> Option<EntityHandle>) returns (spawned: Option<MapObject>)
      requires Valid()
      modifies this`spawnedObjects, this`hostCalls
      ensures Valid()
      ensures spawnedObjects == SpawnedObjects(old(spawnedObjects), hashValue, position, rotation, createObject)
      ensures hostCalls == old(hostCalls) + SpawnCalls(hashValue, position, rotation, createObject)
      ensures spawned.Some? <==> |spawnedObjects| > |old(spawnedObjects)|
      ensures spawned.Some? ==> spawned.value == spawnedObjects[|old(spawnedObjects)|]
    {
      var entity := createObject(ByName(hashValue), position);
      hostCalls := hostCalls + [SetEntityRotation(entity, rotation)];
      var spawnedObject := MapObject(hashValue, position, rotation, entity);
      if entity.None? {
        hostCalls := hostCalls + [UserFriendlyPrint("Failed to create " + hashValue)];
        return None;
      }
      spawnedObjects := spawnedObjects + [spawnedObject];
      hostCalls := hostCalls + [UserFriendlyPrint("Created " + hashValue)];
      return Some(spawnedObject);
    }

    /** Spawns the test model where the camera ray hits, or at the camera. */
    method SpawnTestObject(host: Host)
      requires Valid()
      modifies this`spawnedObjects, this`hostCalls
      ensures Valid() && State() == TestSpawned(old(State()), host)
      ensures var pose := TestObjectPose(host.raycast, mapEditorCamera.Position(), mapEditorCamera.Rotation());
        spawnedObjects == SpawnedObjects(old(spawnedObjects), TestObjectModelName, pose.0, pose.1, host.createObject) &&
        hostCalls == old(hostCalls) + SpawnCalls(TestObjectModelName, pose.0, pose.1, host.createObject)
    {
      var raycastHitInfo := host.raycast;
      var spawnPosition := if raycastHitInfo.didHit then raycastHitInfo.hitPosition else mapEditorCamera.Position();
      var spawnRotation := if raycastHitInfo.didHit then raycastHitInfo.surfaceNormal else Vector3(0.0, 0.0, mapEditorCamera.Rotation().z);
      var _ := SpawnObject(TestObjectModelName, spawnPosition, spawnRotation, host.createObject);
    }
  }
}
