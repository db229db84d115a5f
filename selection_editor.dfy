/**
 * The newest map editor (Mapping/MapEditor/MapEditing/MapEditor.cs): key
 * bindings dispatched once per tick from the set of held keys, a registry of
 * spawned objects with a selected object, a transformation mode with one axis
 * per mode, a two-item menu, map loading and saving, and the clamped free
 * camera.
 *
 * The key handlers (C# closures) are values of `Command`; `Perform` runs one.
 * The selected object is held as its index in the registry (the source holds
 * a reference and looks it up with IndexOf, which finds the same position
 * because every spawn creates a distinct object). The game host appears as a
 * `Host` value that answers the queries of one tick, and the effects on it
 * are recorded in the ghost log `hostCalls`.
 */
module SelectionEditor {
  import opened Wrappers
  import opened Geometry
  import opened MathUtility
  import opened ScreenUtility
  import opened MapObjects
  import opened SerializableMapObjects
  import opened HostCalls
  import opened Transformation
  import opened Inputs
  import opened ModelNames
  import opened MenuFramework
  import opened CameraMotion
  import ClampedCamera

  const TranslationSpeed: real := 0.025
  const RotationSpeed: real := 1.0
  const MapFilePath: string := "scripts/MapEditor/maps/test.map"

  /** The handlers the bindings and the menu items run. */
  datatype Command =
    | ToggleMapEditor
    | SpawnSelectedObjectModelName
    | DeleteSelectedObject
    | LoadMap
    | SaveMap
    | ChangeSelectedObject(deltaIndex: int)
    | ChangeTransformationMode
    | ChangeTransformationAxis
    | NavigateMenu(direction: int)
    | SelectFocusedMenuItem
    | ApplyTransformation(amount: real)
    | TranslateCamera(relativeTranslation: Vector3)
    | SetCameraSpeedModifier(speedModifier: real)

  /** Only the toggle handler changes the edit mode, and so the gate of later keys in the same tick. */
  predicate IsToggle(command: Command) {
    command == ToggleMapEditor
  }

  /**
   * The binding the constructor creates for `key`, if any. Every cooldown is
   * 0; only the toggle works outside the editor; transformations and camera
   * movement repeat while held.
   */
  function Binding(key: Key): Option<Input<Command>> {
    match key
    case F1 => Some(NewInput("Toggle Map Editor", F1, false, 0, true, ToggleMapEditor))
    case F2 => Some(NewInput("Spawn Object", F2, false, 0, false, SpawnSelectedObjectModelName))
    case Delete => Some(NewInput("Delete Object", Delete, false, 0, false, DeleteSelectedObject))
    case F3 => Some(NewInput("Load Map", F3, false, 0, false, LoadMap))
    case F4 => Some(NewInput("Save Map", F4, false, 0, false, SaveMap))
    case OpenBracket => Some(NewInput("Select Previous Object", OpenBracket, false, 0, false, ChangeSelectedObject(-1)))
    case CloseBracket => Some(NewInput("Select Next Object", CloseBracket, false, 0, false, ChangeSelectedObject(1)))
    case Comma => Some(NewInput("Change Transformation Mode", Comma, false, 0, false, ChangeTransformationMode))
    case Period => Some(NewInput("Change Transformation Axis", Period, false, 0, false, ChangeTransformationAxis))
    case Up => Some(NewInput("Menu Up", Up, false, 0, false, NavigateMenu(-1)))
    case Down => Some(NewInput("Menu Down", Down, false, 0, false, NavigateMenu(1)))
    case Enter => Some(NewInput("Menu Select", Enter, false, 0, false, SelectFocusedMenuItem))
    case Left => Some(NewInput("Negative Transformation", Left, true, 0, false, ApplyTransformation(-1.0)))
    case Right => Some(NewInput("Positive Transformation", Right, true, 0, false, ApplyTransformation(1.0)))
    case W => Some(NewInput("Move Camera Forward", W, true, 0, false, TranslateCamera(RelativeFront)))
    case S => Some(NewInput("Move Camera Backward", S, true, 0, false, TranslateCamera(RelativeBack)))
    case A => Some(NewInput("Move Camera Left", A, true, 0, false, TranslateCamera(RelativeLeft)))
    case D => Some(NewInput("Move Camera Right", D, true, 0, false, TranslateCamera(RelativeRight)))
    case E => Some(NewInput("Move Camera Up", E, true, 0, false, TranslateCamera(RelativeTop)))
    case Q => Some(NewInput("Move Camera Down", Q, true, 0, false, TranslateCamera(RelativeBottom)))
    case Shift => Some(NewInput("Fast Camera Speed", Shift, true, 0, false, SetCameraSpeedModifier(10.0)))
    case Control => Some(NewInput("Slow Camera Speed", Control, true, 0, false, SetCameraSpeedModifier(0.1)))
    case OtherKey(_) => None
  }

  /** The binding table, `ToDictionary(input => input.Key)` over the bindings above. */
  function Bindings(): map<Key, Input<Command>> {
    map key | key in BoundKeys() :: Binding(key).value
  }

  function BoundKeys(): set<Key> {
    {F1, F2, Delete, F3, F4, OpenBracket, CloseBracket, Comma, Period, Up, Down, Enter,
     Left, Right, W, S, A, D, E, Q, Shift, Control}
  }

  /** The menu's two items: spawning from the clipboard and deleting the selection. */
  function MenuItems(): seq<MenuItemConfiguration<Command>> {
    [MenuItemConfiguration(14, SpawnSelectedObjectModelName), MenuItemConfiguration(14, DeleteSelectedObject)]
  }

  /** Bindings() holds exactly the bindings of the bound keys. */
  lemma BindingsTable()
    ensures forall k :: k in Bindings() <==> Binding(k).Some?
    ensures forall k :: k in Bindings() ==> Bindings()[k] == Binding(k).value
  {
    forall k
      ensures k in Bindings() <==> Binding(k).Some?
    {
      match k
      case OtherKey(_) =>
      case _ =>
    }
  }

  /**
   * Every binding sits under its own key and starts unused with no
   * cooldown; the toggle on F1 is the only binding usable outside the editor
   * and the only one that changes the edit mode; the transformation and
   * camera keys are exactly the repeatable ones.
   */
  lemma BindingsRoles()
    ensures KeyedByOwnKey(Bindings())
    ensures forall k :: k in Bindings() ==> Bindings()[k].lastUsageTick == 0 && Bindings()[k].cooldownDurationInTicks == 0
    ensures forall k :: k in Bindings() ==> (Bindings()[k].canBeUsedOutsideOfMapEditor <==> k == F1)
    ensures forall k :: k in Bindings() ==> (IsToggle(Bindings()[k].handler) <==> k == F1)
    ensures forall k :: k in Bindings() ==>
      (Bindings()[k].isRepeatable <==> k in {Left, Right, W, S, A, D, E, Q, Shift, Control})
  {
    BindingsTable();
    forall k | Binding(k).Some? {
      BindingRole(k);
    }
  }

  lemma BindingRole(k: Key)
    requires Binding(k).Some?
    ensures Binding(k).value.key == k && Binding(k).value.lastUsageTick == 0 && Binding(k).value.cooldownDurationInTicks == 0
    ensures Binding(k).value.canBeUsedOutsideOfMapEditor <==> k == F1
    ensures IsToggle(Binding(k).value.handler) <==> k == F1
    ensures Binding(k).value.isRepeatable <==> k in {Left, Right, W, S, A, D, E, Q, Shift, Control}
  {
  }

  /** Outside the editor, a held key other than F1 never fires. */
  lemma OnlyToggleOutsideEditor(s: DispatchState<Command>, key: Key, tick: int)
    requires StampedBindings(s.inputs, Bindings()) && !s.isInMapEditorMode
    requires Fires(s, key, tick)
    ensures key == F1
  {
    BindingsRoles();
    assert s.inputs[key].canBeUsedOutsideOfMapEditor == Bindings()[key].canBeUsedOutsideOfMapEditor;
  }

  /**
   * On tick 0 nothing fires: every stamp starts at 0 and `0 - 0 > 0` fails,
   * so the keys held during the first tick are ignored.
   */
  lemma {:induction false} FirstTickFiresNothing(s: DispatchState<Command>, keys: seq<Key>)
    requires s.inputs == Bindings()
    ensures Dispatch(s, keys, 0, IsToggle) == s
  {
    if keys != [] {
      FirstTickFiresNothing(s, keys[..|keys| - 1]);
      BindingsRoles();
      assert !Fires(s, keys[|keys| - 1], 0);
    }
  }

  /** `inputs` differs from `bindings` only in the last-usage stamps. */
  ghost predicate StampedBindings(inputs: map<Key, Input<Command>>, bindings: map<Key, Input<Command>>) {
    inputs.Keys == bindings.Keys &&
    forall k :: k in inputs ==> inputs[k] == bindings[k].(lastUsageTick := inputs[k].lastUsageTick)
  }

  /** One dispatch step changes at most the stamp of the key it fires. */
  lemma StepKeepsStamped(s: DispatchState<Command>, bindings: map<Key, Input<Command>>, key: Key, tick: int)
    requires StampedBindings(s.inputs, bindings)
    ensures StampedBindings(Step(s, key, tick, IsToggle).inputs, bindings)
  {
    if Fires(s, key, tick) {
      var inputs := Step(s, key, tick, IsToggle).inputs;
      forall k | k in inputs
        ensures inputs[k] == bindings[k].(lastUsageTick := inputs[k].lastUsageTick)
      {
        if k != key {
          assert inputs[k] == s.inputs[k];
        }
      }
    }
  }

  /**
   * The key dispatch never adds, removes or rewrites a binding: after any
   * number of passes the table is the built one up to the last-usage stamps.
   */
  lemma {:induction false} DispatchKeepsStamped(s: DispatchState<Command>, bindings: map<Key, Input<Command>>, keys: seq<Key>, tick: int)
    requires StampedBindings(s.inputs, bindings)
    ensures StampedBindings(Dispatch(s, keys, tick, IsToggle).inputs, bindings)
  {
    if keys != [] {
      DispatchKeepsStamped(s, bindings, keys[..|keys| - 1], tick);
      StepKeepsStamped(Dispatch(s, keys[..|keys| - 1], tick, IsToggle), bindings, keys[|keys| - 1], tick);
    }
  }

  /**
   * What the host answers during one tick: the clipboard text, the result of
   * the ray cast from the camera, object creation (None for a null entity),
   * the player's name and pose, the map file's content and the screen
   * resolution, and cosine and sine for the camera.
   */
  datatype Host = Host(
    clipboardText: string,
    raycast: RaycastHit,
    createObject: (ModelRef, Vector3) -> Option<EntityHandle>,
    playerName: string,
    playerPosition: Vector3,
    playerRotation: Vector3,
    loadedMap: SerializableMap,
    screenResolution: Vector2,
    trig: Trig)

  function Quoted(s: string): string {
    "\"" + s + "\""
  }

  /** The entity a spawn of `modelName` gets: none when the name does not resolve or the host returns null. */
  function SpawnEntity(modelName: string, position: Vector3, createObject: (ModelRef, Vector3) -> Option<EntityHandle>): Option<EntityHandle> {
    match ResolveModel(modelName)
    case None => None
    case Some(model) => createObject(model, position)
  }

  /** The registry after a spawn: the new object at the end when it got an entity, otherwise unchanged. */
  function SpawnedObjects(objects: seq<MapObject>, modelName: string, position: Vector3, rotation: Vector3,
                          createObject: (ModelRef, Vector3) -> Option<EntityHandle>): (r: seq<MapObject>)
    ensures |objects| <= |r| <= |objects| + 1
  {
    var entity := SpawnEntity(modelName, position, createObject);
    if entity.Some? then objects + [MapObject(modelName, position, rotation, entity)] else objects
  }

  /** The host calls of a spawn: the rotation is set even on a null entity, but not when the name does not resolve. */
  function SpawnCalls(modelName: string, position: Vector3, rotation: Vector3,
                      createObject: (ModelRef, Vector3) -> Option<EntityHandle>): (r: seq<HostCall>)
    ensures |r| == if ResolveModel(modelName).Some? then 2 else 1
  {
    match ResolveModel(modelName)
    case None => [UserFriendlyPrint("Failed to spawn " + Quoted(modelName))]
    case Some(model) =>
      var entity := createObject(model, position);
      [SetEntityRotation(entity, rotation)] +
      [UserFriendlyPrint((if entity.Some? then "Created " else "Failed to spawn ") + Quoted(modelName))]
  }

  /**
   * A spawn appends exactly one object, with the given name and pose and a
   * host entity, when the name resolves and the host creates the entity;
   * otherwise, including every "0x" name whose remainder is not hexadecimal,
   * the registry is unchanged.
   */
  lemma SpawnAppendsOrKeeps(objects: seq<MapObject>, modelName: string, position: Vector3, rotation: Vector3,
                            createObject: (ModelRef, Vector3) -> Option<EntityHandle>)
    ensures var r := SpawnedObjects(objects, modelName, position, rotation, createObject);
      var succeeds := ResolveModel(modelName).Some? && createObject(ResolveModel(modelName).value, position).Some?;
      (succeeds ==> |r| == |objects| + 1 && r[..|objects|] == objects &&
                    r[|objects|].modelName == modelName && r[|objects|].position == position &&
                    r[|objects|].rotation == rotation && r[|objects|].entity.Some?) &&
      (!succeeds ==> r == objects)
    ensures forall rest :: rest == [] || (!IsHexDigit(rest[0]) && !IsWhite(rest[0])) ==>
      SpawnedObjects(objects, "0x" + rest, position, rotation, createObject) == objects
  {
    var r := SpawnedObjects(objects, modelName, position, rotation, createObject);
    if ResolveModel(modelName).Some? && createObject(ResolveModel(modelName).value, position).Some? {
      assert r[..|objects|] == objects;
    }
    forall rest | rest == [] || (!IsHexDigit(rest[0]) && !IsWhite(rest[0]))
      ensures SpawnedObjects(objects, "0x" + rest, position, rotation, createObject) == objects
    {
      ResolveRejectsNonHex(rest);
    }
  }

  /** `IndexOf(_selectedMapObject)`: -1 for no selection. */
  function IndexOf(selected: Option<nat>): int {
    if selected.Some? then selected.value else -1
  }

  /** The selection after ChangeSelectedObject(deltaIndex) on a registry of `count` objects. */
  function SelectionAfterChange(selected: Option<nat>, count: nat, deltaIndex: int): (r: Option<nat>)
    ensures r.None? <==> count == 0
    ensures r.Some? ==> r.value < count
  {
    if count > 0 then Some(ClampInt(IndexOf(selected) + deltaIndex, 0, count - 1)) else None
  }

  /** The selection after deleting the object at `index`, with `remaining` objects left. */
  function SelectionAfterDelete(index: nat, remaining: nat): (r: Option<nat>)
    ensures r.None? <==> remaining == 0
    ensures r.Some? ==> r.value < remaining
  {
    if remaining > 0 then Some(ClampInt(index - 1, 0, remaining - 1)) else None
  }

  /** ChangeSelectedObject(deltaIndex) applied `n` times. */
  function ChangeSelectionRepeatedly(selected: Option<nat>, count: nat, deltaIndex: int, n: nat): Option<nat> {
    if n == 0 then selected else SelectionAfterChange(ChangeSelectionRepeatedly(selected, count, deltaIndex, n - 1), count, deltaIndex)
  }

  /**
   * Selecting the next object `n` times (n >= 1) reaches index
   * min(i + n, count - 1), with i = -1 for no selection: it stops at the last object.
   */
  lemma {:induction false} SelectNextSaturates(selected: Option<nat>, count: nat, n: nat)
    requires count > 0 && n >= 1
    requires selected.Some? ==> selected.value < count
    ensures ChangeSelectionRepeatedly(selected, count, 1, n) ==
      Some(if IndexOf(selected) + n < count then IndexOf(selected) + n else count - 1)
  {
    if n > 1 {
      SelectNextSaturates(selected, count, n - 1);
    }
  }

  /**
   * Selecting the previous object `n` times (n >= 1) reaches index
   * max(i - n, 0): it stops at the first object.
   */
  lemma {:induction false} SelectPreviousSaturates(selected: Option<nat>, count: nat, n: nat)
    requires count > 0 && n >= 1
    requires selected.Some? ==> selected.value < count
    ensures ChangeSelectionRepeatedly(selected, count, -1, n) ==
      Some(if IndexOf(selected) - n >= 0 then IndexOf(selected) - n else 0)
  {
    if n > 1 {
      SelectPreviousSaturates(selected, count, n - 1);
    }
  }

  /**
   * After deleting the object at index i, the selection falls on the object
   * that was just before it, or on the new first object when i was 0.
   */
  lemma DeleteSelectsNeighbour(objects: seq<MapObject>, index: nat)
    requires index < |objects| && |objects| >= 2
    ensures var remaining := objects[..index] + objects[index + 1..];
      var r := SelectionAfterDelete(index, |remaining|);
      r.Some? && remaining[r.value] == (if index > 0 then objects[index - 1] else objects[1])
  {
  }

  /** Every object of a map file has a model name (a null one makes the source's spawn throw). */
  predicate LoadableObjects(mapObjects: seq<SerializableMapObject>) {
    forall i :: 0 <= i < |mapObjects| ==> mapObjects[i].modelName.Some?
  }

  /** The registry after LoadMap spawned every object of the file in order. */
  function LoadedObjects(objects: seq<MapObject>, mapObjects: seq<SerializableMapObject>,
                         createObject: (ModelRef, Vector3) -> Option<EntityHandle>): (r: seq<MapObject>)
    requires LoadableObjects(mapObjects)
    ensures |objects| <= |r| <= |objects| + |mapObjects|
  {
    if mapObjects == [] then objects
    else
      var last := mapObjects[|mapObjects| - 1];
      SpawnedObjects(LoadedObjects(objects, mapObjects[..|mapObjects| - 1], createObject),
                     last.modelName.value, last.Position(), last.Rotation(), createObject)
  }

  /** The host calls of the spawns LoadMap makes, in order. */
  function LoadCalls(mapObjects: seq<SerializableMapObject>, createObject: (ModelRef, Vector3) -> Option<EntityHandle>): seq<HostCall>
    requires LoadableObjects(mapObjects)
  {
    if mapObjects == [] then []
    else
      var last := mapObjects[|mapObjects| - 1];
      LoadCalls(mapObjects[..|mapObjects| - 1], createObject) +
      SpawnCalls(last.modelName.value, last.Position(), last.Rotation(), createObject)
  }

  /** Loading one more entry of the file spawns it after the ones before. */
  lemma LoadNext(objects: seq<MapObject>, mapObjects: seq<SerializableMapObject>, i: nat,
                 createObject: (ModelRef, Vector3) -> Option<EntityHandle>)
    requires LoadableObjects(mapObjects) && i < |mapObjects|
    ensures var next := mapObjects[i];
      LoadedObjects(objects, mapObjects[..i + 1], createObject) ==
        SpawnedObjects(LoadedObjects(objects, mapObjects[..i], createObject), next.modelName.value, next.Position(), next.Rotation(), createObject) &&
      LoadCalls(mapObjects[..i + 1], createObject) ==
        LoadCalls(mapObjects[..i], createObject) + SpawnCalls(next.modelName.value, next.Position(), next.Rotation(), createObject)
  {
    assert mapObjects[..i + 1][..i] == mapObjects[..i];
  }

  /** LoadMap appends to the registry and never replaces it: the old objects stay in front, at most one new object per file entry. */
  lemma {:induction false} LoadMapAppends(objects: seq<MapObject>, mapObjects: seq<SerializableMapObject>,
                                          createObject: (ModelRef, Vector3) -> Option<EntityHandle>)
    requires LoadableObjects(mapObjects)
    ensures var r := LoadedObjects(objects, mapObjects, createObject);
      |objects| <= |r| <= |objects| + |mapObjects| && r[..|objects|] == objects &&
      (AllBacked(objects) ==> AllBacked(r))
  {
    if mapObjects != [] {
      var prefix := mapObjects[..|mapObjects| - 1];
      LoadMapAppends(objects, prefix, createObject);
      var last := mapObjects[|mapObjects| - 1];
      var before := LoadedObjects(objects, prefix, createObject);
      SpawnAppendsOrKeeps(before, last.modelName.value, last.Position(), last.Rotation(), createObject);
      var r := LoadedObjects(objects, mapObjects, createObject);
      assert r[..|objects|] == before[..|objects|];
    }
  }

  /** The document SaveMap writes: named after the player, authored by the player, one entry per object in order. */
  function SavedMap(objects: seq<MapObject>, playerName: string): (m: SerializableMap)
    ensures |m.mapObjects| == |objects| && LoadableObjects(m.mapObjects)
    ensures forall i :: 0 <= i < |objects| ==>
      m.mapObjects[i].modelName == Some(objects[i].modelName) &&
      m.mapObjects[i].Position() == objects[i].position && m.mapObjects[i].Rotation() == objects[i].rotation
  {
    SerializableMap(Some(playerName + "'s Map"), Some(playerName), None, FromMapObjects(objects))
  }

  /** The objects as a load of their saved form recreates them: same names and poses, fresh entities. */
  function Respawned(objects: seq<MapObject>, createObject: (ModelRef, Vector3) -> Option<EntityHandle>): seq<MapObject> {
    seq(|objects|, i requires 0 <= i < |objects| =>
      objects[i].(entity := SpawnEntity(objects[i].modelName, objects[i].position, createObject)))
  }

  /**
   * Saving and then loading: when the host creates an entity for every saved
   * object, loading the saved document appends every object again, in order,
   * with its name, position and rotation.
   */
  lemma {:induction false} LoadSavedMap(existing: seq<MapObject>, objects: seq<MapObject>, playerName: string,
                                        createObject: (ModelRef, Vector3) -> Option<EntityHandle>)
    requires forall i :: 0 <= i < |objects| ==> SpawnEntity(objects[i].modelName, objects[i].position, createObject).Some?
    ensures LoadedObjects(existing, SavedMap(objects, playerName).mapObjects, createObject) == existing + Respawned(objects, createObject)
  {
    if objects != [] {
      var prefix := objects[..|objects| - 1];
      var saved := SavedMap(objects, playerName).mapObjects;
      assert saved[..|saved| - 1] == SavedMap(prefix, playerName).mapObjects;
      LoadSavedMap(existing, prefix, playerName, createObject);
      assert Respawned(objects, createObject) == Respawned(prefix, createObject) + [Respawned(objects, createObject)[|objects| - 1]];
    }
  }

  /** Where the clipboard spawn places an object: the ray's hit, or the camera when the ray hits nothing. */
  function SpawnPosition(raycast: RaycastHit, cameraPosition: Vector3): (position: Vector3)
    ensures raycast.didHit ==> position == raycast.hitPosition
    ensures !raycast.didHit ==> position == cameraPosition
  {
    if raycast.didHit then raycast.hitPosition else cameraPosition
  }

  /** The selection names an object, there is one exactly when the registry is not empty, and every object has an entity. */
  ghost predicate RegistryValid(objects: seq<MapObject>, selected: Option<nat>) {
    (selected.Some? ==> selected.value < |objects|) &&
    (selected.None? <==> objects == []) &&
    AllBacked(objects)
  }

  /**
   * Everything the handlers and the camera tick read or change, as one
   * value: the registry and its selection, the last clipboard name, the edit
   * mode, the transformation settings, the menu's focus and visibility, the
   * camera with this tick's camera input, and the host calls of the editor
   * and of the camera, each in order.
   */
  datatype EditorState = EditorState(
    spawnedObjects: seq<MapObject>,
    selected: Option<nat>,
    selectedObjectModelName: Option<string>,
    isInMapEditorMode: bool,
    transformationMode: TransformationMode,
    translationAxis: TransformationAxis,
    rotationAxis: TransformationAxis,
    menuFocused: Option<nat>,
    menuVisible: bool,
    camera: Option<HostCamera>,
    cameraTranslation: Vector3,
    cameraRotation: Vector3,
    cameraSpeedModifier: real,
    hostCalls: seq<HostCall>,
    cameraCalls: seq<HostCall>)

  /**
   * The editor's invariant on that value: a valid registry, one of the two
   * menu items focused, and the menu shown and the camera active exactly in
   * the editor, where a camera exists.
   */
  ghost predicate StateValid(st: EditorState) {
    RegistryValid(st.spawnedObjects, st.selected) &&
    st.menuFocused.Some? && st.menuFocused.value < |MenuItems()| &&
    st.menuVisible == st.isInMapEditorMode &&
    (st.isInMapEditorMode ==> st.camera.Some?) &&
    (st.camera.Some? ==> st.camera.value.isActive == st.isInMapEditorMode)
  }

  /** A run of handlers the map file can serve: LoadMap throws on an entry without a model name. */
  predicate CanRun(commands: seq<Command>, host: Host) {
    LoadMap in commands ==> LoadableObjects(host.loadedMap.mapObjects)
  }

  /** The handlers that can change the registry or the selection. */
  predicate ChangesObjects(command: Command) {
    command.SpawnSelectedObjectModelName? || command.DeleteSelectedObject? || command.LoadMap? ||
    command.ChangeSelectedObject? || command.ApplyTransformation? || command.SelectFocusedMenuItem?
  }

  /**
   * ToggleMapEditor: entering creates the active camera at the player's
   * pose, shows the menu and takes control from the player; leaving deletes
   * the camera, hides the menu and gives control back.
   */
  function Toggled(st: EditorState, host: Host): (r: EditorState)
    requires StateValid(st)
    ensures StateValid(r) && r.isInMapEditorMode == !st.isInMapEditorMode
    ensures r.isInMapEditorMode ==> r.camera.value.position == host.playerPosition && r.camera.value.rotation == host.playerRotation
  {
    if !st.isInMapEditorMode then
      st.(isInMapEditorMode := true, menuVisible := true,
          camera := Some(HostCamera(host.playerPosition, host.playerRotation, EditorCameraFieldOfView, true, false)),
          cameraCalls := st.cameraCalls + [EnterScriptedCamera],
          hostCalls := st.hostCalls + [SetCanControlCharacter(false), UserFriendlyPrint("Entered Map Editor")])
    else
      st.(isInMapEditorMode := false, menuVisible := false,
          camera := Some(st.camera.value.(isActive := false, isDeleted := true)),
          cameraCalls := st.cameraCalls + [ExitScriptedCamera],
          hostCalls := st.hostCalls + [SetCanControlCharacter(true), UserFriendlyPrint("Exited Map Editor")])
  }

  /**
   * SpawnSelectedObjectModelName: the clipboard text is spawned where the
   * camera ray hits (or at the camera), turned to the camera's yaw; a
   * created object joins the end of the registry and becomes the selection.
   */
  function Spawned(st: EditorState, host: Host): (r: EditorState)
    requires StateValid(st)
    ensures StateValid(r) && r.selectedObjectModelName == Some(host.clipboardText)
    ensures |st.spawnedObjects| <= |r.spawnedObjects| <= |st.spawnedObjects| + 1
    ensures r.spawnedObjects[..|st.spawnedObjects|] == st.spawnedObjects
    ensures |r.spawnedObjects| > |st.spawnedObjects| ==> r.selected == Some(|st.spawnedObjects|)
    ensures |r.spawnedObjects| == |st.spawnedObjects| ==> r.spawnedObjects == st.spawnedObjects && r.selected == st.selected
  {
    var position := SpawnPosition(host.raycast, PositionOf(st.camera));
    var rotation := Vector3(0.0, 0.0, RotationOf(st.camera).z);
    var objects := SpawnedObjects(st.spawnedObjects, host.clipboardText, position, rotation, host.createObject);
    SpawnAppendsOrKeeps(st.spawnedObjects, host.clipboardText, position, rotation, host.createObject);
    st.(selectedObjectModelName := Some(host.clipboardText),
        spawnedObjects := objects,
        selected := if |objects| > |st.spawnedObjects| then Some(|st.spawnedObjects|) else st.selected,
        hostCalls := st.hostCalls + SpawnCalls(host.clipboardText, position, rotation, host.createObject))
  }

  /**
   * DeleteSelectedObject: the selected object's entity is deleted, the
   * object leaves the registry and its neighbour is selected; with no
   * selection nothing happens.
   */
  function Deleted(st: EditorState): (r: EditorState)
    requires StateValid(st)
    ensures StateValid(r)
    ensures st.selected.None? ==> r == st
    ensures st.selected.Some? ==>
      |r.spawnedObjects| == |st.spawnedObjects| - 1 &&
      (forall j :: 0 <= j < |r.spawnedObjects| ==>
        r.spawnedObjects[j] == st.spawnedObjects[if j < st.selected.value then j else j + 1])
  {
    if st.selected.None? then st
    else
      var i := st.selected.value;
      var removed := st.spawnedObjects[i];
      var objects := st.spawnedObjects[..i] + st.spawnedObjects[i + 1..];
      st.(spawnedObjects := objects, selected := SelectionAfterDelete(i, |objects|),
          hostCalls := st.hostCalls + [DeleteEntity(removed.entity.value), UserFriendlyPrint("Removed " + Quoted(removed.modelName))])
  }

  /** LoadMap: every entry of the map file is spawned after the registry, and the last created one is selected. */
  function Loaded(st: EditorState, host: Host): (r: EditorState)
    requires StateValid(st) && LoadableObjects(host.loadedMap.mapObjects)
    ensures StateValid(r) && |st.spawnedObjects| <= |r.spawnedObjects|
    ensures r.spawnedObjects[..|st.spawnedObjects|] == st.spawnedObjects
  {
    var objects := LoadedObjects(st.spawnedObjects, host.loadedMap.mapObjects, host.createObject);
    LoadMapAppends(st.spawnedObjects, host.loadedMap.mapObjects, host.createObject);
    assert |objects| == |st.spawnedObjects| ==> objects == objects[..|st.spawnedObjects|];
    st.(spawnedObjects := objects,
        selected := if |objects| > |st.spawnedObjects| then Some(|objects| - 1) else st.selected,
        hostCalls := st.hostCalls + LoadCalls(host.loadedMap.mapObjects, host.createObject) +
                     [UserFriendlyPrint("Map loaded: " + Quoted(MapFilePath))])
  }

  /** ApplyTransformation(amount): the selected object moves or turns along the current mode's axis, and the host is told. */
  function Transformed(st: EditorState, amount: real): (r: EditorState)
    requires StateValid(st)
    ensures StateValid(r) && r.selected == st.selected && |r.spawnedObjects| == |st.spawnedObjects|
    ensures forall j :: 0 <= j < |st.spawnedObjects| && Some(j) != st.selected ==> r.spawnedObjects[j] == st.spawnedObjects[j]
  {
    if st.selected.None? then st
    else
      var i := st.selected.value;
      var moved := ApplyToObject(st.spawnedObjects[i], st.transformationMode, st.translationAxis, st.rotationAxis,
                                 amount, TranslationSpeed, RotationSpeed);
      st.(spawnedObjects := st.spawnedObjects[i := moved],
          hostCalls := st.hostCalls + [if st.transformationMode == Translation
                                       then SetEntityPosition(moved.entity, moved.position)
                                       else SetEntityRotation(moved.entity, moved.rotation)])
  }

  /** SaveMap: the registry is written to the map file, named after the player, and the path printed. */
  function Saved(st: EditorState, host: Host): EditorState {
    st.(hostCalls := st.hostCalls + [PersistMap(MapFilePath, SavedMap(st.spawnedObjects, host.playerName)),
                                     UserFriendlyPrint("Map saved to " + MapFilePath)])
  }

  /** ChangeTransformationMode: the other mode, printed. */
  function ModeChanged(st: EditorState): EditorState {
    var mode := NextMode(st.transformationMode);
    st.(transformationMode := mode, hostCalls := st.hostCalls + [UserFriendlyPrint("Transformation Mode: " + ModeName(mode))])
  }

  /** ChangeTransformationAxis: the current mode's next axis, printed. */
  function AxisChanged(st: EditorState): EditorState {
    if st.transformationMode == Translation then
      var axis := NextAxis(st.translationAxis);
      st.(translationAxis := axis, hostCalls := st.hostCalls + [UserFriendlyPrint("Translation Axis: " + AxisName(axis))])
    else
      var axis := NextAxis(st.rotationAxis);
      st.(rotationAxis := axis, hostCalls := st.hostCalls + [UserFriendlyPrint("Rotation Axis: " + AxisName(axis))])
  }

  /**
   * What running one handler does to the editor. Only the toggle changes the
   * edit mode, which is what the key dispatch assumes of `IsToggle`; only
   * the object handlers touch the registry and the selection; only the camera
   * keys touch the camera input.
   */
  function Effect(st: EditorState, command: Command, host: Host): (r: EditorState)
    requires StateValid(st) && CanRun([command], host)
    ensures StateValid(r)
    ensures r.isInMapEditorMode == (st.isInMapEditorMode != IsToggle(command))
    ensures !ChangesObjects(command) ==> r.spawnedObjects == st.spawnedObjects && r.selected == st.selected
    ensures !command.TranslateCamera? && !command.SetCameraSpeedModifier? ==>
      r.cameraTranslation == st.cameraTranslation && r.cameraSpeedModifier == st.cameraSpeedModifier
  {
    match command
    case ToggleMapEditor => Toggled(st, host)
    case SpawnSelectedObjectModelName => Spawned(st, host)
    case DeleteSelectedObject => Deleted(st)
    case LoadMap => Loaded(st, host)
    case SaveMap => Saved(st, host)
    case ChangeSelectedObject(deltaIndex) => st.(selected := SelectionAfterChange(st.selected, |st.spawnedObjects|, deltaIndex))
    case ChangeTransformationMode => ModeChanged(st)
    case ChangeTransformationAxis => AxisChanged(st)
    case NavigateMenu(direction) => st.(menuFocused := Some(ClampInt(st.menuFocused.value + direction, 0, |MenuItems()| - 1)))
    case SelectFocusedMenuItem =>
      if MenuItems()[st.menuFocused.value].onSelect == SpawnSelectedObjectModelName then Spawned(st, host) else Deleted(st)
    case ApplyTransformation(amount) => Transformed(st, amount)
    case TranslateCamera(relativeTranslation) => st.(cameraTranslation := Add(st.cameraTranslation, relativeTranslation))
    case SetCameraSpeedModifier(speedModifier) => st.(cameraSpeedModifier := speedModifier)
  }

  /** The handlers of `commands` run one after the other. */
  function Effects(st: EditorState, commands: seq<Command>, host: Host): (r: EditorState)
    requires StateValid(st) && CanRun(commands, host)
    ensures StateValid(r)
  {
    if commands == [] then st
    else
      var last := commands[|commands| - 1];
      assert LoadMap in commands[..|commands| - 1] ==> LoadMap in commands;
      Effect(Effects(st, commands[..|commands| - 1], host), last, host)
  }

  /** Running `a` and then `b` is running `a + b`. */
  lemma {:induction false} EffectsAppend(st: EditorState, a: seq<Command>, b: seq<Command>, host: Host)
    requires StateValid(st) && CanRun(a + b, host)
    ensures CanRun(a, host) && CanRun(b, host)
    ensures Effects(st, a + b, host) == Effects(Effects(st, a, host), b, host)
  {
    CanRunParts(a, b, host);
    if b == [] {
      assert a + b == a;
    } else {
      var b', last := b[..|b| - 1], b[|b| - 1];
      assert a + b == (a + b') + [last];
      CanRunParts(a + b', [last], host);
      CanRunParts(a, b', host);
      CanRunParts(b', [last], host);
      EffectsAppend(st, a, b', host);
      var mid := Effects(st, a, host);
      assert Effects(st, a + b, host) == Effect(Effects(st, a + b', host), last, host);
      assert Effects(mid, b, host) == Effect(Effects(mid, b', host), last, host);
    }
  }

  /**
   * The state of a dispatch loop after the first `i` keys of `order`: the
   * dispatch so far, and the editor as the handlers fired so far leave it.
   */
  ghost predicate Progress(start: DispatchState<Command>, order: seq<Key>, i: nat, tick: int,
                           d: DispatchState<Command>, initial: EditorState, st: EditorState, host: Host)
  {
    var full := Dispatch(start, order, tick, IsToggle).fired;
    i <= |order| && d == Dispatch(start, order[..i], tick, IsToggle) &&
    |start.fired| <= |d.fired| <= |full| && full[..|d.fired|] == d.fired &&
    StateValid(initial) && CanRun(full[|start.fired|..], host) && CanRun(d.fired[|start.fired|..], host) &&
    st == Effects(initial, d.fired[|start.fired|..], host)
  }

  lemma ProgressStart(start: DispatchState<Command>, order: seq<Key>, tick: int, initial: EditorState, host: Host)
    requires StateValid(initial) && CanRun(Dispatch(start, order, tick, IsToggle).fired[|start.fired|..], host)
    ensures Progress(start, order, 0, tick, start, initial, initial, host)
  {
    assert order[..0] == [] && start.fired[|start.fired|..] == [];
    DispatchPrefixFired(start, order, 0, tick, IsToggle);
  }

  /** A key that fires in the loop has a handler the map file can serve. */
  lemma ProgressCanFire(start: DispatchState<Command>, order: seq<Key>, i: nat, tick: int,
                        d: DispatchState<Command>, initial: EditorState, st: EditorState, host: Host)
    requires Progress(start, order, i, tick, d, initial, st, host) && i < |order|
    ensures StateValid(st)
    ensures Fires(d, order[i], tick) ==> CanRun([d.inputs[order[i]].handler], host)
  {
    assert order[..i + 1][..i] == order[..i] && order[..i + 1][i] == order[i];
    DispatchPrefixFired(start, order, i + 1, tick, IsToggle);
    if Fires(d, order[i], tick) {
      var full := Dispatch(start, order, tick, IsToggle).fired;
      assert full[|d.fired|] == d.inputs[order[i]].handler;
      CanRunOne(full, |start.fired|, |d.fired|, host);
    }
  }

  /** One key of the loop: the dispatch takes a `Step`, and the editor follows the handler it fired, if any. */
  lemma ProgressStep(start: DispatchState<Command>, order: seq<Key>, i: nat, tick: int,
                     d: DispatchState<Command>, initial: EditorState, st: EditorState, st': EditorState, host: Host)
    requires Progress(start, order, i, tick, d, initial, st, host) && i < |order|
    requires Fires(d, order[i], tick) ==> CanRun([d.inputs[order[i]].handler], host)
    requires st' == if Fires(d, order[i], tick) then Effect(st, d.inputs[order[i]].handler, host) else st
    ensures Progress(start, order, i + 1, tick, Step(d, order[i], tick, IsToggle), initial, st', host)
  {
    assert order[..i + 1][..i] == order[..i] && order[..i + 1][i] == order[i];
    DispatchPrefixFired(start, order, i + 1, tick, IsToggle);
    var fires := Fires(d, order[i], tick);
    var handler := if fires then d.inputs[order[i]].handler else Command.LoadMap;
    RunStep(initial, |start.fired|, d.fired, handler, fires, Dispatch(start, order, tick, IsToggle).fired, st, st', host);
  }

  /** One handler of a run the map file can serve can be served on its own. */
  lemma CanRunOne(full: seq<Command>, from: nat, j: nat, host: Host)
    requires from <= j < |full| && CanRun(full[from..], host)
    ensures CanRun([full[j]], host)
  {
    if full[j] == LoadMap {
      assert full[from..][j - from] == LoadMap;
    }
  }

  /**
   * One pass of a dispatch loop: when the key fires, its handler joins the
   * run and its effect follows the run's; otherwise nothing changes.
   */
  lemma RunStep(initial: EditorState, from: nat, run: seq<Command>, handler: Command, fires: bool,
                full: seq<Command>, before: EditorState, after: EditorState, host: Host)
    requires StateValid(initial) && from <= |run|
    requires var next := if fires then run + [handler] else run;
      |next| <= |full| && full[..|next|] == next && CanRun(full[from..], host)
    requires CanRun(run[from..], host) && before == Effects(initial, run[from..], host)
    requires fires ==> CanRun([handler], host) && after == Effect(before, handler, host)
    requires !fires ==> after == before
    ensures var next := if fires then run + [handler] else run;
      CanRun(next[from..], host) && after == Effects(initial, next[from..], host)
  {
    var next := if fires then run + [handler] else run;
    CanRunWithin(full, next, from, host);
    if fires {
      assert next[from..] == run[from..] + [handler];
      assert next[from..][..|next[from..]| - 1] == run[from..];
    }
  }

  /** A run that is part of a run the map file can serve can be served too. */
  lemma CanRunWithin(full: seq<Command>, part: seq<Command>, from: nat, host: Host)
    requires from <= |part| <= |full| && full[..|part|] == part && from <= |full| && CanRun(full[from..], host)
    ensures CanRun(part[from..], host)
  {
    if LoadMap in part[from..] {
      var j :| 0 <= j < |part| - from && part[from..][j] == LoadMap;
      assert full[from..][j] == LoadMap;
    }
  }

  lemma CanRunParts(a: seq<Command>, b: seq<Command>, host: Host)
    requires CanRun(a + b, host)
    ensures CanRun(a, host) && CanRun(b, host)
  {
    if LoadMap in a {
      var i :| 0 <= i < |a| && a[i] == LoadMap;
      assert (a + b)[i] == LoadMap;
    }
    if LoadMap in b {
      var i :| 0 <= i < |b| && b[i] == LoadMap;
      assert (a + b)[|a| + i] == LoadMap;
    }
  }

  /**
   * A run of handlers none of which is an object handler (toggles, camera
   * keys, menu navigation, mode and axis changes, saving) leaves the registry
   * and the selection as they were.
   */
  lemma {:induction false} EffectsKeepObjects(st: EditorState, commands: seq<Command>, host: Host)
    requires StateValid(st) && CanRun(commands, host)
    requires forall i :: 0 <= i < |commands| ==> !ChangesObjects(commands[i])
    ensures Effects(st, commands, host).spawnedObjects == st.spawnedObjects
    ensures Effects(st, commands, host).selected == st.selected
  {
    if commands != [] {
      assert LoadMap in commands[..|commands| - 1] ==> LoadMap in commands;
      EffectsKeepObjects(st, commands[..|commands| - 1], host);
    }
  }

  /**
   * Deleting right after a successful spawn removes the spawned object
   * again: the registry is back to what it was, and the host was asked to
   * delete the new entity.
   */
  lemma DeleteUndoesSpawn(st: EditorState, host: Host)
    requires StateValid(st)
    requires |Spawned(st, host).spawnedObjects| > |st.spawnedObjects|
    ensures Deleted(Spawned(st, host)).spawnedObjects == st.spawnedObjects
    ensures var spawned := Spawned(st, host);
      Deleted(spawned).hostCalls[|spawned.hostCalls|] == DeleteEntity(spawned.spawnedObjects[|st.spawnedObjects|].entity.value)
  {
    var spawned := Spawned(st, host);
    assert spawned.spawnedObjects[..|st.spawnedObjects|] + spawned.spawnedObjects[|st.spawnedObjects| + 1..] == st.spawnedObjects;
  }

  /**
   * The camera part of OnTick: the accumulated translation and rotation are
   * applied to the camera, with the pitch kept within [-85, 85], and the
   * input is reset for the next tick.
   */
  function CameraTicked(st: EditorState, trig: Trig): (r: EditorState)
    requires StateValid(st)
    ensures StateValid(r)
    ensures r.camera.Some? ==> ClampedCamera.MinCameraPitch <= r.camera.value.rotation.x <= ClampedCamera.MaxCameraPitch
    ensures r.cameraTranslation == Zero && r.cameraRotation == Zero && r.cameraSpeedModifier == 1.0
    ensures r.spawnedObjects == st.spawnedObjects && r.selected == st.selected
  {
    st.(camera := if st.camera.None? then None
                  else Some(st.camera.value.(
                    position := Translated(st.camera.value.position, st.camera.value.rotation,
                                           st.cameraTranslation, st.cameraSpeedModifier, trig),
                    rotation := ClampedCamera.Rotated(st.camera.value.rotation, st.cameraRotation))),
        cameraTranslation := Zero, cameraRotation := Zero, cameraSpeedModifier := 1.0)
  }

  class MapEditor {
    var spawnedObjects: seq<MapObject>
    /** The index of `_selectedMapObject` in the registry, or None for null. */
    var selected: Option<nat>
    var keyboardInputs: map<Key, Input<Command>>
    var keysToProcess: set<Key>
    var handledNonRepeatableKeys: set<Key>
    const mapEditorMenu: Menu<Command>
    const mapEditorCamera: ClampedCamera.MapEditorCamera
    var isInMapEditorMode: bool
    var tick: int
    var transformationMode: TransformationMode
    var translationAxis: TransformationAxis
    var rotationAxis: TransformationAxis
    /** The last clipboard text used for a spawn; None (null) until then. */
    var selectedObjectModelName: Option<string>
    /** Prints, entity updates, control switches and map writes, in order. */
    ghost var hostCalls: seq<HostCall>
    /** The handlers the key dispatch ran, in order. */
    ghost var handlersRun: seq<Command>

    /**
     * The selection names an object and there is one exactly when the
     * registry is not empty; every object has an entity; a key is handled only
     * while held; the menu keeps its two items and is visible exactly in the
     * editor; in the editor the camera exists, and it is active exactly then.
     */
    ghost predicate Valid()
      reads this`spawnedObjects, this`selected, this`keysToProcess, this`handledNonRepeatableKeys,
            this`isInMapEditorMode, mapEditorMenu`items, mapEditorMenu`focused, mapEditorMenu`isVisible, mapEditorCamera`camera
    {
      RegistryValid(spawnedObjects, selected) && Wired()
    }

    /** The parts of Valid that spawning, deleting and selecting leave alone. */
    ghost predicate Wired()
      reads this`keysToProcess, this`handledNonRepeatableKeys, this`isInMapEditorMode,
            mapEditorMenu`items, mapEditorMenu`focused, mapEditorMenu`isVisible, mapEditorCamera`camera
    {
      handledNonRepeatableKeys <= keysToProcess &&
      mapEditorMenu.Valid() && |mapEditorMenu.items| == 2 &&
      mapEditorMenu.items[0].onSelect == Command.SpawnSelectedObjectModelName &&
      mapEditorMenu.items[1].onSelect == Command.DeleteSelectedObject &&
      mapEditorMenu.isVisible == isInMapEditorMode &&
      (isInMapEditorMode ==> mapEditorCamera.camera.Some?) &&
      (mapEditorCamera.camera.Some? ==> mapEditorCamera.camera.value.isActive == isInMapEditorMode)
    }

    /** The editor as the value the handler specification works on. */
    ghost function State(): EditorState
      reads this`spawnedObjects, this`selected, this`selectedObjectModelName, this`isInMapEditorMode,
            this`transformationMode, this`translationAxis, this`rotationAxis, this`hostCalls,
            mapEditorMenu`focused, mapEditorMenu`isVisible,
            mapEditorCamera`camera, mapEditorCamera`deltaRelativeTranslationThisTick, mapEditorCamera`deltaRelativeRotationThisTick,
            mapEditorCamera`speedModifierThisTick, mapEditorCamera`hostCalls
    {
      EditorState(spawnedObjects, selected, selectedObjectModelName, isInMapEditorMode,
                  transformationMode, translationAxis, rotationAxis,
                  mapEditorMenu.focused, mapEditorMenu.isVisible,
                  mapEditorCamera.camera, mapEditorCamera.deltaRelativeTranslationThisTick, mapEditorCamera.deltaRelativeRotationThisTick,
                  mapEditorCamera.speedModifierThisTick, hostCalls, mapEditorCamera.hostCalls)
    }

    /** The dispatch state HandleKeys starts from. */
    ghost function Dispatched(): DispatchState<Command>
      reads this`keyboardInputs, this`handledNonRepeatableKeys, this`isInMapEditorMode, this`handlersRun
    {
      DispatchState(keyboardInputs, handledNonRepeatableKeys, isInMapEditorMode, handlersRun)
    }

    constructor ()
      ensures Valid() && fresh(mapEditorMenu) && fresh(mapEditorCamera)
      ensures spawnedObjects == [] && selected == None
      ensures keyboardInputs == Bindings() && keysToProcess == {} && handledNonRepeatableKeys == {}
      ensures !isInMapEditorMode && tick == 0
      ensures transformationMode == Translation && translationAxis == X && rotationAxis == X
      ensures selectedObjectModelName == None && hostCalls == [] && handlersRun == []
    {
      spawnedObjects := [];
      selected := None;
      keyboardInputs := Bindings();
      keysToProcess := {};
      handledNonRepeatableKeys := {};
      mapEditorMenu := new Menu(MenuItems());
      mapEditorCamera := new ClampedCamera.MapEditorCamera();
      isInMapEditorMode := false;
      tick := 0;
      transformationMode := Translation;
      translationAxis := X;
      rotationAxis := X;
      selectedObjectModelName := None;
      hostCalls := [];
      handlersRun := [];
    }

    /**
     * Runs the key dispatch, moves the camera, lays out the menu and advances
     * the tick by one. The editor ends as the handlers the dispatch fired,
     * run in order, and then the camera tick leave it.
     */
    method OnTick(host: Host, order: seq<Key>)
      requires Valid() && IsProperResolution(host.screenResolution)
      requires forall i, j :: 0 <= i < j < |order| ==> order[i] != order[j]
      requires forall k :: k in order <==> k in keysToProcess
      requires CanRun(Dispatch(Dispatched(), order, tick, IsToggle).fired[|handlersRun|..], host)
      modifies this, mapEditorMenu, mapEditorCamera
      ensures Valid()
      ensures var r := Dispatch(DispatchState(old(keyboardInputs), old(handledNonRepeatableKeys), old(isInMapEditorMode), old(handlersRun)),
                                order, old(tick), IsToggle);
        keyboardInputs == r.inputs && handledNonRepeatableKeys == r.handled &&
        isInMapEditorMode == r.isInMapEditorMode && handlersRun == r.fired
      ensures State() == CameraTicked(Effects(old(State()), handlersRun[|old(handlersRun)|..], host), host.trig)
      ensures keysToProcess == old(keysToProcess)
      ensures tick == old(tick) + 1
    {
      HandleKeys(host, order);
      mapEditorCamera.OnTick(host.trig);
      ghost var itemsBeforeDraw := mapEditorMenu.items;
      mapEditorMenu.Draw(host.screenResolution);
      DrawnLayout(itemsBeforeDraw, mapEditorMenu.focused, host.screenResolution, 0);
      DrawnLayout(itemsBeforeDraw, mapEditorMenu.focused, host.screenResolution, 1);
      tick := tick + 1;
    }

    /** A key goes down: it joins the held set. */
    method OnKeyDown(key: Key)
      requires Valid()
      modifies this`keysToProcess
      ensures Valid()
      ensures keysToProcess == old(keysToProcess) + {key}
    {
      keysToProcess := keysToProcess + {key};
    }

    /** A key goes up: it leaves the held set and the handled set, so a non-repeatable key can fire again. */
    method OnKeyUp(key: Key)
      requires Valid()
      modifies this`keysToProcess, this`handledNonRepeatableKeys
      ensures Valid()
      ensures keysToProcess == old(keysToProcess) - {key}
      ensures handledNonRepeatableKeys == old(handledNonRepeatableKeys) - {key}
    {
      keysToProcess := keysToProcess - {key};
      handledNonRepeatableKeys := handledNonRepeatableKeys - {key};
    }

    /**
     * Visits the held keys in `order` (the held set's enumeration order). A
     * key fires when it has a binding, passes the edit-mode gate, is out of
     * its cooldown and is repeatable or not yet handled; firing marks a
     * non-repeatable key handled, stamps the binding with the tick and runs
     * the handler. The whole pass is the fold `Dispatch`.
     */
    method HandleKeys(host: Host, order: seq<Key>)
      requires Valid()
      requires forall k :: k in order <==> k in keysToProcess
      requires CanRun(Dispatch(Dispatched(), order, tick, IsToggle).fired[|handlersRun|..], host)
      modifies this, mapEditorMenu, mapEditorCamera
      ensures Valid()
      ensures keysToProcess == old(keysToProcess) && tick == old(tick)
      ensures var r := Dispatch(DispatchState(old(keyboardInputs), old(handledNonRepeatableKeys), old(isInMapEditorMode), old(handlersRun)),
                                order, tick, IsToggle);
        keyboardInputs == r.inputs && handledNonRepeatableKeys == r.handled &&
        isInMapEditorMode == r.isInMapEditorMode && handlersRun == r.fired
      ensures State() == Effects(old(State()), handlersRun[|old(handlersRun)|..], host)
    {
      ghost var start, initial := Dispatched(), State();
      var i := 0;
      ProgressStart(start, order, tick, initial, host);
      while i < |order|
        invariant 0 <= i <= |order|
        invariant Valid()
        invariant keysToProcess == old(keysToProcess) && tick == old(tick)
        invariant Progress(start, order, i, tick, Dispatched(), initial, State(), host)
      {
        HandleKeyAt(start, order, i, initial, host);
        i := i + 1;
      }
      assert order[..|order|] == order;
    }

    /** The loop body of HandleKeys for the key at `i`: the dispatch and the editor both advance by that key. */
    method HandleKeyAt(ghost start: DispatchState<Command>, order: seq<Key>, i: nat, ghost initial: EditorState, host: Host)
      requires Valid() && i < |order| && order[i] in keysToProcess
      requires Progress(start, order, i, tick, Dispatched(), initial, State(), host)
      modifies this, mapEditorMenu, mapEditorCamera
      ensures Valid()
      ensures keysToProcess == old(keysToProcess) && tick == old(tick)
      ensures Progress(start, order, i + 1, tick, Dispatched(), initial, State(), host)
    {
      ghost var d, before := Dispatched(), State();
      ProgressCanFire(start, order, i, tick, d, initial, before, host);
      HandleKey(order[i], host);
      ProgressStep(start, order, i, tick, d, initial, before, State(), host);
    }

    /**
     * One pass of the HandleKeys loop, for the held key `keyToProcess`: the
     * step `Step` of the dispatch, and the effect of the handler when it fires.
     */
    method HandleKey(keyToProcess: Key, host: Host)
      requires Valid() && keyToProcess in keysToProcess
      requires Fires(Dispatched(), keyToProcess, tick) ==> CanRun([keyboardInputs[keyToProcess].handler], host)
      modifies this, mapEditorMenu, mapEditorCamera
      ensures Valid()
      ensures keysToProcess == old(keysToProcess) && tick == old(tick)
      ensures DispatchState(keyboardInputs, handledNonRepeatableKeys, isInMapEditorMode, handlersRun) ==
              Step(DispatchState(old(keyboardInputs), old(handledNonRepeatableKeys), old(isInMapEditorMode), old(handlersRun)),
                   keyToProcess, tick, IsToggle)
      ensures State() == if Fires(old(Dispatched()), keyToProcess, tick)
                         then Effect(old(State()), old(keyboardInputs)[keyToProcess].handler, host)
                         else old(State())
    {
      ghost var before := DispatchState(keyboardInputs, handledNonRepeatableKeys, isInMapEditorMode, handlersRun);
      if keyToProcess !in keyboardInputs {
        return;
      }
      var input := keyboardInputs[keyToProcess];
      var shouldHandleInput :=
        (input.canBeUsedOutsideOfMapEditor || (isInMapEditorMode && !input.canBeUsedOutsideOfMapEditor)) &&
        tick - input.lastUsageTick > input.cooldownDurationInTicks &&
        (input.isRepeatable || keyToProcess !in handledNonRepeatableKeys);
      if shouldHandleInput {
        assert Fires(before, keyToProcess, tick);
        Fire(keyToProcess, host);
      }
    }

    /** A firing key: its bookkeeping, then its handler. */
    method Fire(keyToProcess: Key, host: Host)
      requires Valid() && keyToProcess in keysToProcess
      requires Fires(Dispatched(), keyToProcess, tick)
      requires CanRun([keyboardInputs[keyToProcess].handler], host)
      modifies this, mapEditorMenu, mapEditorCamera
      ensures Valid()
      ensures keysToProcess == old(keysToProcess) && tick == old(tick)
      ensures DispatchState(keyboardInputs, handledNonRepeatableKeys, isInMapEditorMode, handlersRun) ==
              Step(DispatchState(old(keyboardInputs), old(handledNonRepeatableKeys), old(isInMapEditorMode), old(handlersRun)),
                   keyToProcess, tick, IsToggle)
      ensures State() == Effect(old(State()), old(keyboardInputs)[keyToProcess].handler, host)
    {
      var handler := keyboardInputs[keyToProcess].handler;
      MarkFired(keyToProcess);
      Perform(handler, host);
    }

    /** The bookkeeping of a firing key: marked handled unless repeatable, stamped with the tick, its handler recorded. */
    method MarkFired(keyToProcess: Key)
      requires Valid() && keyToProcess in keyboardInputs && keyToProcess in keysToProcess
      modifies this`keyboardInputs, this`handledNonRepeatableKeys, this`handlersRun
      ensures Valid()
      ensures var input := old(keyboardInputs)[keyToProcess];
        keyboardInputs == old(keyboardInputs)[keyToProcess := input.(lastUsageTick := tick)] &&
        handledNonRepeatableKeys == (if input.isRepeatable then old(handledNonRepeatableKeys) else old(handledNonRepeatableKeys) + {keyToProcess}) &&
        handlersRun == old(handlersRun) + [input.handler]
    {
      var input := keyboardInputs[keyToProcess];
      if !input.isRepeatable {
        handledNonRepeatableKeys := handledNonRepeatableKeys + {keyToProcess};
      }
      keyboardInputs := keyboardInputs[keyToProcess := input.(lastUsageTick := tick)];
      handlersRun := handlersRun + [input.handler];
    }

    /**
     * Runs one handler: the editor ends as `Effect` says. The frame states
     * that no handler touches the bindings, the held or handled keys, the
     * tick or the record of handlers run.
     */
    method Perform(command: Command, host: Host)
      requires Valid() && CanRun([command], host)
      modifies this`spawnedObjects, this`selected, this`hostCalls, this`selectedObjectModelName, this`isInMapEditorMode,
               this`transformationMode, this`translationAxis, this`rotationAxis,
               mapEditorMenu`focused, mapEditorMenu`isVisible,
               mapEditorCamera`camera, mapEditorCamera`hostCalls,
               mapEditorCamera`deltaRelativeTranslationThisTick, mapEditorCamera`speedModifierThisTick
      ensures Valid()
      ensures State() == Effect(old(State()), command, host)
    {
      if command.NavigateMenu? || command.SelectFocusedMenuItem? {
        PerformOnMenu(command, host);
      } else if command.ToggleMapEditor? || command.ChangeTransformationMode? || command.ChangeTransformationAxis? {
        PerformOnEditor(command, host);
      } else if command.TranslateCamera? {
        mapEditorCamera.Translate(command.relativeTranslation);
      } else if command.SetCameraSpeedModifier? {
        mapEditorCamera.SetSpeedModifierThisTick(command.speedModifier);
      } else {
        PerformOnObjects(command, host);
      }
    }

    /** The handlers that switch the editor on or off and change its transformation mode or axis. */
    method PerformOnEditor(command: Command, host: Host)
      requires Valid()
      requires command.ToggleMapEditor? || command.ChangeTransformationMode? || command.ChangeTransformationAxis?
      modifies this`hostCalls, this`isInMapEditorMode, this`transformationMode, this`translationAxis, this`rotationAxis,
               mapEditorMenu`isVisible, mapEditorCamera`camera, mapEditorCamera`hostCalls
      ensures Valid()
      ensures State() == Effect(old(State()), command, host)
    {
      match command
      case ToggleMapEditor => ToggleMapEditor(host);
      case ChangeTransformationMode => ChangeTransformationMode();
      case ChangeTransformationAxis => ChangeTransformationAxis();
    }

    /** The handlers of the menu keys: move the focus, or run the focused item's action. */
    method PerformOnMenu(command: Command, host: Host)
      requires Valid() && (command.NavigateMenu? || command.SelectFocusedMenuItem?)
      modifies this`spawnedObjects, this`selected, this`hostCalls, this`selectedObjectModelName, mapEditorMenu`focused
      ensures Valid()
      ensures State() == Effect(old(State()), command, host)
    {
      if command.NavigateMenu? {
        mapEditorMenu.NavigateMenu(command.direction);
      } else {
        var action := mapEditorMenu.SelectFocusedMenuItem();
        if action == Some(Command.SpawnSelectedObjectModelName) {
          SpawnSelectedObjectModelName(host);
        } else if action == Some(Command.DeleteSelectedObject) {
          DeleteSelectedObject();
        }
      }
    }

    /** The handlers that spawn, delete, load, save, select or transform map objects. */
    method PerformOnObjects(command: Command, host: Host)
      requires Valid() && CanRun([command], host)
      requires command.SpawnSelectedObjectModelName? || command.DeleteSelectedObject? || command.LoadMap? ||
               command.SaveMap? || command.ChangeSelectedObject? || command.ApplyTransformation?
      modifies this`spawnedObjects, this`selected, this`hostCalls, this`selectedObjectModelName
      ensures Valid()
      ensures State() == Effect(old(State()), command, host)
    {
      if command.SpawnSelectedObjectModelName? {
        SpawnSelectedObjectModelName(host);
      } else if command.DeleteSelectedObject? {
        DeleteSelectedObject();
      } else if command.LoadMap? {
        LoadMap(host);
      } else if command.SaveMap? {
        SaveMap(host);
      } else if command.ChangeSelectedObject? {
        ChangeSelectedObject(command.deltaIndex);
      } else {
        ApplyTransformation(command.amount);
      }
    }

    /**
     * Moves or turns the selected object by `amount` along the axis of the
     * current mode, and tells the host; nothing happens with no selection.
     */
    method ApplyTransformation(amount: real)
      requires Valid()
      modifies this`spawnedObjects, this`hostCalls
      ensures Valid() && State() == Transformed(old(State()), amount)
      ensures old(selected).None? ==> spawnedObjects == old(spawnedObjects) && hostCalls == old(hostCalls)
      ensures old(selected).Some? ==>
        var i := selected.value;
        var moved := ApplyToObject(old(spawnedObjects)[i], transformationMode, translationAxis, rotationAxis,
                                   amount, TranslationSpeed, RotationSpeed);
        spawnedObjects == old(spawnedObjects)[i := moved] &&
        hostCalls == old(hostCalls) + [if transformationMode == Translation
                                       then SetEntityPosition(moved.entity, moved.position)
                                       else SetEntityRotation(moved.entity, moved.rotation)]
    {
      match transformationMode
      case Translation => TranslateSelectedObject(Scale(AxisVector(translationAxis, amount), TranslationSpeed));
      case Rotation => RotateSelectedObject(Scale(AxisVector(rotationAxis, amount), RotationSpeed));
    }

    method TranslateSelectedObject(deltaTranslation: Vector3)
      requires Valid()
      modifies this`spawnedObjects, this`hostCalls
      ensures Valid()
      ensures selected.None? ==> spawnedObjects == old(spawnedObjects) && hostCalls == old(hostCalls)
      ensures selected.Some? ==>
        var moved := old(spawnedObjects)[selected.value].(position := Add(old(spawnedObjects)[selected.value].position, deltaTranslation));
        spawnedObjects == old(spawnedObjects)[selected.value := moved] &&
        hostCalls == old(hostCalls) + [SetEntityPosition(moved.entity, moved.position)]
    {
      if selected.None? {
        return;
      }
      var selectedMapObject := spawnedObjects[selected.value];
      var newPosition := Add(selectedMapObject.position, deltaTranslation);
      hostCalls := hostCalls + [SetEntityPosition(selectedMapObject.entity, newPosition)];
      spawnedObjects := spawnedObjects[selected.value := selectedMapObject.(position := newPosition)];
    }

    method RotateSelectedObject(deltaRotation: Vector3)
      requires Valid()
      modifies this`spawnedObjects, this`hostCalls
      ensures Valid()
      ensures selected.None? ==> spawnedObjects == old(spawnedObjects) && hostCalls == old(hostCalls)
      ensures selected.Some? ==>
        var turned := old(spawnedObjects)[selected.value].(rotation := Add(old(spawnedObjects)[selected.value].rotation, deltaRotation));
        spawnedObjects == old(spawnedObjects)[selected.value := turned] &&
        hostCalls == old(hostCalls) + [SetEntityRotation(turned.entity, turned.rotation)]
    {
      if selected.None? {
        return;
      }
      var selectedMapObject := spawnedObjects[selected.value];
      var newRotation := Add(selectedMapObject.rotation, deltaRotation);
      hostCalls := hostCalls + [SetEntityRotation(selectedMapObject.entity, newRotation)];
      spawnedObjects := spawnedObjects[selected.value := selectedMapObject.(rotation := newRotation)];
    }

    /** Switches to the other mode and prints it. */
    method ChangeTransformationMode()
      modifies this`transformationMode, this`hostCalls
      ensures State() == ModeChanged(old(State()))
      ensures transformationMode == NextMode(old(transformationMode))
      ensures hostCalls == old(hostCalls) + [UserFriendlyPrint("Transformation Mode: " + ModeName(transformationMode))]
    {
      transformationMode := NextMode(transformationMode);
      hostCalls := hostCalls + [UserFriendlyPrint("Transformation Mode: " + ModeName(transformationMode))];
    }

    /** Advances the current mode's axis, leaves the other mode's axis alone, and prints the new axis. */
    method ChangeTransformationAxis()
      modifies this`translationAxis, this`rotationAxis, this`hostCalls
      ensures State() == AxisChanged(old(State()))
      ensures transformationMode == Translation ==>
        translationAxis == NextAxis(old(translationAxis)) && rotationAxis == old(rotationAxis) &&
        hostCalls == old(hostCalls) + [UserFriendlyPrint("Translation Axis: " + AxisName(translationAxis))]
      ensures transformationMode == Rotation ==>
        rotationAxis == NextAxis(old(rotationAxis)) && translationAxis == old(translationAxis) &&
        hostCalls == old(hostCalls) + [UserFriendlyPrint("Rotation Axis: " + AxisName(rotationAxis))]
    {
      match transformationMode
      case Translation =>
        translationAxis := NextAxis(translationAxis);
        hostCalls := hostCalls + [UserFriendlyPrint("Translation Axis: " + AxisName(translationAxis))];
      case Rotation =>
        rotationAxis := NextAxis(rotationAxis);
        hostCalls := hostCalls + [UserFriendlyPrint("Rotation Axis: " + AxisName(rotationAxis))];
    }

    /**
     * Flips the edit mode. Entering creates the camera at the player's pose,
     * shows the menu and takes control from the player; leaving deletes the
     * camera, hides the menu and gives control back.
     */
    method ToggleMapEditor(host: Host)
      requires Valid()
      modifies this`isInMapEditorMode, this`hostCalls, mapEditorMenu`isVisible, mapEditorCamera`camera, mapEditorCamera`hostCalls
      ensures Valid() && State() == Toggled(old(State()), host)
      ensures isInMapEditorMode == !old(isInMapEditorMode)
      ensures isInMapEditorMode ==>
        mapEditorCamera.camera == Some(HostCamera(host.playerPosition, host.playerRotation, EditorCameraFieldOfView, true, false)) &&
        mapEditorCamera.hostCalls == old(mapEditorCamera.hostCalls) + [EnterScriptedCamera] &&
        hostCalls == old(hostCalls) + [SetCanControlCharacter(false), UserFriendlyPrint("Entered Map Editor")]
      ensures !isInMapEditorMode ==>
        mapEditorCamera.camera == Some(old(mapEditorCamera.camera).value.(isActive := false, isDeleted := true)) &&
        mapEditorCamera.hostCalls == old(mapEditorCamera.hostCalls) + [ExitScriptedCamera] &&
        hostCalls == old(hostCalls) + [SetCanControlCharacter(true), UserFriendlyPrint("Exited Map Editor")]
    {
      isInMapEditorMode := !isInMapEditorMode;
      if isInMapEditorMode {
        mapEditorCamera.Enter(host.playerPosition, host.playerRotation);
        mapEditorMenu.isVisible := true;
        hostCalls := hostCalls + [SetCanControlCharacter(false), UserFriendlyPrint("Entered Map Editor")];
      } else {
        mapEditorCamera.Exit();
        mapEditorMenu.isVisible := false;
        hostCalls := hostCalls + [SetCanControlCharacter(true), UserFriendlyPrint("Exited Map Editor")];
      }
    }

    /**
     * Spawns `modelName` at the given pose. When the name resolves and the
     * host creates the entity, the object is appended and selected; otherwise
     * the registry and the selection are unchanged.
     */
    method SpawnObject(modelName: string, position: Vector3, rotation: Vector3,
                       createObject: (ModelRef, Vector3) -> Option<EntityHandle>) returns (spawned: Option<MapObject>)
      requires Valid()
      modifies this`spawnedObjects, this`selected, this`hostCalls
      ensures Valid()
      ensures spawnedObjects == SpawnedObjects(old(spawnedObjects), modelName, position, rotation, createObject)
      ensures selected == if |spawnedObjects| > |old(spawnedObjects)| then Some(|old(spawnedObjects)|) else old(selected)
      ensures hostCalls == old(hostCalls) + SpawnCalls(modelName, position, rotation, createObject)
      ensures |old(spawnedObjects)| <= |spawnedObjects| <= |old(spawnedObjects)| + 1
      ensures spawned.Some? <==> |spawnedObjects| > |old(spawnedObjects)|
      ensures spawned.Some? ==> spawned.value == spawnedObjects[|old(spawnedObjects)|]
    {
      var entity: Option<EntityHandle>;
      if StartsWithHexPrefix(modelName) {
        var modelHash := TryParseHexInt32(modelName[2..]);
        if modelHash.Some? {
          entity := createObject(ByHash(modelHash.value), position);
        } else {
          hostCalls := hostCalls + [UserFriendlyPrint("Failed to spawn " + Quoted(modelName))];
          return None;
        }
      } else {
        entity := createObject(ByName(modelName), position);
      }
      hostCalls := hostCalls + [SetEntityRotation(entity, rotation)];
      var spawnedObject := MapObject(modelName, position, rotation, entity);
      if entity.None? {
        hostCalls := hostCalls + [UserFriendlyPrint("Failed to spawn " + Quoted(modelName))];
        return None;
      }
      spawnedObjects := spawnedObjects + [spawnedObject];
      selected := Some(|spawnedObjects| - 1);
      hostCalls := hostCalls + [UserFriendlyPrint("Created " + Quoted(modelName))];
      return Some(spawnedObject);
    }

    /**
     * Takes the model name from the clipboard and spawns it where the camera
     * ray hits (or at the camera), turned to the camera's yaw.
     */
    method SpawnSelectedObjectModelName(host: Host)
      requires Valid()
      modifies this`selectedObjectModelName, this`spawnedObjects, this`selected, this`hostCalls
      ensures Valid()
      ensures State() == Spawned(old(State()), host)
      ensures selectedObjectModelName == Some(host.clipboardText)
      ensures var position := SpawnPosition(host.raycast, mapEditorCamera.Position());
        var rotation := Vector3(0.0, 0.0, mapEditorCamera.Rotation().z);
        spawnedObjects == SpawnedObjects(old(spawnedObjects), host.clipboardText, position, rotation, host.createObject) &&
        selected == (if |spawnedObjects| > |old(spawnedObjects)| then Some(|old(spawnedObjects)|) else old(selected)) &&
        hostCalls == old(hostCalls) + SpawnCalls(host.clipboardText, position, rotation, host.createObject)
    {
      selectedObjectModelName := Some(host.clipboardText);
      var spawnPosition := if host.raycast.didHit then host.raycast.hitPosition else mapEditorCamera.Position();
      var spawnRotation := Vector3(0.0, 0.0, mapEditorCamera.Rotation().z);
      var _ := SpawnObject(selectedObjectModelName.value, spawnPosition, spawnRotation, host.createObject);
    }

    /**
     * Deletes the selected object's entity, removes the object and selects
     * the clamped previous index of the shortened registry, or nothing when
     * it is now empty; nothing happens with no selection.
     */
    method DeleteSelectedObject()
      requires Valid()
      modifies this`spawnedObjects, this`selected, this`hostCalls
      ensures Valid() && State() == Deleted(old(State()))
      ensures old(selected).None? ==>
        spawnedObjects == old(spawnedObjects) && selected == old(selected) && hostCalls == old(hostCalls)
      ensures old(selected).Some? ==>
        var i := old(selected).value;
        var removed := old(spawnedObjects)[i];
        spawnedObjects == old(spawnedObjects)[..i] + old(spawnedObjects)[i + 1..] &&
        selected == SelectionAfterDelete(i, |spawnedObjects|) &&
        hostCalls == old(hostCalls) + [DeleteEntity(removed.entity.value), UserFriendlyPrint("Removed " + Quoted(removed.modelName))]
    {
      if selected.None? {
        return;
      }
      var selectedMapObjectIndex: int := selected.value;
      var selectedMapObject := spawnedObjects[selectedMapObjectIndex];
      hostCalls := hostCalls + [DeleteEntity(selectedMapObject.entity.value)];
      spawnedObjects := spawnedObjects[..selectedMapObjectIndex] + spawnedObjects[selectedMapObjectIndex + 1..];
      hostCalls := hostCalls + [UserFriendlyPrint("Removed " + Quoted(selectedMapObject.modelName))];
      var totalSpawnedObjects := |spawnedObjects|;
      selected := if totalSpawnedObjects > 0 then Some(ClampInt(selectedMapObjectIndex - 1, 0, totalSpawnedObjects - 1)) else None;
    }

    /** Moves the selection by `deltaIndex`, clamped to the registry, starting from -1 when nothing is selected. */
    method ChangeSelectedObject(deltaIndex: int)
      requires Valid()
      modifies this`selected
      ensures Valid()
      ensures selected == SelectionAfterChange(old(selected), |spawnedObjects|, deltaIndex)
    {
      var selectedMapObjectIndex := if selected.Some? then selected.value else -1;
      var totalSpawnedObjects := |spawnedObjects|;
      selected := if totalSpawnedObjects > 0 then Some(ClampInt(selectedMapObjectIndex + deltaIndex, 0, totalSpawnedObjects - 1)) else None;
    }

    /**
     * Spawns every object of the map file, in order, after the objects
     * already there; the last successful spawn is selected.
     */
    method LoadMap(host: Host)
      requires Valid() && LoadableObjects(host.loadedMap.mapObjects)
      modifies this`spawnedObjects, this`selected, this`hostCalls
      ensures Valid() && State() == Loaded(old(State()), host)
      ensures spawnedObjects == LoadedObjects(old(spawnedObjects), host.loadedMap.mapObjects, host.createObject)
      ensures selected == if |spawnedObjects| > |old(spawnedObjects)| then Some(|spawnedObjects| - 1) else old(selected)
      ensures hostCalls == old(hostCalls) + LoadCalls(host.loadedMap.mapObjects, host.createObject) +
                           [UserFriendlyPrint("Map loaded: " + Quoted(MapFilePath))]
    {
      var mapObjects := host.loadedMap.mapObjects;
      LoadMapObjects(mapObjects, host.createObject);
      assert mapObjects[..|mapObjects|] == mapObjects;
      hostCalls := hostCalls + [UserFriendlyPrint("Map loaded: " + Quoted(MapFilePath))];
    }

    /** The loop of LoadMap: every entry of the file is spawned, in order. */
    method LoadMapObjects(mapObjects: seq<SerializableMapObject>, createObject: (ModelRef, Vector3) -> Option<EntityHandle>)
      requires Valid() && LoadableObjects(mapObjects)
      modifies this`spawnedObjects, this`selected, this`hostCalls
      ensures Valid() && LoadedPrefix(old(spawnedObjects), old(selected), old(hostCalls), mapObjects, |mapObjects|, createObject)
    {
      var i := 0;
      while i < |mapObjects|
        invariant 0 <= i <= |mapObjects|
        invariant Valid()
        invariant LoadedPrefix(old(spawnedObjects), old(selected), old(hostCalls), mapObjects, i, createObject)
      {
        LoadMapObject(old(spawnedObjects), old(selected), old(hostCalls), mapObjects, i, createObject);
        i := i + 1;
      }
    }

    /**
     * What the first `i` spawns of LoadMap leave, starting from `objects`,
     * `selection` and `calls`: the spawned objects appended, the last
     * successful one selected, and the spawns' host calls logged.
     */
    ghost predicate LoadedPrefix(objects: seq<MapObject>, selection: Option<nat>, calls: seq<HostCall>,
                                 mapObjects: seq<SerializableMapObject>, i: nat,
                                 createObject: (ModelRef, Vector3) -> Option<EntityHandle>)
      requires LoadableObjects(mapObjects) && i <= |mapObjects|
      reads this`spawnedObjects, this`selected, this`hostCalls
    {
      spawnedObjects == LoadedObjects(objects, mapObjects[..i], createObject) &&
      |spawnedObjects| >= |objects| &&
      selected == (if |spawnedObjects| > |objects| then Some(|spawnedObjects| - 1) else selection) &&
      hostCalls == calls + LoadCalls(mapObjects[..i], createObject)
    }

    /** One pass of the LoadMap loop: spawns the entry at `i`. */
    method LoadMapObject(ghost objects: seq<MapObject>, ghost selection: Option<nat>, ghost calls: seq<HostCall>,
                         mapObjects: seq<SerializableMapObject>, i: nat,
                         createObject: (ModelRef, Vector3) -> Option<EntityHandle>)
      requires Valid() && LoadableObjects(mapObjects) && i < |mapObjects|
      requires LoadedPrefix(objects, selection, calls, mapObjects, i, createObject)
      modifies this`spawnedObjects, this`selected, this`hostCalls
      ensures Valid() && LoadedPrefix(objects, selection, calls, mapObjects, i + 1, createObject)
    {
      var serializableMapObject := mapObjects[i];
      LoadNext(objects, mapObjects, i, createObject);
      var _ := SpawnObject(serializableMapObject.modelName.value, serializableMapObject.Position(),
                           serializableMapObject.Rotation(), createObject);
    }

    /** Writes the registry to the map file, named after the player, and prints where. */
    method SaveMap(host: Host)
      modifies this`hostCalls
      ensures State() == Saved(old(State()), host)
      ensures hostCalls == old(hostCalls) + [PersistMap(MapFilePath, SavedMap(spawnedObjects, host.playerName)),
                                             UserFriendlyPrint("Map saved to " + MapFilePath)]
    {
      var serializableMap := SerializableMap(Some(host.playerName + "'s Map"), Some(host.playerName), None, FromMapObjects(spawnedObjects));
      hostCalls := hostCalls + [PersistMap(MapFilePath, serializableMap), UserFriendlyPrint("Map saved to " + MapFilePath)];
    }
  }
}
