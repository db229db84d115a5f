# Map editor and gameplay mods for Red Dead Redemption 2, modelled in Dafny

This project models the core of a set of script mods for the game. Most of
it is an in-game map editor, of which the repository keeps three
snapshots. The rest is two small gameplay mods.

**The three editor snapshots**
- `SelectionEditor` is the newest editor (`src/Mapping/MapEditor/MapEditing/MapEditor.cs`). It has:
  - key bindings dispatched once per tick from the set of held keys;
  - a registry of spawned objects with a selected object;
  - a transformation mode (move or turn) with one axis per mode;
  - a two-item menu;
  - map loading and saving;
  - a free camera whose pitch is clamped.
- `KeyEventEditor` is the middle editor (`src/MapEditing/MapEditor.cs`). It has:
  - the same key dispatch, with 30-tick cooldowns on its action keys;
  - a list whose last element the arrow keys move;
  - a test spawn where the camera ray hits;
  - an unclamped free camera.
- `PollingEditor` is the oldest editor (`src/MapEditor.cs`). It has:
  - an array of bindings polled in order every tick; a binding fires when its key is pressed, it passes the edit-mode gate and its cooldown has passed;
  - a camera it moves itself.

**Shared parts**
- `Inputs`: the binding record and the key-dispatch fold.
- `Transformation`: the mode and axis cycles, and the move of one object.
- `MapObjects`: the object record.
- `NamedSpawn`: the two older editors' spawn.
- `ModelNames`: the newest editor's `0x` hash names.
- `CameraMotion`: the yaw-relative camera step.
- `ClampedCamera` and `UnclampedCamera`: the two free cameras.
- `MenuFramework`: the focus menu.
- `MathUtility`: the generic clamp.
- `ScreenUtility`: screen-coordinate conversion.
- `SerializableMapObjects`: the flat persistence record.
- `MapObjectCodec`: the `hash|px|py|pz|rx|ry|rz` line codec.

**The two gameplay mods**
- `Ragdoll`: knocks the player over when their health drops by 20 or more in one tick.
- `RedHot`: slows time unless the player moves or has just shot.

**How the model represents the host and the handlers**
- Key handlers (C# closures) are values of a per-editor `Command` type, and a `Perform` method runs them.
- The game host enters as a `Host` value that answers the queries of one tick:
  - the ray cast, object creation, the clipboard text, the player's pose, the loaded map file and the screen resolution;
  - cosine and sine;
  - for the oldest editor, also the pressed keys, the random number and the point around the player.
- The editors' effects on the host are recorded in ghost logs of `HostCall`s, in order.
- Single-precision floats are modelled as reals.
- The health value is modelled as a 32-bit `int` with explicit wrap-around.

## Model

| member | source | states |
|---|---|---|
| MathUtility.Clamp | src/Mapping/MapEditor/Utilities/MathUtility.cs:7-18 | the result is always the value, min or max |
| MathUtility.ClampBelowMin | src/Mapping/MapEditor/Utilities/MathUtility.cs:9-12 | a value below min gives min, whatever max is |
| MathUtility.ClampAboveMax | src/Mapping/MapEditor/Utilities/MathUtility.cs:13-16 | a value not below min but above max gives max |
| MathUtility.ClampWithin | src/Mapping/MapEditor/Utilities/MathUtility.cs:17 | a value between the bounds is returned unchanged |
| MathUtility.ClampInRange | src/Mapping/MapEditor/Utilities/MathUtility.cs:7-18 | for a total order and min <= max, the result lies in [min, max] |
| MathUtility.ClampIdempotent | src/Mapping/MapEditor/Utilities/MathUtility.cs:7-18 | for ordered bounds, clamping a clamped value changes nothing |
| MathUtility.ClampInvertedBounds | src/Mapping/MapEditor/Utilities/MathUtility.cs:9-16 | with min > max, min wins for a value below min and max for every other value |
| MathUtility.CompareIntIsTotal | src/Mapping/MapEditor/Utilities/MathUtility.cs:7 | Int32.CompareTo obeys the total-order laws the clamp lemmas assume |
| MathUtility.CompareRealIsTotal | src/Mapping/MapEditor/Utilities/MathUtility.cs:7 | Single.CompareTo on finite values obeys the same laws |
| MathUtility.ClampInt | src/Mapping/MapEditor/Utilities/MathUtility.cs:7-18 | the int clamp: within [min, max] for ordered bounds; the value itself when in range; min below; max above |
| MathUtility.ClampReal | src/Mapping/MapEditor/Utilities/MathUtility.cs:7-18 | the float clamp, with the same four cases |
| ScreenUtility.NormalizeAfterAbsolute | src/Mapping/MapEditor/Utilities/ScreenUtility.cs:14-30 | dividing by the resolution undoes multiplying by it |
| ScreenUtility.AbsoluteAfterNormalize | src/Mapping/MapEditor/Utilities/ScreenUtility.cs:14-30 | multiplying by the resolution undoes dividing by it |
| ScreenUtility.AspectRatioTimesHeight | src/Mapping/MapEditor/Utilities/ScreenUtility.cs:32-36 | aspect ratio times height is the width |
| ScreenUtility.GetAbsolutePosition | src/Mapping/MapEditor/Utilities/ScreenUtility.cs:14-21 | the normalized corner (0, 0) maps to pixel (0, 0) and (1, 1) to the resolution itself |
| ScreenUtility.GetNormalizedPosition | src/Mapping/MapEditor/Utilities/ScreenUtility.cs:23-30 | for a resolution with no zero side, pixel (0, 0) maps to (0, 0) and the resolution itself to (1, 1) |
| ScreenUtility.GetAspectRatio | src/Mapping/MapEditor/Utilities/ScreenUtility.cs:32-36 | a square screen has ratio 1; the ratio is 0 exactly when the width is 0 |
| SerializableMapObjects.EmptySerializableMapObject | src/MapEditing/MapPersistence/SerializableMapObject.cs:17-25 | the parameterless record has no model name, and its Position and Rotation are the zero vector |
| SerializableMapObjects.FromMapObject | src/MapEditing/MapPersistence/SerializableMapObject.cs:17-36 | copies the model name; rebuilding Position and Rotation gives the object's own position and rotation |
| SerializableMapObjects.FromMapObjects | src/Mapping/MapEditor/MapEditing/MapEditor.cs:423 | one record per object, in order, each FromMapObject of that object |
| Geometry.RotateByYaw | src/Mapping/MapEditor/MapEditing/MapEditorCamera.cs:67-74 | the vertical component is not rotated, and a zero translation stays zero |
| CameraMotion.Translated | src/Mapping/MapEditor/MapEditing/MapEditorCamera.cs:61-76 | Z grows by dz * 0.1 * modifier; a zero translation or a zero modifier leaves the position unchanged |
| ClampedCamera.Rotated | src/Mapping/MapEditor/MapEditing/MapEditorCamera.cs:78-93 | pitch = clamp(pitch + dx * 360, -85, 85), always within [-85, 85], with each clamp case; roll kept; yaw += dz * 360 |
| ClampedCamera.RotatedWithoutInput | src/Mapping/MapEditor/MapEditing/MapEditorCamera.cs:84-93 | no rotation input keeps a rotation whose pitch is within the limits |
| ClampedCamera.MapEditorCamera.constructor | src/Mapping/MapEditor/MapEditing/MapEditorCamera.cs:14-17 | no camera, zero accumulators, modifier 0 (the field default) |
| ClampedCamera.MapEditorCamera.Position | src/Mapping/MapEditor/MapEditing/MapEditorCamera.cs:19 | the camera's position, or the zero vector with no camera |
| ClampedCamera.MapEditorCamera.Rotation | src/Mapping/MapEditor/MapEditing/MapEditorCamera.cs:20 | the camera's rotation, or the zero vector with no camera |
| ClampedCamera.MapEditorCamera.OnTick | src/Mapping/MapEditor/MapEditing/MapEditorCamera.cs:22-27 | applies the translation, then the rotation (with Translated and Rotated); with no camera nothing moves; the accumulators end at zero and the modifier at 1.0 |
| ClampedCamera.MapEditorCamera.Enter | src/Mapping/MapEditor/MapEditing/MapEditorCamera.cs:29-37 | creates an active camera at the player's pose with field of view 75 and enters the scripted camera |
| ClampedCamera.MapEditorCamera.Exit | src/Mapping/MapEditor/MapEditing/MapEditorCamera.cs:39-44 | deactivates and deletes the camera and exits the scripted camera |
| ClampedCamera.MapEditorCamera.Translate | src/Mapping/MapEditor/MapEditing/MapEditorCamera.cs:46-49 | adds to the translation accumulator, so calls in one tick sum |
| ClampedCamera.MapEditorCamera.Rotate | src/Mapping/MapEditor/MapEditing/MapEditorCamera.cs:51-54 | adds to the rotation accumulator |
| ClampedCamera.MapEditorCamera.SetSpeedModifierThisTick | src/Mapping/MapEditor/MapEditing/MapEditorCamera.cs:56-59 | overwrites the modifier, so the last call wins |
| ClampedCamera.MapEditorCamera.ApplyTranslation | src/Mapping/MapEditor/MapEditing/MapEditorCamera.cs:61-76 | with no camera, nothing changes; otherwise the position becomes Translated and the rest of the camera is kept |
| ClampedCamera.MapEditorCamera.ApplyRotation | src/Mapping/MapEditor/MapEditing/MapEditorCamera.cs:78-94 | with no camera, nothing changes; otherwise the rotation becomes Rotated |
| ClampedCamera.MapEditorCamera.ResetInputs | src/Mapping/MapEditor/MapEditing/MapEditorCamera.cs:96-101 | zero accumulators, modifier 1.0 |
| UnclampedCamera.Rotated | src/MapEditing/MapEditorCamera.cs:75-87 | pitch and yaw grow by dx * 360 and dz * 360 without limit; roll is never changed; no input keeps the rotation |
| UnclampedCamera.RotatedAdditive | src/MapEditing/MapEditorCamera.cs:75-87 | two ticks of rotation input equal one tick of their sum |
| UnclampedCamera.MapEditorCamera.constructor | src/MapEditing/MapEditorCamera.cs:11-14 | no camera, zero accumulators, modifier 0 |
| UnclampedCamera.MapEditorCamera.Position | src/MapEditing/MapEditorCamera.cs:16 | the camera's position, or zero with no camera |
| UnclampedCamera.MapEditorCamera.Rotation | src/MapEditing/MapEditorCamera.cs:17 | the camera's rotation, or zero with no camera |
| UnclampedCamera.MapEditorCamera.OnTick | src/MapEditing/MapEditorCamera.cs:19-24 | translation, then rotation, then reset; pose untouched with no camera |
| UnclampedCamera.MapEditorCamera.Enter | src/MapEditing/MapEditorCamera.cs:26-34 | an active camera at the player's pose; enters the scripted camera |
| UnclampedCamera.MapEditorCamera.Exit | src/MapEditing/MapEditorCamera.cs:36-41 | deactivates and deletes the camera; exits the scripted camera |
| UnclampedCamera.MapEditorCamera.Translate | src/MapEditing/MapEditorCamera.cs:43-46 | accumulates the translation additively |
| UnclampedCamera.MapEditorCamera.Rotate | src/MapEditing/MapEditorCamera.cs:48-51 | accumulates the rotation additively |
| UnclampedCamera.MapEditorCamera.SetSpeedModifierThisTick | src/MapEditing/MapEditorCamera.cs:53-56 | last write wins |
| UnclampedCamera.MapEditorCamera.ApplyTranslation | src/MapEditing/MapEditorCamera.cs:58-73 | the position becomes Translated; nothing changes with no camera |
| UnclampedCamera.MapEditorCamera.ApplyRotation | src/MapEditing/MapEditorCamera.cs:75-87 | the rotation becomes the unclamped Rotated; nothing changes with no camera |
| UnclampedCamera.MapEditorCamera.ResetInputs | src/MapEditing/MapEditorCamera.cs:89-94 | zero accumulators, modifier 1.0 |
| MenuFramework.NewMenuItem | src/Mapping/MapEditor/UserInterface/MenuFramework/Menu.cs:21 | an item keeps its configuration's font size and action; not focused |
| MenuFramework.Drawn | src/Mapping/MapEditor/UserInterface/MenuFramework/Menu.cs:45-54 | a visible Draw keeps the number of items |
| MenuFramework.DrawnMarksOnlyFocused | src/Mapping/MapEditor/UserInterface/MenuFramework/Menu.cs:52 | after a visible Draw, item i is focused iff it is the focused item, so at most one item is |
| MenuFramework.DrawnLayout | src/Mapping/MapEditor/UserInterface/MenuFramework/Menu.cs:45-51 | item i sits at pixel (15, 15 + height * i); its font size and action are kept |
| MenuFramework.Menu.constructor | src/Mapping/MapEditor/UserInterface/MenuFramework/Menu.cs:17-24 | one item per configuration, in order; the first is focused, or none with no items; hidden |
| MenuFramework.Menu.NavigateMenu | src/Mapping/MapEditor/UserInterface/MenuFramework/Menu.cs:26-31 | the focus moves to clamp(i + delta, 0, count - 1); the menu must have items |
| MenuFramework.Menu.SelectFocusedMenuItem | src/Mapping/MapEditor/UserInterface/MenuFramework/Menu.cs:33-36 | the focused item's action, exactly when there is one |
| MenuFramework.Menu.Draw | src/Mapping/MapEditor/UserInterface/MenuFramework/Menu.cs:38-55 | hidden: the items are unchanged; visible: the items become Drawn |
| MenuFramework.NavigateDownSaturates | src/Mapping/MapEditor/UserInterface/MenuFramework/Menu.cs:26-31 | n presses down from i reach min(i + n, count - 1) |
| MenuFramework.NavigateUpSaturates | src/Mapping/MapEditor/UserInterface/MenuFramework/Menu.cs:26-31 | n presses up from i reach max(i - n, 0) |
| MapObjectCodec.Split | src/MapEditing/MapObjectDeserializer.cs:9 | a split always has at least one piece |
| MapObjectCodec.SplitLength | src/MapEditing/MapObjectDeserializer.cs:9 | there is one more piece than separators |
| MapObjectCodec.SplitWithoutSeparator | src/MapEditing/MapObjectDeserializer.cs:9 | text with no separator splits into itself |
| MapObjectCodec.SplitPiecesHaveNoSeparator | src/MapEditing/MapObjectDeserializer.cs:9 | no piece holds the separator |
| MapObjectCodec.SplitAtSeparator | src/MapEditing/MapObjectDeserializer.cs:9 | a separator splits its two sides independently |
| MapObjectCodec.SplitJoin | src/MapEditing/MapObjectSerializer.cs:7 | Split undoes Join when no part holds the separator |
| MapObjectCodec.JoinSplit | src/MapEditing/MapObjectDeserializer.cs:9 | Join undoes Split for every text |
| MapObjectCodec.JoinCount | src/MapEditing/MapObjectSerializer.cs:7 | joining adds exactly one separator between each two parts |
| MapObjectCodec.Join | src/MapEditing/MapObjectSerializer.cs:7 | the text starts with the first part, and the separator follows it when more parts come |
| MapObjectCodec.Serialize | src/MapEditing/MapObjectSerializer.cs:7 | the line starts with the object's hash followed by the separator |
| MapObjectCodec.ParseParts | src/MapEditing/MapObjectDeserializer.cs:11-12 | a successful parse yields one number per part |
| MapObjectCodec.Deserialize | src/MapEditing/MapObjectDeserializer.cs:7-14 | fewer than six separators fails; a result has no entity and part 0 as its hash |
| MapObjectCodec.ParsePartsSucceeds | src/MapEditing/MapObjectDeserializer.cs:11-12 | parsing succeeds iff every part is present and parses, with the parsed values |
| MapObjectCodec.DeserializeSucceeds | src/MapEditing/MapObjectDeserializer.cs:9-13 | succeeds iff there are at least seven parts and parts 1-6 parse; parts 1-3 become the position and 4-6 the rotation; any bad field fails the whole record |
| MapObjectCodec.ParsePartsReadsPrefix | src/MapEditing/MapObjectDeserializer.cs:11-12 | parsing reads no part beyond the last index it needs |
| MapObjectCodec.DeserializeIgnoresTrailingParts | src/MapEditing/MapObjectDeserializer.cs:9-13 | parts after index 6 do not matter |
| MapObjectCodec.SerializeSeparatorCount | src/MapEditing/MapObjectSerializer.cs:7 | the line has the hash's separators plus exactly six |
| MapObjectCodec.SerializeOmitsEntity | src/MapEditing/MapObjectSerializer.cs:7 | the entity handle is never written |
| MapObjectCodec.SerializeStartsWithHash | src/MapEditing/MapObjectSerializer.cs:7 | when the hash holds no separator, the text before the first separator is the hash |
| MapObjectCodec.SerializeSplits | src/MapEditing/MapObjectSerializer.cs:7 | the line splits back into hash, position X/Y/Z and rotation X/Y/Z, in order |
| MapObjectCodec.RoundTrip | src/MapEditing/MapObjectDeserializer.cs:7-14 | Deserialize(Serialize(m)) is m without its entity, when the hash holds no separator and the number text parses back |
| Transformation.ModeAt | src/Mapping/MapEditor/MapEditing/MapEditor.cs:237-238 | the enum member at index i, i < 2 |
| Transformation.AxisAt | src/Mapping/MapEditor/MapEditing/MapEditor.cs:257-258 | the axis at index i, i < 3 |
| Transformation.NextMode | src/Mapping/MapEditor/MapEditing/MapEditor.cs:235-240 | the new mode is never the old one |
| Transformation.NextAxis | src/Mapping/MapEditor/MapEditing/MapEditor.cs:255-267 | the new axis is never the old one |
| Transformation.NextModeSwitches | src/Mapping/MapEditor/MapEditing/MapEditor.cs:235-240 | changing the mode always switches it, and two changes restore it |
| Transformation.NextAxisCycles | src/Mapping/MapEditor/MapEditing/MapEditor.cs:255-267 | changing the axis never keeps it, and three changes restore it |
| Transformation.IterateModeIndex | src/Mapping/MapEditor/MapEditing/MapEditor.cs:238 | after n changes the mode index is (m + n) mod 2 |
| Transformation.IterateAxisIndex | src/Mapping/MapEditor/MapEditing/MapEditor.cs:258 | after n changes the axis index is (a + n) mod 3 |
| Transformation.AxisVector | src/Mapping/MapEditor/MapEditing/MapEditor.cs:207-229 | the amount on the chosen axis and 0 on the other two |
| Transformation.ApplyToObject | src/Mapping/MapEditor/MapEditing/MapEditor.cs:200-233 | exactly one component of the position (by a * translation speed) or of the rotation (by a * rotation speed), chosen by the mode and that mode's axis; name and entity kept |
| Transformation.ApplyToLast | src/MapEditing/MapEditor.cs:231-253 | the length and every object but the last are kept |
| Transformation.ApplyThenOpposite | src/Mapping/MapEditor/MapEditing/MapEditor.cs:200-233 | applying -a after a restores the object |
| Transformation.ApplyToLastOnlyLast | src/MapEditing/MapEditor.cs:231-253 | only the last object changes, on one component; every other object and the length are kept; -a undoes it; an empty list stays as it is |
| Inputs.NewInput | src/MapEditing/Input.cs:17-32 | every field comes from its argument, and the last-usage tick is 0 |
| Inputs.EditModeGateReduces | src/Mapping/MapEditor/MapEditing/MapEditor.cs:168 | the gate reduces to outside or inEditor |
| Inputs.CooldownBlocks | src/Mapping/MapEditor/MapEditing/MapEditor.cs:169 | a binding cannot fire at or before its last use plus its cooldown |
| Inputs.HandledKeyBlocked | src/Mapping/MapEditor/MapEditing/MapEditor.cs:170 | a handled non-repeatable key does not fire |
| Inputs.ShouldHandle | src/Mapping/MapEditor/MapEditing/MapEditor.cs:167-170 | a key that is handled passes the edit-mode gate (usable outside, or in the editor) and is past its cooldown |
| Inputs.Step | src/Mapping/MapEditor/MapEditing/MapEditor.cs:162-179 | one key adds at most one handler to the record of handlers run |
| Inputs.Dispatch | src/Mapping/MapEditor/MapEditing/MapEditor.cs:158-181 | the record of handlers run never shrinks and grows by at most one handler per held key |
| Inputs.StepEffect | src/Mapping/MapEditor/MapEditing/MapEditor.cs:160-179 | a held key fires iff it is bound, passes the gate and the cooldown, and is repeatable or not yet handled; firing stamps the tick, marks a non-repeatable key as handled and runs the handler once; nothing else changes |
| Inputs.DispatchEffect | src/Mapping/MapEditor/MapEditing/MapEditor.cs:158-181 | over a tick only held keys are stamped, and with the current tick; the handled set only grows, and only by held keys; at most one handler runs per held key |
| Inputs.HandledStaysBlocked | src/Mapping/MapEditor/MapEditing/MapEditor.cs:170-176 | once handled, a non-repeatable key fires in no later dispatch and stays handled |
| Inputs.DispatchKeepsKeyed | src/Mapping/MapEditor/MapEditing/MapEditor.cs:158-181 | every binding stays under its own key |
| Inputs.DispatchKeepsModeWithoutToggle | src/Mapping/MapEditor/MapEditing/MapEditor.cs:158-181 | with no toggling handler, the edit mode is the same all tick |
| ModelNames.HexDigitValue | src/Mapping/MapEditor/MapEditing/MapEditor.cs:325 | a hexadecimal digit's value is below 16 |
| ModelNames.TrimStart | src/Mapping/MapEditor/MapEditing/MapEditor.cs:325 | the leading white space HexNumber allows is removed |
| ModelNames.TrimEnd | src/Mapping/MapEditor/MapEditing/MapEditor.cs:325 | the trailing white space is removed, and the result is a prefix |
| ModelNames.ToInt32 | src/Mapping/MapEditor/MapEditing/MapEditor.cs:325 | a 32-bit pattern read as an Int32 is in range and congruent to the pattern mod 2^32 |
| ModelNames.TryParseHexInt32 | src/Mapping/MapEditor/MapEditing/MapEditor.cs:325 | a parsed hash is an Int32, and there was at least one digit |
| ModelNames.ResolveModel | src/Mapping/MapEditor/MapEditing/MapEditor.cs:323-338 | a name without "0x" is used as it is; a "0x" name gives a hash or nothing |
| ModelNames.ParseFormattedHash | src/Mapping/MapEditor/MapEditing/MapEditor.cs:325 | every Int32 written as eight hexadecimal digits parses back to itself |
| ModelNames.ResolveFormattedHash | src/Mapping/MapEditor/MapEditing/MapEditor.cs:323-327 | "0x" followed by a formatted hash asks for exactly that hash |
| ModelNames.ResolveRejectsNonHex | src/Mapping/MapEditor/MapEditing/MapEditor.cs:323-333 | "0x" alone, or followed by a character that is neither a hexadecimal digit nor white space, names nothing |
| SelectionEditor.BindingsTable | src/Mapping/MapEditor/MapEditing/MapEditor.cs:73-97 | the table holds exactly the bindings the constructor lists |
| SelectionEditor.BindingRole | src/Mapping/MapEditor/MapEditing/MapEditor.cs:75-96 | one binding: under its own key, unused, cooldown 0; outside iff F1; toggles iff F1; repeatable iff an arrow, camera or speed key |
| SelectionEditor.BindingsRoles | src/Mapping/MapEditor/MapEditing/MapEditor.cs:73-97 | the same roles for the whole table |
| SelectionEditor.OnlyToggleOutsideEditor | src/Mapping/MapEditor/MapEditing/MapEditor.cs:75-96 | outside the editor only F1 can fire |
| SelectionEditor.FirstTickFiresNothing | src/Mapping/MapEditor/MapEditing/MapEditor.cs:167-170 | on tick 0 no key fires, because 0 - 0 > 0 fails |
| SelectionEditor.StepKeepsStamped | src/Mapping/MapEditor/MapEditing/MapEditor.cs:177 | one step changes at most a binding's stamp |
| SelectionEditor.DispatchKeepsStamped | src/Mapping/MapEditor/MapEditing/MapEditor.cs:158-181 | a dispatch never adds, removes or rewrites a binding beyond its stamp |
| SelectionEditor.SpawnAppendsOrKeeps | src/Mapping/MapEditor/MapEditing/MapEditor.cs:320-350 | appends one object with the given name and pose iff the name resolves and the entity is created; otherwise the list is unchanged, including for every "0x" name with a non-hex remainder |
| SelectionEditor.SpawnedObjects | src/Mapping/MapEditor/MapEditing/MapEditor.cs:320-350 | a spawn grows the registry by at most one object and never shrinks it |
| SelectionEditor.SpawnCalls | src/Mapping/MapEditor/MapEditing/MapEditor.cs:320-350 | a name that resolves makes two host calls (the rotation, then the created or failed print); one that does not makes only the failure print |
| SelectionEditor.SelectionAfterChange | src/Mapping/MapEditor/MapEditing/MapEditor.cs:392-399 | no selection iff the list is empty; otherwise a valid index |
| SelectionEditor.SelectionAfterDelete | src/Mapping/MapEditor/MapEditing/MapEditor.cs:386-389 | no selection iff nothing remains; otherwise a valid index |
| SelectionEditor.SelectNextSaturates | src/Mapping/MapEditor/MapEditing/MapEditor.cs:392-399 | n >= 1 "next" steps reach min(i + n, count - 1), with i = -1 for no selection |
| SelectionEditor.SelectPreviousSaturates | src/Mapping/MapEditor/MapEditing/MapEditor.cs:392-399 | n >= 1 "previous" steps reach max(i - n, 0) |
| SelectionEditor.DeleteSelectsNeighbour | src/Mapping/MapEditor/MapEditing/MapEditor.cs:382-389 | after deleting index i, the object just before it is selected, or the new first object when i = 0 |
| SelectionEditor.LoadNext | src/Mapping/MapEditor/MapEditing/MapEditor.cs:405-412 | loading one more file entry spawns it after the ones before |
| SelectionEditor.LoadMapAppends | src/Mapping/MapEditor/MapEditing/MapEditor.cs:401-414 | loading keeps the old objects in front and adds at most one object per file entry |
| SelectionEditor.LoadedObjects | src/Mapping/MapEditor/MapEditing/MapEditor.cs:401-414 | loading grows the registry by at most one object per file entry and never shrinks it |
| SelectionEditor.SavedMap | src/Mapping/MapEditor/MapEditing/MapEditor.cs:416-427 | one entry per object, in order, with its name and pose |
| SelectionEditor.LoadSavedMap | src/Mapping/MapEditor/MapEditing/MapEditor.cs:401-427 | when every object can be created again, loading the saved map appends every object again, in order, with the same name and pose |
| SelectionEditor.SpawnPosition | src/Mapping/MapEditor/MapEditing/MapEditor.cs:369-371 | the ray's hit position, or the camera's position when nothing is hit |
| SelectionEditor.Toggled | src/Mapping/MapEditor/MapEditing/MapEditor.cs:269-296 | flips the edit mode and keeps the state valid; entering places the camera at the player's pose |
| SelectionEditor.Spawned | src/Mapping/MapEditor/MapEditing/MapEditor.cs:352-374 | the clipboard text is remembered; the old objects stay in front and at most one is added; a new object is selected; a failed spawn keeps registry and selection |
| SelectionEditor.Deleted | src/Mapping/MapEditor/MapEditing/MapEditor.cs:376-390 | with no selection nothing changes; otherwise the registry loses exactly the selected object and keeps the others in order |
| SelectionEditor.Loaded | src/Mapping/MapEditor/MapEditing/MapEditor.cs:401-414 | the old objects stay in front, so the registry never shrinks; the state stays valid |
| SelectionEditor.Transformed | src/Mapping/MapEditor/MapEditing/MapEditor.cs:200-233 | the selection and the length are kept, and every object but the selected one is unchanged |
| SelectionEditor.Effect | src/Mapping/MapEditor/MapEditing/MapEditor.cs:75-96 | one handler: only the toggle flips the edit mode; only the object handlers change the registry or the selection; only the camera keys change the camera input; the state stays valid |
| SelectionEditor.Effects | src/Mapping/MapEditor/MapEditing/MapEditor.cs:158-181 | the handlers fired in one pass, run in order, keep the state valid |
| SelectionEditor.EffectsAppend | src/Mapping/MapEditor/MapEditing/MapEditor.cs:158-181 | running one run of handlers and then another is running the two together; each part is runnable |
| SelectionEditor.EffectsKeepObjects | src/Mapping/MapEditor/MapEditing/MapEditor.cs:75-96 | a run with no object handler keeps the registry and the selection |
| SelectionEditor.DeleteUndoesSpawn | src/Mapping/MapEditor/MapEditing/MapEditor.cs:320-390 | a delete right after a successful spawn restores the registry and asks the host to delete the new entity |
| SelectionEditor.CameraTicked | src/Mapping/MapEditor/MapEditing/MapEditorCamera.cs:22-27 | after the camera tick the pitch is within [-85, 85], the inputs are reset, and the registry and selection are kept |
| SelectionEditor.MapEditor.constructor | src/Mapping/MapEditor/MapEditing/MapEditor.cs:23-98 | empty registry, no selection, the listed bindings, empty key sets, tick 0, outside the editor, translation on X/X |
| SelectionEditor.MapEditor.OnTick | src/Mapping/MapEditor/MapEditing/MapEditor.cs:100-107 | the bindings, handled set, mode and handlers run are Dispatch over the held keys; the editor ends as CameraTicked of Effects of the handlers fired, so the camera moves by Translated and turns by the clamped Rotated and its inputs reset; the tick grows by exactly 1 |
| SelectionEditor.MapEditor.OnKeyDown | src/Mapping/MapEditor/MapEditing/MapEditor.cs:109-112 | only adds the key to the held set |
| SelectionEditor.MapEditor.OnKeyUp | src/Mapping/MapEditor/MapEditing/MapEditor.cs:114-118 | removes the key from the held and the handled sets |
| SelectionEditor.MapEditor.HandleKeys | src/Mapping/MapEditor/MapEditing/MapEditor.cs:158-181 | the new bindings, handled set, mode and handlers run are Dispatch of the old ones over the held keys, and the editor ends as Effects of the handlers fired, in order |
| SelectionEditor.MapEditor.HandleKeyAt | src/Mapping/MapEditor/MapEditing/MapEditor.cs:160-180 | one pass of the loop keeps the loop's account: the dispatch so far and the effects of the handlers fired so far |
| SelectionEditor.MapEditor.HandleKey | src/Mapping/MapEditor/MapEditing/MapEditor.cs:162-179 | one loop pass is one Step; when the key fires the editor becomes Effect of its handler, otherwise it is unchanged |
| SelectionEditor.MapEditor.Fire | src/Mapping/MapEditor/MapEditing/MapEditor.cs:171-179 | the Step of a firing key, and the editor becomes Effect of its handler |
| SelectionEditor.MapEditor.MarkFired | src/Mapping/MapEditor/MapEditing/MapEditor.cs:173-177 | handled unless repeatable; stamped with the tick |
| SelectionEditor.MapEditor.Perform | src/Mapping/MapEditor/MapEditing/MapEditor.cs:75-96 | runs one handler, and the editor ends exactly as Effect says |
| SelectionEditor.MapEditor.PerformOnEditor | src/Mapping/MapEditor/MapEditing/MapEditor.cs:235-296 | the toggle, the mode change and the axis change, each ending as Effect says |
| SelectionEditor.MapEditor.PerformOnMenu | src/Mapping/MapEditor/MapEditing/MapEditor.cs:84-86 | the menu keys move the focus to the clamped neighbour or run the focused item's spawn or delete, ending as Effect says |
| SelectionEditor.MapEditor.PerformOnObjects | src/Mapping/MapEditor/MapEditing/MapEditor.cs:76-88 | spawn, delete, load, save, select and transform, each ending as Effect says |
| SelectionEditor.MapEditor.ApplyTransformation | src/Mapping/MapEditor/MapEditing/MapEditor.cs:200-233 | the selected object becomes ApplyToObject of itself, and the host gets the new position or rotation; no-op with no selection |
| SelectionEditor.MapEditor.TranslateSelectedObject | src/Mapping/MapEditor/MapEditing/MapEditor.cs:298-307 | the selected object's position grows by the delta; no-op with no selection |
| SelectionEditor.MapEditor.RotateSelectedObject | src/Mapping/MapEditor/MapEditing/MapEditor.cs:309-318 | the selected object's rotation grows by the delta; no-op with no selection |
| SelectionEditor.MapEditor.ChangeTransformationMode | src/Mapping/MapEditor/MapEditing/MapEditor.cs:235-240 | the mode becomes NextMode, and it is printed |
| SelectionEditor.MapEditor.ChangeTransformationAxis | src/Mapping/MapEditor/MapEditing/MapEditor.cs:242-267 | only the current mode's axis advances; the other is kept; the new axis is printed |
| SelectionEditor.MapEditor.ToggleMapEditor | src/Mapping/MapEditor/MapEditing/MapEditor.cs:269-296 | flips the mode; entering creates the camera, shows the menu and takes control; leaving does the reverse |
| SelectionEditor.MapEditor.SpawnObject | src/Mapping/MapEditor/MapEditing/MapEditor.cs:320-350 | the list becomes SpawnedObjects, with the new object selected on success; on failure list and selection are unchanged |
| SelectionEditor.MapEditor.SpawnSelectedObjectModelName | src/Mapping/MapEditor/MapEditing/MapEditor.cs:352-374 | spawns the clipboard name at SpawnPosition, turned to the camera's yaw |
| SelectionEditor.MapEditor.DeleteSelectedObject | src/Mapping/MapEditor/MapEditing/MapEditor.cs:376-390 | no-op with no selection; otherwise removes the object, deletes its entity and selects SelectionAfterDelete |
| SelectionEditor.MapEditor.ChangeSelectedObject | src/Mapping/MapEditor/MapEditing/MapEditor.cs:392-399 | the selection becomes SelectionAfterChange |
| SelectionEditor.MapEditor.LoadMap | src/Mapping/MapEditor/MapEditing/MapEditor.cs:401-414 | the list becomes LoadedObjects (appended, never replaced), and the last success is selected |
| SelectionEditor.MapEditor.LoadMapObjects | src/Mapping/MapEditor/MapEditing/MapEditor.cs:405-412 | the loop spawns every file entry in order, ending as LoadedPrefix of the whole file |
| SelectionEditor.MapEditor.LoadMapObject | src/Mapping/MapEditor/MapEditing/MapEditor.cs:407-411 | one loop pass keeps LoadedPrefix |
| SelectionEditor.MapEditor.SaveMap | src/Mapping/MapEditor/MapEditing/MapEditor.cs:416-427 | writes SavedMap to the fixed path and prints it |
| NamedSpawn.SpawnAppendsIffCreated | src/MapEditing/MapEditor.cs:255-268 | appends exactly one object, with the given name and pose, iff the entity is created; otherwise the list is unchanged |
| KeyEventEditor.BindingRole | src/MapEditing/MapEditor.cs:34-47 | one binding: outside iff F1; toggles iff F1; non-repeatable iff an action key; cooldown 30 for action keys, otherwise 0 |
| KeyEventEditor.BindingsRoles | src/MapEditing/MapEditor.cs:32-48 | the same for the whole table, with every binding under its own key |
| KeyEventEditor.BindingsTable | src/MapEditing/MapEditor.cs:32-48 | the table holds exactly the listed bindings |
| KeyEventEditor.StepKeepsStamped | src/MapEditing/MapEditor.cs:129 | one step changes at most a stamp |
| KeyEventEditor.DispatchKeepsStamped | src/MapEditing/MapEditor.cs:110-133 | a dispatch changes bindings only in their stamps |
| KeyEventEditor.ActionKeyCooldown | src/MapEditing/MapEditor.cs:119-129 | an action key fired at t does not fire again while held, and not before t + 31 even after key-up |
| KeyEventEditor.HeldActionKeyBlocked | src/MapEditing/MapEditor.cs:122 | a handled action key does not fire |
| KeyEventEditor.NoEarlyToggle | src/MapEditing/MapEditor.cs:119-122 | from fresh bindings outside the editor, nothing fires on ticks 0 to 30 |
| KeyEventEditor.TestObjectPose | src/MapEditing/MapEditor.cs:276-277 | the hit position and surface normal on a hit; otherwise the camera position and (0, 0, camera yaw) |
| KeyEventEditor.Toggled | src/MapEditing/MapEditor.cs:204-229 | flips the edit mode; entering places the camera at the player's pose; the list is kept |
| KeyEventEditor.TestSpawned | src/MapEditing/MapEditor.cs:270-278 | the old objects stay in front and at most one is added, named "P_TRUNK04X" |
| KeyEventEditor.Transformed | src/MapEditing/MapEditor.cs:135-168 | the length and every object but the last are kept |
| KeyEventEditor.Effect | src/MapEditing/MapEditor.cs:34-47 | one handler: only the toggle flips the edit mode; only the spawn adds an object, at most one; only the spawn and the transformation touch the list; only the camera keys change the camera input |
| KeyEventEditor.Effects | src/MapEditing/MapEditor.cs:110-133 | the handlers fired in one pass, run in order, keep the state valid |
| KeyEventEditor.EffectsGrowBySpawns | src/MapEditing/MapEditor.cs:34-47 | over a run of handlers the list never shrinks and grows by at most one object per spawn handler |
| KeyEventEditor.EffectsAppend | src/MapEditing/MapEditor.cs:110-133 | running one run of handlers and then another is running the two together |
| KeyEventEditor.CameraTicked | src/MapEditing/MapEditorCamera.cs:19-24 | after the camera tick the inputs are reset, the list and the edit mode are kept, and a tick without input leaves the camera where it is |
| KeyEventEditor.MapEditor.constructor | src/MapEditing/MapEditor.cs:17-49 | empty list, the listed bindings, empty sets, tick 0, outside the editor, no camera |
| KeyEventEditor.MapEditor.OnTick | src/MapEditing/MapEditor.cs:51-56 | Dispatch over the held keys; the editor ends as CameraTicked of Effects of the handlers fired, so the camera moves by Translated and turns by the unclamped Rotated and its inputs reset; the tick grows by 1 |
| KeyEventEditor.MapEditor.OnKeyDown | src/MapEditing/MapEditor.cs:58-61 | adds the key to the held set |
| KeyEventEditor.MapEditor.OnKeyUp | src/MapEditing/MapEditor.cs:63-67 | removes the key from both sets |
| KeyEventEditor.MapEditor.HandleKeys | src/MapEditing/MapEditor.cs:110-133 | the bindings, handled set, mode and handlers run are Dispatch, with the same gate and stamping as the newest editor; the editor ends as Effects of the handlers fired |
| KeyEventEditor.MapEditor.HandleKey | src/MapEditing/MapEditor.cs:114-131 | one loop pass is one Step; when the key fires the editor becomes Effect of its handler, otherwise it is unchanged |
| KeyEventEditor.MapEditor.Fire | src/MapEditing/MapEditor.cs:123-131 | the Step of a firing key, and the editor becomes Effect of its handler |
| KeyEventEditor.MapEditor.MarkFired | src/MapEditing/MapEditor.cs:125-129 | handled unless repeatable; stamped with the tick |
| KeyEventEditor.MapEditor.Perform | src/MapEditing/MapEditor.cs:34-47 | runs one handler, and the editor ends exactly as Effect says |
| KeyEventEditor.MapEditor.ApplyTransformation | src/MapEditing/MapEditor.cs:135-168 | the list becomes ApplyToLast with speeds 0.025 and 1.0, and the host gets the new pose of the last object |
| KeyEventEditor.MapEditor.TranslateLastSpawnedObject | src/MapEditing/MapEditor.cs:231-241 | the last object's position grows by the delta; no-op on an empty list |
| KeyEventEditor.MapEditor.RotateLastSpawnedObject | src/MapEditing/MapEditor.cs:243-253 | the last object's rotation grows by the delta; no-op on an empty list |
| KeyEventEditor.MapEditor.ChangeTransformationMode | src/MapEditing/MapEditor.cs:170-175 | NextMode, printed |
| KeyEventEditor.MapEditor.ChangeTransformationAxis | src/MapEditing/MapEditor.cs:177-202 | only the current mode's axis advances |
| KeyEventEditor.MapEditor.ToggleMapEditor | src/MapEditing/MapEditor.cs:204-229 | flips the mode; enter or exit the camera; control switched; printed |
| KeyEventEditor.MapEditor.SpawnObject | src/MapEditing/MapEditor.cs:255-268 | the list becomes SpawnedObjects; a result exactly on success |
| KeyEventEditor.MapEditor.SpawnTestObject | src/MapEditing/MapEditor.cs:270-278 | spawns "P_TRUNK04X" at TestObjectPose |
| PollingEditor.InitialInputs | src/MapEditor.cs:152-166 | twelve bindings |
| PollingEditor.InitialInputsRoles | src/MapEditor.cs:154-165 | the first four have cooldown 30 and the rest 0; only F1 works outside and toggles; keys distinct; all unused |
| PollingEditor.CameraBindingsNeedEditor | src/MapEditor.cs:160-165 | no camera binding works outside the editor |
| PollingEditor.PollStep | src/MapEditor.cs:179-187 | one pass keeps the number of bindings |
| PollingEditor.Poll | src/MapEditor.cs:177-188 | the number of bindings is kept |
| PollingEditor.OneTick | src/MapEditor.cs:175-189 | the number of bindings is kept |
| PollingEditor.PollEffect | src/MapEditor.cs:177-188 | bindings not yet visited are unchanged; every binding is unchanged or stamped with the tick; at most one handler per binding is appended |
| PollingEditor.PollStampAt | src/MapEditor.cs:179-185 | a binding ends the pass stamped with the tick iff it fired when visited, otherwise with its old stamp |
| PollingEditor.TickState | src/MapEditor.cs:169-173 | the number of bindings is kept over ticks |
| PollingEditor.OneTickStamp | src/MapEditor.cs:182-185 | one pass keeps everything but the stamp, which never moves back |
| PollingEditor.StampMonotone | src/MapEditor.cs:182-185 | over any span of ticks a stamp only moves forward |
| PollingEditor.CooldownSpacing | src/MapEditor.cs:182 | two ticks in which a binding with cooldown c fires are more than c apart |
| PollingEditor.ActionBindingsSpacing | src/MapEditor.cs:154-157 | each cooldown-30 binding fires at most once in any 31 consecutive ticks |
| PollingEditor.NoEarlyToggle | src/MapEditor.cs:179-183 | from fresh bindings outside the editor, nothing fires on ticks 0 to 30 |
| PollingEditor.TestObjectPose | src/MapEditor.cs:346-352 | at the point around the player, with yaw randomDouble * 360, which is in [0, 360) |
| PollingEditor.Toggled | src/MapEditor.cs:273-305 | flips the edit mode; entering places the camera at the player's pose; the list is kept |
| PollingEditor.TestSpawned | src/MapEditor.cs:346-352 | the old objects stay in front and at most one is added, named "P_TRUNK04X" and at the point around the player |
| PollingEditor.Transformed | src/MapEditor.cs:204-237 | the length and every object but the last are kept |
| PollingEditor.CameraMoved | src/MapEditor.cs:191-202 | the camera keeps its rotation and exists exactly when it did; list and edit mode are kept; a zero translation changes nothing |
| PollingEditor.Effect | src/MapEditor.cs:154-165 | one handler: only the toggle flips the edit mode; only the spawn adds an object, at most one; only the spawn and the transformation touch the list; only the toggle and the camera keys touch the camera |
| PollingEditor.Effects | src/MapEditor.cs:175-189 | the handlers fired in one pass, run in order, keep the state valid |
| PollingEditor.EffectsGrowBySpawns | src/MapEditor.cs:154-165 | over a run of handlers the list never shrinks and grows by at most one object per spawn handler |
| PollingEditor.EffectsAppend | src/MapEditor.cs:175-189 | running one run of handlers and then another is running the two together |
| PollingEditor.MapEditor.constructor | src/MapEditor.cs:141-167 | the twelve bindings in order, empty list, outside the editor, no camera |
| PollingEditor.MapEditor.OnTick | src/MapEditor.cs:169-173 | the poll state becomes OneTick of the old one; the editor ends as Effects of the handlers fired; the tick grows by 1 |
| PollingEditor.MapEditor.HandleInputs | src/MapEditor.cs:175-189 | the array-order pass is OneTick, and the editor ends as Effects of the handlers fired, in order |
| PollingEditor.MapEditor.HandleInput | src/MapEditor.cs:179-187 | one loop pass is PollStep; when the binding fires the editor becomes Effect of its handler, otherwise it is unchanged |
| PollingEditor.MapEditor.MarkFired | src/MapEditor.cs:185-186 | stamps the binding with the tick and records its handler |
| PollingEditor.MapEditor.Perform | src/MapEditor.cs:154-165 | runs one handler, and the editor ends exactly as Effect says; a camera move needs the editor, where its binding is the only caller |
| PollingEditor.MapEditor.MoveCamera | src/MapEditor.cs:191-202 | the camera position becomes Translated with modifier 1 |
| PollingEditor.MapEditor.ApplyTransformation | src/MapEditor.cs:204-237 | the list becomes ApplyToLast with speeds 0.1 and 1.0 |
| PollingEditor.MapEditor.TranslateLastSpawnedObject | src/MapEditor.cs:307-317 | the last object's position grows by the delta; no-op on an empty list |
| PollingEditor.MapEditor.RotateLastSpawnedObject | src/MapEditor.cs:319-329 | the last object's rotation grows by the delta; no-op on an empty list |
| PollingEditor.MapEditor.ChangeTransformationMode | src/MapEditor.cs:239-244 | NextMode, printed |
| PollingEditor.MapEditor.ChangeTransformationAxis | src/MapEditor.cs:246-271 | only the current mode's axis advances |
| PollingEditor.MapEditor.ToggleMapEditor | src/MapEditor.cs:273-284 | flips the edit mode, so two toggles restore it; enters or exits |
| PollingEditor.MapEditor.OnMapEditorModeEnter | src/MapEditor.cs:286-296 | an active camera at the player's pose; scripted camera; no control; printed |
| PollingEditor.MapEditor.OnMapEditorModeExit | src/MapEditor.cs:298-305 | camera deactivated and deleted; control back; printed |
| PollingEditor.MapEditor.SpawnObject | src/MapEditor.cs:331-344 | the list becomes SpawnedObjects; a result exactly on success |
| PollingEditor.MapEditor.SpawnTestObject | src/MapEditor.cs:346-352 | spawns "P_TRUNK04X" at TestObjectPose |
| Ragdoll.WrapInt32 | src/RagdollRedemption2.cs:21 | the Int32 result of unchecked subtraction: in range, unchanged when in range, congruent mod 2^32 |
| Ragdoll.RagdollOnDrop | src/RagdollRedemption2.cs:21-24 | for non-negative healths, a ragdoll iff previous - current >= 20, so equal or rising health never triggers |
| Ragdoll.FirstTick | src/RagdollRedemption2.cs:9-21 | from the initial 0, the first tick triggers iff the health is at most -20, except for the lowest Int32 |
| Ragdoll.WrapAroundRise | src/RagdollRedemption2.cs:21 | a rise from the lowest Int32 to 2^31 - 100 wraps and triggers |
| Ragdoll.RagdollRedemption2.constructor | src/RagdollRedemption2.cs:9-15 | the stored health starts at 0 |
| Ragdoll.RagdollRedemption2.OnTick | src/RagdollRedemption2.cs:17-31 | at most one ragdoll request, sent iff ShouldRagdoll; the stored health becomes the health just read |
| RedHot.Clamp | src/RedHotRedemption2.cs:55-58 | at least min, and at most max when min <= max |
| RedHot.ClampAgreesWithMathUtility | src/RedHotRedemption2.cs:55-58 | with ordered bounds it equals the editors' clamp |
| RedHot.ClampInvertedBounds | src/RedHotRedemption2.cs:55-58 | with min > max the result is min |
| RedHot.TimeScale | src/RedHotRedemption2.cs:29-31 | always within [0.25, 1]; 1 within 0.75 s of the stamp |
| RedHot.TimeScaleFollowsSpeed | src/RedHotRedemption2.cs:29-31 | away from a shot: the speed itself within [0.25, 1]; 1 for speed >= 1; 0.25 for speed <= 0.25 |
| RedHot.ShootingRestoresNormalSpeed | src/RedHotRedemption2.cs:24-30 | a shot this tick gives scale 1 when the two clock reads are at most 0.75 s apart |
| RedHot.RedHotRedemption2.constructor | src/RedHotRedemption2.cs:11-17 | stamped at construction time, subscribed |
| RedHot.RedHotRedemption2.OnTick | src/RedHotRedemption2.cs:19-38 | alive: a shot restamps, and the scale is TimeScale in [0.25, 1]; dead: unsubscribe and scale 1 |

## Left out

- Mouse-driven camera rotation (`HandleMapEditorCameraRotation` in the two newer editors) is not modelled. It reads the cursor and the screen through the host.
- `DrawSelectedObjectIndicator` and the drawing of menu items are not modelled. They only render text.
- The ray's direction in the newest editor's clipboard spawn is not modelled. It is trigonometry; the ray's result enters as a host value.
- Cosine and sine are uninterpreted functions, so no property depends on their values.
- The clipboard worker thread (`ThreadedClipboardUtility`) is not modelled. The clipboard text is a host value.
- JSON reading and writing of the map file, and the line-based persistence manager, are not modelled. The loaded document is a host value, and the saved one is logged.
- MapObjectCodec.Serialize and MapObjectCodec.Deserialize take the culture-specific float rendering and parsing as parameters. The round trip is proved only when these parameters invert each other.
- `int.TryParse` with `NumberStyles.HexNumber` also ignores trailing NUL characters. ModelNames.TryParseHexInt32 does not model that case.
- The `long` tick counters are unbounded integers. Overflow after 2^63 ticks is not modelled.
- Object creation by the host is a pure function of the model and position, so creating the same model twice gives the same entity. Entity identity across calls is not modelled.
- The older editors' `DebugPrint` calls are not modelled.
- The point `Around(3.0f)` near the player and `Random.NextDouble()` in the oldest editor's test spawn are host values.
- The enumeration order of the held-key set is unspecified in C#. The order is a parameter of HandleKeys and OnTick.
- SelectionEditor.MapEditor.LoadMap requires every loaded entry to have a model name, because a null name makes the source's spawn throw. The callers (OnTick, HandleKeys, HandleKey, Fire, Perform and PerformOnObjects) carry this requirement only when LoadMap is among the handlers that fire.
- SelectionEditor.MapEditor.OnTick requires a screen resolution with no zero side, for the menu layout. In C# a zero side gives an infinite or NaN position rather than an error, which the model does not represent.
- SelectionEditor.MapEditor.OnTick, KeyEventEditor.MapEditor.OnTick and KeyEventEditor.MapEditor.HandleKeys require the key order to list each held key once, as enumerating a set does.
- MenuFramework.Menu.NavigateMenu takes the navigation direction's integer value directly. It requires a non-empty menu, because the source indexes an empty list. The bindings assume `MenuNavigationDirection.Previous` is -1 and `Next` is 1; `MenuNavigationDirection` is not part of this model.
- ModelNames.StartsWithHexPrefix is an ordinal test for "0x". C# `StartsWith(string)` compares with the current culture, which this model does not represent.
- `Exit` deletes the camera but keeps the reference, as the source does. A later `Exit` is modelled only through its requirement that a camera exists.
- SelectionEditor.MapEditor.Valid and KeyEventEditor.MapEditor.Valid do not include the stamped-bindings invariant. It is carried by the lemmas DispatchKeepsStamped and the HandleKeys postcondition instead.
- PollingEditor.MapEditor.MoveCamera ignores its rotation argument, as the source does.
- The older editors' `LoadMap` and `SaveMap` are empty in the source and are not modelled.
- RedHot.RedHotRedemption2.OnTick takes the two `DateTime.UtcNow` reads of one tick as two separate parameters. Time is in seconds as a real.
- Ragdoll.RagdollRedemption2.OnTick takes the health the host reports as an Int32 parameter.
- The tick subscriptions and the script bootstrap (`Tick += OnTick`, `Interval`) are not modelled, apart from RedHot's unsubscription flag.
- SelectionEditor.MapEditor.ToggleMapEditor and KeyEventEditor.MapEditor.ToggleMapEditor: the camera keeps its own log of host calls, apart from the editor's. So the model does not say that the switch to the scripted camera comes before `SetCanControlCharacter` and the print, as it does in the source. The oldest editor has one log and keeps that order.
- PollingEditor.CameraMoved leaves the state unchanged when there is no camera, where C# would dereference null. Its bindings only fire in the editor, where the camera exists, so this case is never reached from a tick.
- SelectionEditor.SpawnedObjects, SelectionEditor.LoadedObjects and Transformation.ApplyToLast state only lengths and kept elements in their own contracts. What they append or change is stated by SpawnAppendsOrKeeps, LoadMapAppends and ApplyToLastOnlyLast.
- SelectionEditor.Effects, KeyEventEditor.Effects and PollingEditor.Effects state only validity in their own contracts. What a run does is stated by EffectsAppend, EffectsGrowBySpawns and EffectsKeepObjects, and by each handler's Effect.
