/**
 * The effects the editors have on the game host, recorded in the order they
 * are issued, and the scripted camera object the host hands out. The host's
 * own behaviour (rendering, physics, the log on screen) is not modelled.
 */
module HostCalls {
  import opened Wrappers
  import opened Geometry
  import opened MapObjects
  import opened SerializableMapObjects

  datatype HostCall =
    | UserFriendlyPrint(message: string)
    | SetEntityPosition(entity: Option<EntityHandle>, position: Vector3)
    | SetEntityRotation(entity: Option<EntityHandle>, rotation: Vector3)
    | DeleteEntity(deletedEntity: EntityHandle)
    | SetCanControlCharacter(canControl: bool)
    | EnterScriptedCamera
    | ExitScriptedCamera
    | PersistMap(mapFilePath: string, savedMap: SerializableMap)

  /**
   * A camera created by `World.CreateCamera(position, rotation, fieldOfView)`:
   * its pose, whether it is the active one, and whether it has been deleted.
   */
  datatype HostCamera = HostCamera(position: Vector3, rotation: Vector3, fieldOfView: real, isActive: bool, isDeleted: bool)

  /** The position a camera reference reports: the camera's own, or the zero vector when there is none. */
  function PositionOf(camera: Option<HostCamera>): Vector3 {
    if camera.Some? then camera.value.position else Zero
  }

  /** The rotation a camera reference reports: the camera's own, or the zero vector when there is none. */
  function RotationOf(camera: Option<HostCamera>): Vector3 {
    if camera.Some? then camera.value.rotation else Zero
  }

  /** The field of view every editor camera is created with. */
  const EditorCameraFieldOfView: real := 75.0
}
