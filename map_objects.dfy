/**
 * The placed-object record shared by the editor snapshots: MapObject (with
 * ModelName in the newest editor, HashValue in the older ones) and
 * SpawnedObject have the same four fields.
 */
module MapObjects {
  import opened Wrappers
  import opened Geometry

  /** An opaque reference to an entity owned by the host simulation. */
  datatype EntityHandle = EntityHandle(id: nat)

  /**
   * A placed object: the model it was created from, its world pose (rotation
   * in Euler degrees) and the host entity behind it. The entity is absent in a
   * record built by the line deserializer.
   */
  datatype MapObject = MapObject(modelName: string, position: Vector3, rotation: Vector3, entity: Option<EntityHandle>)

  /** How an object creation names its model: by name, or by a numeric model hash. */
  datatype ModelRef = ByName(name: string) | ByHash(hash: int)

  /** The host's answer to a ray cast into the world. */
  datatype RaycastHit = RaycastHit(didHit: bool, hitPosition: Vector3, surfaceNormal: Vector3)

  /** Every object of a registry is backed by a host entity. */
  ghost predicate AllBacked(objects: seq<MapObject>) {
    forall i :: 0 <= i < |objects| ==> objects[i].entity.Some?
  }
}
