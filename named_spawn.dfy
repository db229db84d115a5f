/**
 * How the two older editors spawn an object (MapEditing/MapEditor.cs and
 * MapEditor.cs, both `SpawnObject(hashValue, position, rotation)`): the host
 * is asked for the model by name, the rotation is sent to the host whatever
 * it answers, and the object joins the end of the list only when the host
 * created its entity.
 */
module NamedSpawn {
  import opened Wrappers
  import opened Geometry
  import opened MapObjects
  import opened HostCalls

  /** The list after a spawn: the new object at the end when the host created its entity, otherwise unchanged. */
  function SpawnedObjects(objects: seq<MapObject>, hashValue: string, position: Vector3, rotation: Vector3,
                          createObject: (ModelRef, Vector3) -> Option<EntityHandle>): seq<MapObject> {
    var entity := createObject(ByName(hashValue), position);
    if entity.Some? then objects + [MapObject(hashValue, position, rotation, entity)] else objects
  }

  /** The host calls of a spawn: the rotation is set even on a null entity, then the outcome is printed. */
  function SpawnCalls(hashValue: string, position: Vector3, rotation: Vector3,
                      createObject: (ModelRef, Vector3) -> Option<EntityHandle>): seq<HostCall> {
    var entity := createObject(ByName(hashValue), position);
    [SetEntityRotation(entity, rotation),
     UserFriendlyPrint((if entity.Some? then "Created " else "Failed to create ") + hashValue)]
  }

  /**
   * A spawn appends exactly one object, with the given name and pose and a
   * host entity, exactly when the host creates the entity; otherwise the
   * list is unchanged.
   */
  lemma SpawnAppendsIffCreated(objects: seq<MapObject>, hashValue: string, position: Vector3, rotation: Vector3,
                               createObject: (ModelRef, Vector3) -> Option<EntityHandle>)
    ensures var r := SpawnedObjects(objects, hashValue, position, rotation, createObject);
      var created := createObject(ByName(hashValue), position).Some?;
      (created <==> |r| == |objects| + 1) &&
      (created ==> r[..|objects|] == objects &&
                   r[|objects|].modelName == hashValue && r[|objects|].position == position &&
                   r[|objects|].rotation == rotation && r[|objects|].entity.Some?) &&
      (!created ==> r == objects)
  {
    var r := SpawnedObjects(objects, hashValue, position, rotation, createObject);
    if createObject(ByName(hashValue), position).Some? {
      assert r[..|objects|] == objects;
    }
  }
}
