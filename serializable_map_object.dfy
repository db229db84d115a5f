/**
 * SerializableMapObject: the flat record that persists a MapObject as a model
 * name and six scalars, and SerializableMap, the document that holds them.
 */
module SerializableMapObjects {
  import opened Wrappers
  import opened Geometry
  import opened MapObjects

  /** The model name is a nullable string; the six scalars are floats. */
  datatype SerializableMapObject = SerializableMapObject(
    modelName: Option<string>,
    positionX: real, positionY: real, positionZ: real,
    rotationX: real, rotationY: real, rotationZ: real)
  {
    /** The `Position` getter rebuilds the vector from the flat fields. */
    function Position(): Vector3 {
      Vector3(positionX, positionY, positionZ)
    }

    /** The `Rotation` getter rebuilds the vector from the flat fields. */
    function Rotation(): Vector3 {
      Vector3(rotationX, rotationY, rotationZ)
    }
  }

  datatype SerializableMap = SerializableMap(
    mapName: Option<string>,
    authorName: Option<string>,
    mapDescription: Option<string>,
    mapObjects: seq<SerializableMapObject>)

  /** The parameterless constructor: no model name, every scalar zero. */
  function EmptySerializableMapObject(): (r: SerializableMapObject)
    ensures r.modelName == None
    ensures r.Position() == Zero && r.Rotation() == Zero
  {
    SerializableMapObject(None, 0.0, 0.0, 0.0, 0.0, 0.0, 0.0)
  }

  /**
   * The constructor from a MapObject: copies the model name and flattens the
   * two vectors; the entity is not kept. Reading the vectors back gives the
   * object's own position and rotation.
   */
  function FromMapObject(mapObject: MapObject): (r: SerializableMapObject)
    ensures r.modelName == Some(mapObject.modelName)
    ensures r.Position() == mapObject.position
    ensures r.Rotation() == mapObject.rotation
  {
    SerializableMapObject(
      Some(mapObject.modelName),
      mapObject.position.x, mapObject.position.y, mapObject.position.z,
      mapObject.rotation.x, mapObject.rotation.y, mapObject.rotation.z)
  }

  /** `mapObjects.Select(mapObject => new SerializableMapObject(mapObject))` */
  function FromMapObjects(mapObjects: seq<MapObject>): (r: seq<SerializableMapObject>)
    ensures |r| == |mapObjects|
    ensures forall i :: 0 <= i < |r| ==> r[i] == FromMapObject(mapObjects[i])
  {
    if mapObjects == [] then [] else [FromMapObject(mapObjects[0])] + FromMapObjects(mapObjects[1..])
  }
}
