/**
 * Output assembly: an OutputBuilder carries the metadata of one measured
 * quantity and, when built against a sensor entity, spawns one output
 * entity holding the back-reference to that sensor, the metadata and a
 * default reading.  The builder is moved through its calls (`with_type`
 * and `build` take it by value), so it is a value here.
 */
module Outputs {

  import opened Descriptors
  import opened Store

  /** The components `build` gives an output entity. */
  ghost predicate IsOutputOf(c: Components, sensor: Entity, m: Metadata)
  {
    && c.Keys == {OutputKind, MetadataKind, ReadingKind}
    && c[OutputKind] == Output(sensor)
    && c[MetadataKind] == Meta(m)
    && c[ReadingKind].ReadingOf?
  }

  datatype OutputBuilder = OutputBuilder(metadata: Metadata)
  {
    /** `OutputBuilder::new`: an output without any type. */
    static function New(): (b: OutputBuilder)
      ensures b.metadata == Metadata(UndefinedId, "Undefined", "N/A")
    {
      OutputBuilder(MetadataOf(UndefinedType))
    }

    /** `with_type`: the builder now carries the given type's metadata, whatever it carried before. */
    function WithType(t: Descriptor): (b: OutputBuilder)
      ensures b.metadata.id == Id(t) && b.metadata.name == Name(t) && b.metadata.description == Description(t)
    {
      this.(metadata := MetadataOf(t))
    }

    /**
     * `build`: spawns exactly one new entity, distinct from every existing
     * one, with Output(sensor), the builder's metadata and a fresh reading
     * of 0.0; no existing entity changes.
     */
    method Build(sensor: Entity, world: World) returns (e: Entity)
      requires world.Valid()
      modifies world
      ensures world.Valid()
      ensures e !in old(world.entities)
      ensures e in world.entities && world.entities == old(world.entities)[e := world.entities[e]]
      ensures IsOutputOf(world.entities[e], sensor, metadata)
      ensures fresh(world.entities[e][ReadingKind].reading)
      ensures world.entities[e][ReadingKind].reading.value == 0.0
    {
      var reading := new Reading.Default();
      var bundle := map[OutputKind := Output(sensor), MetadataKind := Meta(metadata), ReadingKind := ReadingOf(reading)];
      e := world.Spawn(bundle);
    }
  }
}
