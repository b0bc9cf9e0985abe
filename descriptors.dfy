/**
 * The self-description protocol: any typed object that can describe itself
 * exposes a numeric id, a display name and a description, and `metadata`
 * packages the three into one Metadata value.  The open set of describing
 * types is closed here into one datatype of descriptor kinds: the
 * distinguished UndefinedType, the three OutputType measurement kinds, and
 * any other describing type (a sensor driver, a display) as a Custom value.
 */
module Descriptors {

  import opened Wrappers

  /** An unsigned 8-bit id, as the protocol's `u8`. */
  type U8 = x: int | 0 <= x < 256

  /** The id reserved for "no type assigned". */
  const UndefinedId: U8 := 255

  /** The Metadata component: identity of a sensor or of one of its outputs. */
  datatype Metadata = Metadata(id: U8, name: string, description: string)

  /** The measurement kinds an output can carry. */
  datatype OutputType = Temperature | Humidity | Moisture

  /** Everything that can describe itself. */
  datatype Descriptor =
    | UndefinedType
    | OfOutput(output: OutputType)
    | Custom(customId: U8, customName: string, customDescription: string)

  /** The default OutputType. */
  function DefaultOutputType(): (t: OutputType)
    ensures Id(OfOutput(t)) == 0 && Name(OfOutput(t)) == "Temperature"
  {
    Temperature
  }

  /** `id()`: the output kinds use 0 to 2; among built-in types only UndefinedType answers 255. */
  function Id(d: Descriptor): (i: U8)
    ensures d.OfOutput? ==> i < 3
    ensures !d.Custom? ==> (i == UndefinedId <==> d.UndefinedType?)
  {
    match d
    case UndefinedType => UndefinedId
    case OfOutput(t) => (match t case Temperature => 0 case Humidity => 1 case Moisture => 2)
    case Custom(i, _, _) => i
  }

  /** `name()`: among built-in types only UndefinedType answers "Undefined"; no built-in name is empty. */
  function Name(d: Descriptor): (n: string)
    ensures !d.Custom? ==> (n == "Undefined" <==> d.UndefinedType?)
    ensures !d.Custom? ==> |n| > 0
  {
    match d
    case UndefinedType => "Undefined"
    case OfOutput(t) =>
      (match t case Temperature => "Temperature" case Humidity => "Humidity" case Moisture => "Moisture")
    case Custom(_, n, _) => n
  }

  /** `description()`: among built-in types only UndefinedType answers "N/A". */
  function Description(d: Descriptor): (s: string)
    ensures !d.Custom? ==> (s == "N/A" <==> d.UndefinedType?)
  {
    match d
    case UndefinedType => "N/A"
    case OfOutput(_) => "Description"
    case Custom(_, _, s) => s
  }

  /** The derived `metadata()`: the descriptor's three answers, packaged. */
  function MetadataOf(d: Descriptor): (m: Metadata)
    ensures m.id == Id(d) && m.name == Name(d) && m.description == Description(d)
  {
    Metadata(Id(d), Name(d), Description(d))
  }

  /** UndefinedType describes itself as (255, "Undefined", "N/A"). */
  lemma UndefinedMetadata()
    ensures MetadataOf(UndefinedType) == Metadata(255, "Undefined", "N/A")
  {
  }

  /** The ids of the output kinds are 0, 1 and 2, pairwise distinct. */
  lemma OutputIdsDistinct(a: OutputType, b: OutputType)
    ensures Id(OfOutput(a)) == (match a case Temperature => 0 case Humidity => 1 case Moisture => 2)
    ensures a != b ==> Id(OfOutput(a)) != Id(OfOutput(b))
  {
  }

  /** Every output kind names itself after its variant and carries "Description". */
  lemma OutputNames(t: OutputType)
    ensures Name(OfOutput(t)) == (match t case Temperature => "Temperature" case Humidity => "Humidity" case Moisture => "Moisture")
    ensures Description(OfOutput(t)) == "Description"
  {
  }

  /** An untyped output (id 255) is never confused with a typed one. */
  lemma UndefinedIdIsNotAnOutputId(t: OutputType)
    ensures MetadataOf(UndefinedType).id != MetadataOf(OfOutput(t)).id
  {
  }

  /**
   * The metadata of a built-in descriptor determines it: reading a Metadata
   * component back is enough to tell which kind it came from.
   */
  function KindOfMetadata(m: Metadata): (d: Option<Descriptor>)
    ensures d.Some? ==> MetadataOf(d.value) == m && !d.value.Custom?
  {
    if m == MetadataOf(UndefinedType) then Some(UndefinedType)
    else if m == MetadataOf(OfOutput(Temperature)) then Some(OfOutput(Temperature))
    else if m == MetadataOf(OfOutput(Humidity)) then Some(OfOutput(Humidity))
    else if m == MetadataOf(OfOutput(Moisture)) then Some(OfOutput(Moisture))
    else None
  }

  lemma {:induction false} BuiltinMetadataRoundTrip(d: Descriptor)
    requires !d.Custom?
    ensures KindOfMetadata(MetadataOf(d)) == Some(d)
  {
    match d
    case UndefinedType =>
    case OfOutput(t) =>
      match t
      case Temperature =>
      case Humidity =>
        assert MetadataOf(d) != MetadataOf(OfOutput(Temperature));
      case Moisture =>
        assert MetadataOf(d) != MetadataOf(OfOutput(Temperature));
        assert MetadataOf(d) != MetadataOf(OfOutput(Humidity));
  }
}
