/** The `Instruments` enumeration: the four stems the separation model produces. */
module Instruments {
  import opened Wrappers

  datatype Instrument = Drums | Vocals | Bass | Other

  /** The members in declaration order, as `list(Instruments)` yields them. */
  const Catalog: seq<Instrument> := [Drums, Vocals, Bass, Other]

  /** `Instruments(x).value` */
  function Value(i: Instrument): int {
    match i
    case Drums => 1
    case Vocals => 2
    case Bass => 3
    case Other => 4
  }

  /** `Instruments(x).name` */
  function Name(i: Instrument): string {
    match i
    case Drums => "drums"
    case Vocals => "vocals"
    case Bass => "bass"
    case Other => "other"
  }

  /** An id a request may name: the value of one of the four instruments. */
  type InstrumentId = v: int | 1 <= v <= 4 witness 1

  /** `Instruments(v)`, which raises `ValueError` for a value outside the enumeration. */
  function FromValue(v: int): (r: Option<Instrument>)
    ensures r.Some? <==> 1 <= v <= 4
    ensures r.Some? ==> Value(r.value) == v
  {
    if v == 1 then Some(Drums)
    else if v == 2 then Some(Vocals)
    else if v == 3 then Some(Bass)
    else if v == 4 then Some(Other)
    else None
  }

  /** The values the enumeration holds are exactly the ids 1 to 4, in order. */
  lemma CatalogValues()
    ensures |Catalog| == 4
    ensures forall k | 0 <= k < 4 :: Value(Catalog[k]) == k + 1
    ensures forall i :: i in Catalog
  {
    forall i ensures i in Catalog {
      match i
      case Drums => assert Catalog[0] == i;
      case Vocals => assert Catalog[1] == i;
      case Bass => assert Catalog[2] == i;
      case Other => assert Catalog[3] == i;
    }
  }

  /** Converting a member to its value and back gives the member. */
  lemma ValueRoundTrip(i: Instrument)
    ensures FromValue(Value(i)) == Some(i)
  {
  }

  /** `Instruments(x).name` for an id that passed validation. */
  function NameOf(id: InstrumentId): string {
    Name(FromValue(id).value)
  }

  /** The name of the k-th member, in declaration order. */
  function NameAt(k: nat): string
    requires k < 4
  {
    Name(Catalog[k])
  }

  /**
   * The position of the member called `name` in the enumeration, found as
   * the lookup by name in the item's completed tracks finds it.
   */
  function IndexOfName(name: string): (r: Option<nat>)
    ensures r.Some? ==> r.value < 4 && NameAt(r.value) == name
    ensures r.None? <==> forall k | 0 <= k < 4 :: NameAt(k) != name
  {
    if name == "drums" then Some(0)
    else if name == "vocals" then Some(1)
    else if name == "bass" then Some(2)
    else if name == "other" then Some(3)
    else None
  }

  predicate IsInstrumentName(name: string) {
    IndexOfName(name).Some?
  }

  /** Distinct members have distinct names, so a name identifies its member. */
  lemma NamesDistinct(a: Instrument, b: Instrument)
    ensures Name(a) == Name(b) ==> a == b
  {
  }

  /**
   * The names requested by a list of validated ids, kept as a set since
   * the source only checks them for membership: exactly the names of the listed ids.
   */
  function RequestedNames(ids: seq<InstrumentId>): (r: set<string>)
    ensures forall k | 0 <= k < |ids| :: NameOf(ids[k]) in r
    ensures forall n | n in r :: exists k | 0 <= k < |ids| :: n == NameOf(ids[k])
  {
    set k | 0 <= k < |ids| :: NameOf(ids[k])
  }
}
