/** The dataset registry: a fixed, case-sensitive table from dataset names
    to adapter classes, and the lookup that constructs an adapter by name. */
module Registry {
  import opened Wrappers

  /** The adapter classes the table refers to. Only MOT20 is modelled
      further (module Mot20Adapter); the others are names here. */
  datatype AdapterKind =
    | Market1501
    | DukeMTMCreID
    | MSMT17
    | OccDukeMTMCreID
    | VeRi
    | VehicleID
    | MOT20

  datatype RegistryError = UnknownDataset(name: string)  // KeyError: Unknown dataset: <name>

  /** A constructor call `init_dataset` makes: the adapter class and the
      arguments it was handed, passed on as they came. */
  datatype AdapterCall<A> = AdapterCall(kind: AdapterKind, args: A)

  /** The factory table. It is a constant: no operation adds, removes or
      rebinds a key. The MOT20 entry is keyed "mot repairing20". */
  const Factory: map<string, AdapterKind> := map[
    "market1501" := Market1501,
    "dukemtmc" := DukeMTMCreID,
    "msmt17" := MSMT17,
    "occ_duke" := OccDukeMTMCreID,
    "veri" := VeRi,
    "VehicleID" := VehicleID,
    "mot repairing20" := MOT20
  ]

  /** `get_names()`: the registered names. */
  function GetNames(): (names: set<string>)
    ensures names == {"market1501", "dukemtmc", "msmt17", "occ_duke", "veri", "VehicleID", "mot repairing20"}
    ensures |names| == 7
  {
    Factory.Keys
  }

  /** The one name under which each adapter class is registered. */
  function KeyOf(kind: AdapterKind): (name: string)
    ensures name in Factory && Factory[name] == kind
  {
    match kind
    case Market1501 => "market1501"
    case DukeMTMCreID => "dukemtmc"
    case MSMT17 => "msmt17"
    case OccDukeMTMCreID => "occ_duke"
    case VeRi => "veri"
    case VehicleID => "VehicleID"
    case MOT20 => "mot repairing20"
  }

  /** `init_dataset(name, *args, **kwargs)`: an unknown name is an error that
      carries the name; a registered one calls its adapter with the
      arguments unchanged. */
  function InitDataset<A>(name: string, args: A): (r: Result<AdapterCall<A>, RegistryError>)
    ensures r.Failure? <==> name !in GetNames()
    ensures r.Failure? ==> r.error == UnknownDataset(name)
    ensures r.Success? ==> r.value.args == args && KeyOf(r.value.kind) == name
  {
    if name !in Factory then Failure(UnknownDataset(name))
    else Success(AdapterCall(Factory[name], args))
  }

  /** Each adapter class is registered under exactly one name: `KeyOf` is
      the inverse of the table. */
  lemma FactoryInjective()
    ensures forall name :: name in Factory ==> KeyOf(Factory[name]) == name
    ensures forall a, b :: a in Factory && b in Factory && Factory[a] == Factory[b] ==> a == b
  {
  }

  /** MOT20 is reachable under the name "mot repairing20" and no other;
      in particular "mot20" is an unknown dataset. */
  lemma Mot20OnlyUnderRegisteredKey<A>(name: string, args: A)
    ensures InitDataset(name, args).Success? && InitDataset(name, args).value.kind == MOT20
        <==> name == "mot repairing20"
    ensures InitDataset("mot20", args) == Failure(UnknownDataset("mot20"))
  {
  }

  /** Lookup compares names exactly: "VehicleID" is registered, "vehicleid"
      is not. */
  lemma LookupIsCaseSensitive<A>(args: A)
    ensures InitDataset("VehicleID", args) == Success(AdapterCall(VehicleID, args))
    ensures InitDataset("vehicleid", args) == Failure(UnknownDataset("vehicleid"))
  {
  }
}
