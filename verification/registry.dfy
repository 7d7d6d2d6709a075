/** The slice of the Prometheus default registry that the pollers use: gauge
    families registered by name, and the values last set on labelled series.
    Whether a registration succeeds, collides with an existing collector or is
    refused is decided by the client library; the model takes that decision as
    an input, a `Registrar`. */
module Registry {
  import opened Wrappers

  /** One labelled series of a gauge family. */
  datatype Series = Series(family: string, labels: map<string, string>)

  /** The registered family names and the value of every series set so far. */
  datatype Store = Store(families: set<string>, values: map<Series, real>)

  datatype RegisterOutcome = Registered | AlreadyRegistered | Rejected

  /** The library's answer to registering `family` with the given label names,
      given the families already registered. */
  type Registrar = (set<string>, string, set<string>) -> RegisterOutcome

  const Empty: Store := Store({}, map[])

  /** The family name every exported metric gets. */
  function FamilyName(identifier: string): (r: string)
    ensures |r| == |identifier| + 12 && r[..12] == "afterburner_" && r[12..] == identifier
  {
    "afterburner_" + identifier
  }

  /** `getMetricCollector` once the name is normalized: register a gauge
      family for the identifier and hand back the series for the labels. A
      fresh registration adds the family; a collision reuses the registered
      family and leaves the registry as it was; any other error yields no
      series. Values are never touched. */
  function GetCollector(store: Store, registrar: Registrar, identifier: string, labels: map<string, string>)
    : (r: (Store, Option<Series>))
    ensures r.0.values == store.values
    ensures r.1.Some? ==> r.1.value == Series(FamilyName(identifier), labels)
    ensures r.1.None? <==> registrar(store.families, FamilyName(identifier), labels.Keys) == Rejected
    ensures r.0.families == if registrar(store.families, FamilyName(identifier), labels.Keys) == Registered
                            then store.families + {FamilyName(identifier)}
                            else store.families
  {
    var family := FamilyName(identifier);
    match registrar(store.families, family, labels.Keys)
    case Registered => (store.(families := store.families + {family}), Some(Series(family, labels)))
    case AlreadyRegistered => (store, Some(Series(family, labels)))
    case Rejected => (store, None)
  }

  /** `Gauge.Set`: the series takes the value and no other series changes. */
  function Set(store: Store, series: Series, value: real): (r: Store)
    ensures r.families == store.families
    ensures series in r.values && r.values[series] == value
    ensures forall s :: s != series ==> (s in r.values <==> s in store.values)
    ensures forall s :: s != series && s in store.values ==> r.values[s] == store.values[s]
  {
    store.(values := store.values[series := value])
  }

  /** The registry and the set of series only grow. */
  ghost predicate Grows(before: Store, after: Store) {
    before.families <= after.families && before.values.Keys <= after.values.Keys
  }

  lemma GrowsTransitive(a: Store, b: Store, c: Store)
    requires Grows(a, b) && Grows(b, c)
    ensures Grows(a, c)
  {
  }
}
