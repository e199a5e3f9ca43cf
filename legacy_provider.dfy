/**
 * The older provider: it takes the access token as given and registers the four backends of
 * its own catalog, with the same registry behaviour as the current provider.
 */
module LegacyAqtProvider {
  import opened Outcomes
  import opened Registry

  /**
   * The backends the constructor registers, in registration order. The constructor names the
   * classes `AQTSimulator`, `AQTSimulatorNoise1`, `AQTDevice` and `AQTDeviceIbex`; the module that
   * defines them is not part of this model, so the four names below are assumed, and the listing
   * lemmas of `Provider` hold for this assumed catalog.
   */
  function Catalog(): seq<Backend>
  {
    [Backend("aqt_qasm_simulator", Simulator), Backend("aqt_qasm_simulator_noise_1", SimulatorNoise1),
     Backend("aqt_innsbruck", Device), Backend("aqt_imst_ibex", DeviceIbex)]
  }

  /** The catalog's names are non-empty and pairwise distinct. */
  lemma CatalogNamesDistinct()
    ensures |Catalog()| == 4
    ensures forall j, k :: 0 <= j < k < |Catalog()| ==> Catalog()[j].name != Catalog()[k].name
    ensures forall j :: 0 <= j < |Catalog()| ==> Catalog()[j].name != ""
  {
    var c := Catalog();
    assert c[0].name[4] == 'q' && c[1].name[4] == 'q' && c[2].name[4] == 'i' && c[3].name[4] == 'i';
    assert |c[0].name| != |c[1].name| && c[2].name[5] != c[3].name[5];
  }

  /** `type(self).__name__` of a provider of this package. */
  const ClassName := "AQTProvider"

  class Provider {
    /** `access_token` */
    const accessToken: string
    /** `name` */
    const name: string
    /** `backends` */
    const backends: BackendService

    /** `AQTProvider(access_token)`: the token unchanged, the fixed name, the four backends. */
    constructor (accessToken: string)
      ensures this.accessToken == accessToken && name == "aqt_provider"
      ensures fresh(backends) && backends.backends == Catalog() && backends.attributes == Bind(Catalog())
    {
      this.accessToken := accessToken;
      name := "aqt_provider";
      backends := new BackendService(Catalog());
    }

    /** `__str__` */
    function Str(): string
    {
      "<AQTProvider(name=" + name + ")>"
    }

    /** `__repr__` */
    function Repr(): string
    {
      Str()
    }

    /** The string form of a provider the constructor made, and its repr. */
    lemma StrForm()
      requires name == "aqt_provider"
      ensures Str() == "<AQTProvider(name=aqt_provider)>"
      ensures Repr() == Str()
    {
    }

    /** With no name, the unfiltered listing is the whole catalog in registration order. */
    lemma ListAll(name: Option<string>)
      requires backends.backends == Catalog()
      requires name.None? || name.value == ""
      ensures backends.Call(name, (b: Backend) => true) == Catalog()
      ensures |backends.Call(name, (b: Backend) => true)| == 4
    {
      backends.CallAll(name);
    }

    /** Each catalog name lists exactly its own backend, and its attribute is that backend. */
    lemma ListByName(i: nat)
      requires backends.backends == Catalog() && backends.attributes == Bind(Catalog())
      requires i < |Catalog()|
      ensures backends.Call(Some(Catalog()[i].name), (b: Backend) => true) == [Catalog()[i]]
      ensures backends.Attribute(Catalog()[i].name) == Ok(Catalog()[i])
    {
      CatalogNamesDistinct();
      backends.AttributeMatchesCall(i);
    }

    /** The device is found under its name. */
    lemma ListInnsbruck()
      requires backends.backends == Catalog() && backends.attributes == Bind(Catalog())
      ensures backends.Call(Some("aqt_innsbruck"), (b: Backend) => true) == [Backend("aqt_innsbruck", Device)]
    {
      ListByName(2);
    }

    /** A name outside the catalog leaves no candidates, whatever the filter. */
    lemma ListUnknown(name: string, keep: Backend -> bool)
      requires backends.backends == Catalog()
      requires name != "" && forall j :: 0 <= j < |Catalog()| ==> Catalog()[j].name != name
      ensures backends.Call(Some(name), keep) == []
    {
      backends.CallAbsentName(name, keep);
    }
  }
}
