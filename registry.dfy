/**
 * The backend registry both providers share in shape: a fixed list of backends, one attribute
 * per backend name, and a listing call that pre-filters by name and then applies Qiskit's
 * `filter_backends`.
 */
module Registry {
  import opened Outcomes

  /** The backend classes of the two providers' catalogs. */
  datatype BackendKind = Simulator | SimulatorNoise1 | Device | DeviceIbex | DevicePine

  /** A backend instance, known here by its name and its class. */
  datatype Backend = Backend(name: string, kind: BackendKind)

  /** The backends that satisfy `p`, in their original order. */
  function Filter(backends: seq<Backend>, p: Backend -> bool): seq<Backend>
  {
    if backends == [] then []
    else Filter(backends[..|backends| - 1], p) + (if p(backends[|backends| - 1]) then [backends[|backends| - 1]] else [])
  }

  /** A backend is kept exactly when it is in the list and satisfies the predicate. */
  lemma {:induction false} FilterMembers(backends: seq<Backend>, p: Backend -> bool)
    ensures forall b :: b in Filter(backends, p) <==> b in backends && p(b)
  {
    if backends != [] {
      var init := backends[..|backends| - 1];
      FilterMembers(init, p);
      assert backends == init + [backends[|backends| - 1]];
    }
  }

  /** A predicate no backend satisfies keeps nothing. */
  lemma {:induction false} FilterNone(backends: seq<Backend>, p: Backend -> bool)
    requires forall j :: 0 <= j < |backends| ==> !p(backends[j])
    ensures Filter(backends, p) == []
  {
    if backends != [] {
      FilterNone(backends[..|backends| - 1], p);
    }
  }

  /** Filtering keeps the order: it distributes over concatenation. */
  lemma {:induction false} FilterAppend(a: seq<Backend>, b: seq<Backend>, p: Backend -> bool)
    ensures Filter(a + b, p) == Filter(a, p) + Filter(b, p)
  {
    if b == [] {
      assert a + b == a;
    } else {
      var init := b[..|b| - 1];
      assert (a + b)[..|a + b| - 1] == a + init;
      FilterAppend(a, init, p);
    }
  }

  function Both(p: Backend -> bool, q: Backend -> bool): Backend -> bool
  {
    (b: Backend) => p(b) && q(b)
  }

  /** Filtering by `p` and then by `q` is filtering by both. */
  lemma {:induction false} FilterTwice(backends: seq<Backend>, p: Backend -> bool, q: Backend -> bool)
    ensures Filter(Filter(backends, p), q) == Filter(backends, Both(p, q))
  {
    if backends != [] {
      var init := backends[..|backends| - 1];
      var last := backends[|backends| - 1];
      FilterTwice(init, p, q);
      FilterAppend(Filter(init, p), if p(last) then [last] else [], q);
      if p(last) {
        assert [last][..0] == [];
      }
    }
  }

  /** Keeping everything keeps the list unchanged. */
  lemma {:induction false} FilterAll(backends: seq<Backend>)
    ensures Filter(backends, (b: Backend) => true) == backends
  {
    if backends != [] {
      FilterAll(backends[..|backends| - 1]);
    }
  }

  function HasName(name: string): Backend -> bool
  {
    (b: Backend) => b.name == name
  }

  /**
   * The name pre-filter of `__call__`: with a non-empty name, the backends of that name;
   * with no name or an empty one, the whole list.
   */
  function NamePrefilter(backends: seq<Backend>, name: Option<string>): seq<Backend>
  {
    if name.None? || name.value == "" then backends else Filter(backends, HasName(name.value))
  }

  /** The attributes `setattr` binds, one per name, a later backend overwriting an earlier one. */
  function Bind(backends: seq<Backend>): map<string, Backend>
  {
    if backends == [] then map[]
    else Bind(backends[..|backends| - 1])[backends[|backends| - 1].name := backends[|backends| - 1]]
  }

  /** Every name of the list is bound, and only those. */
  lemma {:induction false} BindKeys(backends: seq<Backend>)
    ensures Bind(backends).Keys == set b | b in backends :: b.name
  {
    if backends != [] {
      var init := backends[..|backends| - 1];
      BindKeys(init);
      assert backends == init + [backends[|backends| - 1]];
    }
  }

  /** A name is bound to the last backend that carries it. */
  lemma {:induction false} BindLastWins(backends: seq<Backend>, i: nat)
    requires i < |backends|
    requires forall j :: i < j < |backends| ==> backends[j].name != backends[i].name
    ensures backends[i].name in Bind(backends) && Bind(backends)[backends[i].name] == backends[i]
  {
    if i < |backends| - 1 {
      var init := backends[..|backends| - 1];
      assert init[i] == backends[i];
      BindLastWins(init, i);
    }
  }

  class BackendService {
    /** `_backends` */
    const backends: seq<Backend>
    /** The attributes bound by `setattr`, by name. */
    var attributes: map<string, Backend>

    /** `__init__`: store the list and bind one attribute per backend name, in list order. */
    constructor (backends: seq<Backend>)
      ensures this.backends == backends
      ensures attributes == Bind(backends)
    {
      this.backends := backends;
      attributes := map[];
      new;
      for i := 0 to |backends|
        invariant this.backends == backends
        invariant attributes == Bind(backends[..i])
      {
        assert backends[..i + 1][..i] == backends[..i];
        attributes := attributes[backends[i].name := backends[i]];
      }
      assert backends[..|backends|] == backends;
    }

    /** `service.<name>`: the bound attribute, or AttributeError. */
    function Attribute(name: string): (r: Result<Backend>)
      reads this
      ensures r.Ok? <==> name in attributes
      ensures r.Ok? ==> r.value == attributes[name]
      ensures r.Err? ==> r.error == AttributeError(name)
    {
      if name in attributes then Ok(attributes[name]) else Err(AttributeError(name))
    }

    /** `__call__(name, filters, **kwargs)`, `keep` standing for what `filter_backends` keeps. */
    function Call(name: Option<string>, keep: Backend -> bool): seq<Backend>
    {
      Filter(NamePrefilter(backends, name), keep)
    }

    /** With no name and nothing to filter on, the listing is the stored list, in order. */
    lemma CallAll(name: Option<string>)
      requires name.None? || name.value == ""
      ensures Call(name, (b: Backend) => true) == backends
    {
      FilterAll(backends);
    }

    /**
     * With a name, the listing keeps exactly the backends of that name that the filter keeps,
     * in their original order.
     */
    lemma CallByName(name: string, keep: Backend -> bool)
      requires name != ""
      ensures Call(Some(name), keep) == Filter(backends, Both(HasName(name), keep))
      ensures forall b :: b in Call(Some(name), keep) <==> b in backends && b.name == name && keep(b)
    {
      FilterTwice(backends, HasName(name), keep);
      FilterMembers(backends, Both(HasName(name), keep));
    }

    /** A name no backend has lists nothing. */
    lemma CallAbsentName(name: string, keep: Backend -> bool)
      requires name != "" && forall b :: b in backends ==> b.name != name
      ensures Call(Some(name), keep) == []
    {
      FilterNone(backends, HasName(name));
    }

    /**
     * With distinct names, the attribute of a backend's name is that backend, the same one the
     * listing by that name returns as its only element.
     */
    lemma AttributeMatchesCall(i: nat)
      requires attributes == Bind(backends)
      requires forall j, k :: 0 <= j < k < |backends| ==> backends[j].name != backends[k].name
      requires i < |backends| && backends[i].name != ""
      ensures Attribute(backends[i].name) == Ok(backends[i])
      ensures Call(Some(backends[i].name), (b: Backend) => true) == [backends[i]]
    {
      var name := backends[i].name;
      BindLastWins(backends, i);
      FilterOnly(backends, i);
      FilterAll([backends[i]]);
    }
  }

  /** When only the backend at `i` has its name, filtering by that name leaves just that backend. */
  lemma {:induction false} FilterOnly(backends: seq<Backend>, i: nat)
    requires i < |backends|
    requires forall j :: 0 <= j < |backends| && j != i ==> backends[j].name != backends[i].name
    ensures Filter(backends, HasName(backends[i].name)) == [backends[i]]
  {
    var init := backends[..|backends| - 1];
    if i == |backends| - 1 {
      FilterNone(init, HasName(backends[i].name));
    } else {
      assert init[i] == backends[i];
      FilterOnly(init, i);
    }
  }

  /** The backend `get_backend` returns, or the error it raises, for a listing. */
  function Unique(backends: seq<Backend>): (r: Result<Backend>)
    ensures r.Ok? <==> |backends| == 1
    ensures r.Ok? ==> backends == [r.value]
    ensures |backends| > 1 ==> r == Err(BackendNotFound("More than one backend matches criteria."))
    ensures backends == [] ==> r == Err(BackendNotFound("No backend matches criteria."))
  {
    if |backends| > 1 then Err(BackendNotFound("More than one backend matches criteria."))
    else if backends == [] then Err(BackendNotFound("No backend matches criteria."))
    else Ok(backends[0])
  }
}
