/**
 * The current AQT provider: resolution of the access token and of the portal URL from the
 * environment, the four-backend catalog, `get_backend`'s exactly-one rule and `get_resource`'s
 * first-match search through the workspaces the portal lists.
 */
module AqtProvider {
  import opened Outcomes
  import opened Registry
  import LegacyAqtProvider

  /** The deployed portal, used when `AQT_PORTAL_URL` is unset or empty. */
  const PORTAL_URL := "https://europe-west3-aqt-portal-dev.cloudfunctions.net"

  /** The path every portal URL ends with. */
  const API_PATH := "/api/v1"

  const NoToken := ValueError("No access token provided. Use 'AQT_TOKEN' environment variable.")

  /** The portal URL for the environment `env`: a non-empty override wins over the default. */
  function PortalUrl(env: map<string, string>): string
  {
    if "AQT_PORTAL_URL" in env && env["AQT_PORTAL_URL"] != "" then env["AQT_PORTAL_URL"] + API_PATH
    else PORTAL_URL + API_PATH
  }

  /**
   * Every portal URL ends with the API path, and what precedes it is the override when it is
   * set and non-empty and the default portal otherwise.
   */
  lemma PortalUrlBase(env: map<string, string>)
    ensures |PortalUrl(env)| >= |API_PATH|
    ensures PortalUrl(env)[|PortalUrl(env)| - |API_PATH|..] == API_PATH
    ensures "AQT_PORTAL_URL" in env && env["AQT_PORTAL_URL"] != "" ==>
            PortalUrl(env)[..|PortalUrl(env)| - |API_PATH|] == env["AQT_PORTAL_URL"]
    ensures !("AQT_PORTAL_URL" in env && env["AQT_PORTAL_URL"] != "") ==>
            PortalUrl(env)[..|PortalUrl(env)| - |API_PATH|] == PORTAL_URL
  {
    var u := PortalUrl(env);
    if "AQT_PORTAL_URL" in env && env["AQT_PORTAL_URL"] != "" {
      assert u[..|u| - |API_PATH|] == env["AQT_PORTAL_URL"];
      assert u[|u| - |API_PATH|..] == API_PATH;
    } else {
      assert u[..|u| - |API_PATH|] == PORTAL_URL;
      assert u[|u| - |API_PATH|..] == API_PATH;
    }
  }

  /**
   * The token the constructor keeps: the argument when one is given, else the `AQT_TOKEN`
   * environment value even when it is empty, else ValueError.
   */
  function ResolveToken(accessToken: Option<string>, env: map<string, string>): (r: Result<string>)
    ensures r.Ok? <==> accessToken.Some? || "AQT_TOKEN" in env
    ensures accessToken.Some? ==> r == Ok(accessToken.value)
    ensures accessToken.None? && "AQT_TOKEN" in env ==> r == Ok(env["AQT_TOKEN"])
    ensures r.Err? ==> r.error == NoToken
  {
    match accessToken
    case Some(t) => Ok(t)
    case None => if "AQT_TOKEN" in env then Ok(env["AQT_TOKEN"]) else Err(NoToken)
  }

  /** The backends the constructor registers, in registration order. */
  function Catalog(): seq<Backend>
  {
    [Backend("aqt_qasm_simulator", Simulator), Backend("aqt_qasm_simulator_noise_1", SimulatorNoise1),
     Backend("aqt_ibex", DeviceIbex), Backend("aqt_pine", DevicePine)]
  }

  /** The catalog's names are non-empty and pairwise distinct. */
  lemma CatalogNamesDistinct()
    ensures |Catalog()| == 4
    ensures forall j, k :: 0 <= j < k < |Catalog()| ==> Catalog()[j].name != Catalog()[k].name
    ensures forall j :: 0 <= j < |Catalog()| ==> Catalog()[j].name != ""
  {
    var c := Catalog();
    assert c[0].name[4] == 'q' && c[1].name[4] == 'q' && c[2].name[4] == 'i' && c[3].name[4] == 'p';
    assert |c[0].name| != |c[1].name|;
  }

  /** One entry of the workspace listing: its `id`, when present, and its `resources`, when present. */
  datatype ApiResource = ApiResource(id: Option<string>, name: Option<string>, kind: Option<string>)
  datatype WorkspaceData = WorkspaceData(id: Option<string>, resources: Option<seq<ApiResource>>)

  /** What `get_resource` returns: the workspace id and the resource's entry. */
  datatype ResourceHandle = ResourceHandle(workspaceId: string, resource: ApiResource)

  function NotAccessible(workspace: string): Exception
  {
    ValueError("Workpace '" + workspace + "' is not accessible.")
  }

  function NoSuchResource(workspace: string, resource: string): Exception
  {
    ValueError("Resource '" + resource + "' does not exist in workspace '" + workspace + "'.")
  }

  /** `.get("resources", [])`: a missing key reads as no resources. */
  function ResourcesOf(w: WorkspaceData): seq<ApiResource>
  {
    if w.resources.Some? then w.resources.value else []
  }

  /** The position of the first workspace whose id is `id`, if any. */
  function FirstWorkspace(workspaces: seq<WorkspaceData>, id: string): (r: Option<nat>)
    ensures r.Some? ==> r.value < |workspaces| && workspaces[r.value].id == Some(id)
    ensures r.Some? ==> forall j :: 0 <= j < r.value ==> workspaces[j].id != Some(id)
    ensures r.None? <==> forall j :: 0 <= j < |workspaces| ==> workspaces[j].id != Some(id)
  {
    if workspaces == [] then None
    else if workspaces[0].id == Some(id) then Some(0)
    else match FirstWorkspace(workspaces[1..], id)
      case None => None
      case Some(k) => Some(k + 1)
  }

  /** The position of the first resource whose id is `id`, if any. */
  function FirstResource(resources: seq<ApiResource>, id: string): (r: Option<nat>)
    ensures r.Some? ==> r.value < |resources| && resources[r.value].id == Some(id)
    ensures r.Some? ==> forall j :: 0 <= j < r.value ==> resources[j].id != Some(id)
    ensures r.None? <==> forall j :: 0 <= j < |resources| ==> resources[j].id != Some(id)
  {
    if resources == [] then None
    else if resources[0].id == Some(id) then Some(0)
    else match FirstResource(resources[1..], id)
      case None => None
      case Some(k) => Some(k + 1)
  }

  /** What `get_resource` returns or raises for the workspace listing `workspaces`. */
  function ResourceLookup(workspaces: seq<WorkspaceData>, workspace: string, resource: string): Result<ResourceHandle>
  {
    match FirstWorkspace(workspaces, workspace)
    case None => Err(NotAccessible(workspace))
    case Some(i) =>
      var resources := ResourcesOf(workspaces[i]);
      match FirstResource(resources, resource)
      case None => Err(NoSuchResource(workspace, resource))
      case Some(k) => Ok(ResourceHandle(workspace, resources[k]))
  }

  /**
   * The lookup succeeds exactly when some workspace has the id and the first such workspace
   * lists a resource of that id; it then returns the first such resource under that workspace id.
   */
  lemma ResourceLookupFound(workspaces: seq<WorkspaceData>, workspace: string, resource: string, i: nat)
    requires i < |workspaces| && workspaces[i].id == Some(workspace)
    requires forall j :: 0 <= j < i ==> workspaces[j].id != Some(workspace)
    ensures ResourceLookup(workspaces, workspace, resource).Ok? <==>
            exists k :: 0 <= k < |ResourcesOf(workspaces[i])| && ResourcesOf(workspaces[i])[k].id == Some(resource)
    ensures ResourceLookup(workspaces, workspace, resource).Err? ==>
            ResourceLookup(workspaces, workspace, resource) == Err(NoSuchResource(workspace, resource))
    ensures ResourceLookup(workspaces, workspace, resource).Ok? ==>
            var h := ResourceLookup(workspaces, workspace, resource).value;
            h.workspaceId == workspace && h.resource.id == Some(resource) &&
            exists k :: 0 <= k < |ResourcesOf(workspaces[i])| && h.resource == ResourcesOf(workspaces[i])[k] &&
              forall j :: 0 <= j < k ==> ResourcesOf(workspaces[i])[j].id != Some(resource)
  {
    var f := FirstWorkspace(workspaces, workspace);
    if f.value != i {
      assert false;
    }
  }

  /** No workspace with the id: the workspace error, whatever the resources. */
  lemma ResourceLookupNoWorkspace(workspaces: seq<WorkspaceData>, workspace: string, resource: string)
    requires forall j :: 0 <= j < |workspaces| ==> workspaces[j].id != Some(workspace)
    ensures ResourceLookup(workspaces, workspace, resource) == Err(NotAccessible(workspace))
  {
  }

  /** A first matching workspace without a "resources" key is treated as one with no resources. */
  lemma MissingResourcesKey(workspace: string, resource: string, rest: seq<WorkspaceData>)
    ensures ResourceLookup([WorkspaceData(Some(workspace), None)] + rest, workspace, resource) ==
            Err(NoSuchResource(workspace, resource))
  {
    var ws := [WorkspaceData(Some(workspace), None)] + rest;
    assert FirstWorkspace(ws, workspace) == Some(0);
  }

  /** A later workspace with the same id is never searched, even when it has the resource. */
  lemma LaterWorkspaceShadowed(workspace: string, res: ApiResource)
    requires res.id.Some?
    ensures ResourceLookup([WorkspaceData(Some(workspace), Some([])), WorkspaceData(Some(workspace), Some([res]))],
                           workspace, res.id.value) == Err(NoSuchResource(workspace, res.id.value))
  {
    var ws := [WorkspaceData(Some(workspace), Some([])), WorkspaceData(Some(workspace), Some([res]))];
    assert FirstWorkspace(ws, workspace) == Some(0);
  }

  /** `type(self).__name__` of a provider. */
  const ClassName := "AQTProvider"

  class Provider {
    /** `portal_url` */
    const portalUrl: string
    /** `access_token` */
    const accessToken: string
    /** `name` */
    const name: string
    /** `backends` */
    const backends: BackendService

    constructor (portalUrl: string, accessToken: string)
      ensures this.portalUrl == portalUrl && this.accessToken == accessToken && name == "aqt_provider"
      ensures fresh(backends) && backends.backends == Catalog() && backends.attributes == Bind(Catalog())
    {
      this.portalUrl := portalUrl;
      this.accessToken := accessToken;
      name := "aqt_provider";
      backends := new BackendService(Catalog());
    }

    /** `AQTProvider(access_token)` in the environment `env`: a provider, or the missing-token error. */
    static method Create(accessToken: Option<string>, env: map<string, string>) returns (r: Result<Provider>)
      ensures r.Ok? <==> ResolveToken(accessToken, env).Ok?
      ensures r.Err? ==> r == Err(NoToken)
      ensures r.Ok? ==> fresh(r.value) && fresh(r.value.backends)
      ensures r.Ok? ==> r.value.portalUrl == PortalUrl(env) && r.value.accessToken == ResolveToken(accessToken, env).value
      ensures r.Ok? ==> r.value.name == "aqt_provider"
      ensures r.Ok? ==> r.value.backends.backends == Catalog() && r.value.backends.attributes == Bind(Catalog())
    {
      var url;
      if "AQT_PORTAL_URL" in env && env["AQT_PORTAL_URL"] != "" {
        url := env["AQT_PORTAL_URL"] + API_PATH;
      } else {
        url := PORTAL_URL + API_PATH;
      }
      var token;
      if accessToken.None? {
        if "AQT_TOKEN" !in env {
          return Err(NoToken);
        }
        token := env["AQT_TOKEN"];
      } else {
        token := accessToken.value;
      }
      var p := new Provider(url, token);
      r := Ok(p);
    }

    /** `__str__` */
    function Str(): string
    {
      "<AQTProvider(name=" + name + ")>"
    }

    /** `__repr__` */
    function Repr(): string
    {
      Str()
    }

    /** The string form of a provider the constructor made, and its repr. */
    lemma StrForm()
      requires name == "aqt_provider"
      ensures Str() == "<AQTProvider(name=aqt_provider)>"
      ensures Repr() == Str()
    {
    }

    /** `__eq__`, the other object known by its class name: equal exactly when the class names match. */
    function Equals(otherClassName: string): (r: bool)
      ensures r <==> otherClassName == ClassName
    {
      ClassName == otherClassName
    }

    /**
     * Equality ignores the state: any two providers compare equal, whatever their tokens,
     * portal URLs or backends, and an object of a class with another name never does.
     */
    lemma EqualsAnyProvider(other: Provider, otherClassName: string)
      ensures Equals(ClassName) && other.Equals(ClassName)
      ensures Equals(otherClassName) == other.Equals(otherClassName)
      ensures otherClassName != ClassName ==> !Equals(otherClassName)
    {
    }

    /** A provider of the older package has a class of the same name, so it compares equal too. */
    lemma EqualsLegacyProvider(legacy: LegacyAqtProvider.Provider)
      ensures Equals(LegacyAqtProvider.ClassName)
    {
    }

    /** `get_backend(name, **kwargs)`, `keep` standing for the filters. */
    function GetBackend(name: Option<string>, keep: Backend -> bool): (r: Result<Backend>)
      ensures r.Ok? <==> |backends.Call(name, keep)| == 1
      ensures r.Ok? ==> backends.Call(name, keep) == [r.value]
      ensures |backends.Call(name, keep)| > 1 ==> r == Err(BackendNotFound("More than one backend matches criteria."))
      ensures backends.Call(name, keep) == [] ==> r == Err(BackendNotFound("No backend matches criteria."))
    {
      Unique(backends.Call(name, keep))
    }

    /** Over the catalog, every backend's name selects that backend, and it is its attribute too. */
    lemma GetBackendByName(i: nat)
      requires backends.backends == Catalog() && backends.attributes == Bind(Catalog())
      requires i < |Catalog()|
      ensures GetBackend(Some(Catalog()[i].name), (b: Backend) => true) == Ok(Catalog()[i])
      ensures backends.Attribute(Catalog()[i].name) == Ok(Catalog()[i])
    {
      CatalogNamesDistinct();
      backends.AttributeMatchesCall(i);
    }

    /** Over the catalog, asking for no name in particular matches all four, which is an error. */
    lemma GetBackendNoName(name: Option<string>)
      requires backends.backends == Catalog()
      requires name.None? || name.value == ""
      ensures GetBackend(name, (b: Backend) => true) == Err(BackendNotFound("More than one backend matches criteria."))
    {
      backends.CallAll(name);
    }

    /** Over the catalog, a name it does not have matches nothing, which is an error. */
    lemma GetBackendUnknown(name: string, keep: Backend -> bool)
      requires backends.backends == Catalog()
      requires name != "" && forall j :: 0 <= j < |Catalog()| ==> Catalog()[j].name != name
      ensures GetBackend(Some(name), keep) == Err(BackendNotFound("No backend matches criteria."))
    {
      backends.CallAbsentName(name, keep);
    }

    /**
     * `get_resource(workspace, resource)` over the workspace listing the portal returns:
     * the first workspace with that id, then the first resource in it with that id.
     */
    method GetResource(workspace: string, resource: string, workspaces: seq<WorkspaceData>) returns (r: Result<ResourceHandle>)
      ensures r == ResourceLookup(workspaces, workspace, resource)
    {
      var i := 0;
      while i < |workspaces|
        invariant 0 <= i <= |workspaces|
        invariant forall j :: 0 <= j < i ==> workspaces[j].id != Some(workspace)
      {
        if workspaces[i].id == Some(workspace) {
          break;
        }
        i := i + 1;
      }
      if i == |workspaces| {
        return Err(NotAccessible(workspace));
      }
      ResourceLookupAt(workspaces, workspace, i);
      var resources := if workspaces[i].resources.Some? then workspaces[i].resources.value else [];
      var k := 0;
      while k < |resources|
        invariant 0 <= k <= |resources|
        invariant forall j :: 0 <= j < k ==> resources[j].id != Some(resource)
      {
        if resources[k].id == Some(resource) {
          break;
        }
        k := k + 1;
      }
      if k == |resources| {
        return Err(NoSuchResource(workspace, resource));
      }
      ResourceAt(resources, resource, k);
      r := Ok(ResourceHandle(workspace, resources[k]));
    }
  }

  /** A first match found by scanning is the one FirstWorkspace names. */
  lemma ResourceLookupAt(workspaces: seq<WorkspaceData>, id: string, i: nat)
    requires i < |workspaces| && workspaces[i].id == Some(id)
    requires forall j :: 0 <= j < i ==> workspaces[j].id != Some(id)
    ensures FirstWorkspace(workspaces, id) == Some(i)
  {
    var f := FirstWorkspace(workspaces, id);
    if f.value < i {
      assert false;
    }
  }

  /** A first match found by scanning is the one FirstResource names. */
  lemma ResourceAt(resources: seq<ApiResource>, id: string, k: nat)
    requires k < |resources| && resources[k].id == Some(id)
    requires forall j :: 0 <= j < k ==> resources[j].id != Some(id)
    ensures FirstResource(resources, id) == Some(k)
  {
    var f := FirstResource(resources, id);
    if f.value < k {
      assert false;
    }
  }
}
