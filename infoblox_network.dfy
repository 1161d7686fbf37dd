/** The legacy network module (library/infoblox_network.py): the merge of the
    provider into the module parameters, the comparison of an existing network
    with the parameters, the extensible-attribute builder and the decision
    between get, create, update and delete. */
module InfobloxNetwork {
  import opened Outcomes
  import opened PyValues

  // ---------------------------------------------------------------------
  // compare_fields
  // ---------------------------------------------------------------------

  /** The fields whose difference makes an existing network out of date. */
  const ComparedFields: seq<string> := ["dhcp_options", "members", "extattrs", "comment"]

  /** The early-exit loop of `compare_fields` over the fields still to check:
      a field unset in the parameters is skipped, a differing one ends it. */
  function CompareFrom(param: Dict, obj: Dict, fields: seq<string>): (r: bool)
    ensures r <==> forall j | 0 <= j < |fields| :: Get(param, fields[j]) == VNone || Get(param, fields[j]) == Get(obj, fields[j])
  {
    if fields == [] then true
    else if Get(param, fields[0]) == VNone then CompareFrom(param, obj, fields[1..])
    else if Get(param, fields[0]) != Get(obj, fields[0]) then false
    else
      assert forall j | 1 <= j < |fields| :: fields[1..][j - 1] == fields[j];
      CompareFrom(param, obj, fields[1..])
  }

  /** `compare_fields`: true exactly when each compared field is unset in the
      parameters or equal to the object's. */
  function CompareFields(param: Dict, obj: Dict): (r: bool)
    ensures r <==> forall f | f in ComparedFields :: Get(param, f) == VNone || Get(param, f) == Get(obj, f)
  {
    var r := CompareFrom(param, obj, ComparedFields);
    assert forall f | f in ComparedFields :: exists j | 0 <= j < |ComparedFields| :: ComparedFields[j] == f;
    r
  }

  /** Every other key of the parameters and of the object is ignored. */
  lemma CompareFieldsIgnoresOtherKeys(param1: Dict, obj1: Dict, param2: Dict, obj2: Dict)
    requires forall f | f in ComparedFields :: Get(param1, f) == Get(param2, f) && Get(obj1, f) == Get(obj2, f)
    ensures CompareFields(param1, obj1) == CompareFields(param2, obj2)
  {
  }

  /** Parameters that set none of the compared fields match every object. */
  lemma NothingToCompare(param: Dict, obj: Dict)
    requires forall f | f in ComparedFields :: f !in param
    ensures CompareFields(param, obj)
  {
  }

  // ---------------------------------------------------------------------
  // build_extattrs
  // ---------------------------------------------------------------------

  datatype NetworkError =
    | InvalidProvider               // the provider has no password
    | ProviderOptionRequired        // host, username or password unset after the merge
    | MembersNotImplemented         // `members` is set
    | ExtattrValueNotString         // an extensible attribute value is not a string
    | ExtattrsNotDict               // `extattrs` is not a dict
    | NetworkNotFound(network: Value)   // `get` found no network
    | NoExistingNetwork             // the first object of an empty answer is read

  /** `build_extattrs`: None stays None; a dict of strings becomes a dict of
      `{"value": v}` structs; anything else fails. */
  function BuildExtattrs(extattrs: Value): (r: Result<Option<Dict>, NetworkError>)
    ensures extattrs == VNone ==> r == Ok(None)
    ensures r.Ok? && r.value.Some? ==> extattrs.VDict? && r.value.value.Keys == extattrs.entries.Keys
    ensures r.Ok? && r.value.Some? ==> forall k | k in r.value.value :: r.value.value[k] == VDict(map["value" := extattrs.entries[k]])
    ensures extattrs.VDict? ==> (r.Ok? <==> forall k | k in extattrs.entries :: extattrs.entries[k].VStr?)
    ensures !extattrs.VDict? && extattrs != VNone ==> r == Fail(ExtattrsNotDict)
  {
    match extattrs
    case VNone => Ok(None)
    case VDict(entries) =>
      if forall k | k in entries :: entries[k].VStr? then Ok(Some(map k | k in entries :: VDict(map["value" := entries[k]])))
      else Fail(ExtattrValueNotString)
    case _ => Fail(ExtattrsNotDict)
  }

  /** The string under `value` of each built struct. */
  function Flatten(built: Dict): Dict
  {
    map k | k in built :: if built[k].VDict? then Get(built[k].entries, "value") else VNone
  }

  /** Reading `value` back out of every struct gives the input dict again. */
  lemma BuildExtattrsRoundTrip(extattrs: Dict)
    requires BuildExtattrs(VDict(extattrs)).Ok?
    ensures BuildExtattrs(VDict(extattrs)).value.Some?
    ensures Flatten(BuildExtattrs(VDict(extattrs)).value.value) == extattrs
  {
    var built := BuildExtattrs(VDict(extattrs)).value.value;
    assert forall k | k in built :: Get(built[k].entries, "value") == extattrs[k];
  }

  // ---------------------------------------------------------------------
  // provider merge
  // ---------------------------------------------------------------------

  /** The provider keys copied into the module parameters. */
  const ValidProvider: set<string> := {"host", "username", "password", "validate_certs", "wapi_version"}

  /** The parameters that must be set once the provider is merged. */
  const RequiredParams: seq<string> := ["host", "username", "password"]

  /** The argument spec declares `provider` as a dict. */
  predicate ProviderShape(params: Dict)
  {
    Get(params, "provider").VDict? || !Truthy(Get(params, "provider"))
  }

  /** The provider dict, empty when unset. */
  function ProviderOf(params: Dict): Dict
    requires ProviderShape(params)
  {
    if Truthy(Get(params, "provider")) then Get(params, "provider").entries else map[]
  }

  /** The parameters after the provider merge: for every valid key of the
      provider, the parameter's own value when it is truthy, else the provider's. */
  function Merged(params: Dict, provider: Dict): Dict
  {
    map k | k in params.Keys + (provider.Keys * ValidProvider) ::
      if k in ValidProvider && k in provider then Or(Get(params, k), provider[k]) else params[k]
  }

  /** A set parameter wins over the provider; an unset or falsy one takes the
      provider's value; only valid provider keys are touched. */
  lemma MergePrecedence(params: Dict, provider: Dict, k: string)
    ensures k in Merged(params, provider) <==> k in params || (k in provider && k in ValidProvider)
    ensures k in ValidProvider && k in provider && Truthy(Get(params, k)) ==> Merged(params, provider)[k] == params[k]
    ensures k in ValidProvider && k in provider && !Truthy(Get(params, k)) ==> Merged(params, provider)[k] == provider[k]
    ensures (k !in ValidProvider || k !in provider) && k in params ==> Merged(params, provider)[k] == params[k]
  {
  }

  /** Merging twice with the same provider changes nothing more. */
  lemma MergeIdempotent(params: Dict, provider: Dict)
    ensures Merged(Merged(params, provider), provider) == Merged(params, provider)
  {
    var once := Merged(params, provider);
    assert forall k | k in once && k in ValidProvider && k in provider :: Or(Get(once, k), provider[k]) == once[k];
  }

  /** One step of the merge loop. */
  lemma MergeStep(params: Dict, provider: Dict, todo: set<string>, k: string)
    requires k in todo && todo <= provider.Keys
    ensures (if k in ValidProvider
             then Merged(params, provider - todo)[k := Or(Get(Merged(params, provider - todo), k), provider[k])]
             else Merged(params, provider - todo))
         == Merged(params, provider - (todo - {k}))
  {
    var before := Merged(params, provider - todo);
    var after := Merged(params, provider - (todo - {k}));
    assert Get(before, k) == Get(params, k);
    if k in ValidProvider {
      assert before[k := Or(Get(before, k), provider[k])] == after;
    } else {
      assert before == after;
    }
  }

  /** `module.params`, which the provider merge updates in place. */
  class NetworkModule {
    var params: Dict

    constructor (params: Dict)
      ensures this.params == params
    {
      this.params := params;
    }
  }

  /** The provider loop: copies every valid key of the provider into the
      parameters unless the parameter is already set. */
  method MergeProvider(m: NetworkModule, provider: Dict)
    modifies m
    ensures m.params == Merged(old(m.params), provider)
  {
    ghost var params := m.params;
    var todo := provider.Keys;
    assert provider - todo == map[];
    assert Merged(params, map[]) == params;
    while todo != {}
      invariant todo <= provider.Keys
      invariant m.params == Merged(params, provider - todo)
      decreases todo
    {
      var k :| k in todo;
      MergeStep(params, provider, todo, k);
      if k in ValidProvider {
        m.params := m.params[k := Or(Get(m.params, k), provider[k])];
      }
      todo := todo - {k};
    }
    assert provider - {} == provider;
  }

  // ---------------------------------------------------------------------
  // connector options
  // ---------------------------------------------------------------------

  /** A Python dict whose keys are values (the connector options). */
  type PyMap = map<Value, Value>

  /** The connector options as the module builds them: the version string
      itself is used as the key of the version entry. */
  function ConnectorOptsAsWritten(host: Value, username: Value, password: Value, validateCerts: Value, wapiVersion: Value): (opts: PyMap)
    ensures wapiVersion in opts
  {
    map[VStr("host") := host, VStr("username") := username, VStr("password") := password,
        VStr("ssl_verify") := validateCerts, VStr("silent_ssl_warnings") := VBool(validateCerts == VBool(false)),
        wapiVersion := wapiVersion]
  }

  /** With the default version 2.2 the connector never receives a
      `wapi_version` option, so the requested version is not applied. */
  lemma WapiVersionNotPassed(host: Value, username: Value, password: Value, validateCerts: Value)
    ensures VStr("wapi_version") !in ConnectorOptsAsWritten(host, username, password, validateCerts, VStr(BaseWapi))
    ensures ConnectorOptsAsWritten(host, username, password, validateCerts, VStr(BaseWapi))[VStr("2.2")] == VStr("2.2")
  {
    assert VStr(BaseWapi) != VStr("wapi_version");
  }

  /** The default WAPI version. */
  const BaseWapi: string := "2.2"

  /** The connector options with the version under `wapi_version`. */
  function ConnectorOpts(host: Value, username: Value, password: Value, validateCerts: Value, wapiVersion: Value): (opts: PyMap)
    ensures opts.Keys == {VStr("host"), VStr("username"), VStr("password"), VStr("ssl_verify"), VStr("silent_ssl_warnings"), VStr("wapi_version")}
    ensures opts[VStr("host")] == host && opts[VStr("username")] == username && opts[VStr("password")] == password
    ensures opts[VStr("ssl_verify")] == validateCerts
    ensures opts[VStr("silent_ssl_warnings")] == VBool(validateCerts == VBool(false))
    ensures opts[VStr("wapi_version")] == wapiVersion
  {
    map[VStr("host") := host, VStr("username") := username, VStr("password") := password,
        VStr("ssl_verify") := validateCerts, VStr("silent_ssl_warnings") := VBool(validateCerts == VBool(false)),
        VStr("wapi_version") := wapiVersion]
  }

  /** The options as written are the corrected ones with the `wapi_version`
      entry moved under the version string itself. */
  lemma AsWrittenMovesVersionKey(host: Value, username: Value, password: Value, validateCerts: Value, wapiVersion: Value)
    ensures ConnectorOptsAsWritten(host, username, password, validateCerts, wapiVersion)
         == (ConnectorOpts(host, username, password, validateCerts, wapiVersion) - {VStr("wapi_version")})[wapiVersion := wapiVersion]
    ensures wapiVersion != VStr("wapi_version") ==>
      VStr("wapi_version") !in ConnectorOptsAsWritten(host, username, password, validateCerts, wapiVersion)
  {
  }

  /** The options passed to the connector for the merged parameters: SSL
      verification defaults to off and the version to 2.2. */
  function OptsOf(merged: Dict): PyMap
  {
    ConnectorOpts(Get(merged, "host"), Get(merged, "username"), Get(merged, "password"),
                  GetOr(merged, "validate_certs", VBool(false)), GetOr(merged, "wapi_version", VStr(BaseWapi)))
  }

  // ---------------------------------------------------------------------
  // state decision table
  // ---------------------------------------------------------------------

  /** `get_network`: the list of networks for (network_view, network), or None
      when the answer is not a list. */
  type GetNetwork = (Value, Value) -> Option<seq<Dict>>

  /** `objects.Network.search`: whether a network exists for (network_view, cidr). */
  type SearchNetwork = (Value, Value) -> bool

  /** What the module asks of WAPI. */
  datatype Action =
    | NoAction
    | Create(updateIfExists: bool, networkView: Value, cidr: Value, comment: Value, options: Value, extattrs: Option<Dict>)
    | Delete(networkView: Value, cidr: Value)

  /** How the module ends: an `exit_json` with `changed` and the action taken,
      a `fail_json`, or no exit at all (the branches that fall through). */
  datatype Outcome = Exit(changed: bool, action: Action) | Failed(error: NetworkError) | NoExit

  /** The state branches of `main`, on the merged parameters and the built
      extensible attributes. */
  function Decide(params: Dict, extattrs: Option<Dict>, getNetwork: GetNetwork, search: SearchNetwork): (r: Outcome)
    ensures Get(params, "state") !in {VStr("get"), VStr("present"), VStr("absent")} ==> r == NoExit
    ensures r.Exit? && !r.changed ==> r.action == NoAction
    ensures r.Exit? && r.changed ==>
      var networkView := GetOr(params, "network_view", VStr("default"));
      || (Get(params, "state") == VStr("present") && r.action.Create? && r.action.networkView == networkView
          && r.action.cidr == Get(params, "network") && r.action.extattrs == extattrs
          && (r.action.updateIfExists <==> getNetwork(networkView, Get(params, "network")).Some?))
      || (Get(params, "state") == VStr("absent") && r.action == Delete(networkView, Get(params, "network")))
    ensures Get(params, "state") == VStr("absent") ==>
      r.Exit? && (r.changed <==> search(GetOr(params, "network_view", VStr("default")), Get(params, "network")))
    ensures Get(params, "state") == VStr("get") ==>
      var network := Get(params, "network");
      (r == Failed(NetworkNotFound(network)) <==> Truthy(network) && getNetwork(GetOr(params, "network_view", VStr("default")), network).None?)
    ensures Get(params, "state") == VStr("present") ==>
      (r.Exit? && !r.changed <==> exists objs :: getNetwork(GetOr(params, "network_view", VStr("default")), Get(params, "network")) == Some(objs)
                                   && objs != [] && CompareFields(params, objs[0]))
  {
    var state := Get(params, "state");
    var networkView := GetOr(params, "network_view", VStr("default"));
    var network := Get(params, "network");
    var create := (update: bool) => Create(update, networkView, network, Get(params, "comment"), GetOr(params, "dhcp_options", VNone), extattrs);
    if state == VStr("get") then
      if Truthy(network) then
        if getNetwork(networkView, network).Some? then Exit(false, NoAction) else Failed(NetworkNotFound(network))
      else NoExit
    else if state == VStr("present") then
      match getNetwork(networkView, network)
      case Some(objs) =>
        if objs == [] then Failed(NoExistingNetwork)
        else if !CompareFields(params, objs[0]) then Exit(true, create(true))
        else Exit(false, NoAction)
      case None => Exit(true, create(false))
    else if state == VStr("absent") then
      if search(networkView, network) then Exit(true, Delete(networkView, network)) else Exit(false, NoAction)
    else NoExit
  }

  /** The outcome of the module and the options it hands the connector (None
      when it fails before building them). */
  datatype Run = Run(outcome: Outcome, opts: Option<PyMap>)

  predicate PasswordGiven(params: Dict)
    requires ProviderShape(params)
  {
    Truthy(Get(ProviderOf(params), "password"))
  }

  /** `main` after argument validation. */
  function Main(params: Dict, getNetwork: GetNetwork, search: SearchNetwork): Run
    requires ProviderShape(params)
  {
    if !PasswordGiven(params) then Run(Failed(InvalidProvider), None)
    else
      var merged := Merged(params, ProviderOf(params));
      if exists j | 0 <= j < |RequiredParams| :: !Truthy(Get(merged, RequiredParams[j])) then Run(Failed(ProviderOptionRequired), None)
      else if Get(merged, "members") != VNone then Run(Failed(MembersNotImplemented), None)
      else
        match BuildExtattrs(Get(merged, "extattrs"))
        case Fail(e) => Run(Failed(e), Some(OptsOf(merged)))
        case Ok(extattrs) => Run(Decide(merged, extattrs, getNetwork, search), Some(OptsOf(merged)))
  }

  /** `main`: merges the provider into the parameters in place, then checks
      them and runs the branch of the requested state. */
  method RunModule(m: NetworkModule, getNetwork: GetNetwork, search: SearchNetwork) returns (out: Outcome, opts: Option<PyMap>)
    requires ProviderShape(m.params)
    modifies m
    ensures Run(out, opts) == Main(old(m.params), getNetwork, search)
    ensures m.params == if PasswordGiven(old(m.params)) then Merged(old(m.params), ProviderOf(old(m.params))) else old(m.params)
  {
    var provider := ProviderOf(m.params);
    if !Truthy(Get(provider, "password")) {
      return Failed(InvalidProvider), None;
    }
    MergeProvider(m, provider);
    var j := 0;
    while j < |RequiredParams|
      invariant 0 <= j <= |RequiredParams|
      invariant forall i | 0 <= i < j :: Truthy(Get(m.params, RequiredParams[i]))
    {
      if !Truthy(Get(m.params, RequiredParams[j])) {
        return Failed(ProviderOptionRequired), None;
      }
      j := j + 1;
    }
    if Get(m.params, "members") != VNone {
      return Failed(MembersNotImplemented), None;
    }
    opts := Some(OptsOf(m.params));
    var extattrs := BuildExtattrs(Get(m.params, "extattrs"));
    if extattrs.Fail? {
      return Failed(extattrs.error), opts;
    }
    out := Decide(m.params, extattrs.value, getNetwork, search);
  }

  /** The checks every state passes before touching WAPI. */
  predicate Admitted(params: Dict)
    requires ProviderShape(params)
  {
    && PasswordGiven(params)
    && var merged := Merged(params, ProviderOf(params));
    && (forall j | 0 <= j < |RequiredParams| :: Truthy(Get(merged, RequiredParams[j])))
    && Get(merged, "members") == VNone
    && BuildExtattrs(Get(merged, "extattrs")).Ok?
  }

  /** The provider itself must carry a password: without one the module fails
      with an invalid provider even when the `password` parameter is set. */
  lemma MissingPasswordFails(params: Dict, getNetwork: GetNetwork, search: SearchNetwork)
    requires ProviderShape(params) && !Truthy(Get(ProviderOf(params), "password"))
    ensures Main(params, getNetwork, search).outcome == Failed(InvalidProvider)
  {
  }

  /** Host, username and password must each be set, by the parameters or the
      provider, or the module fails before building any connector options. */
  lemma RequiredParamMissingFails(params: Dict, getNetwork: GetNetwork, search: SearchNetwork, j: nat)
    requires ProviderShape(params) && PasswordGiven(params)
    requires j < |RequiredParams| && !Truthy(Get(Merged(params, ProviderOf(params)), RequiredParams[j]))
    ensures Main(params, getNetwork, search) == Run(Failed(ProviderOptionRequired), None)
  {
  }

  /** Setting `members` fails. */
  lemma MembersFail(params: Dict, getNetwork: GetNetwork, search: SearchNetwork)
    requires ProviderShape(params) && PasswordGiven(params)
    requires forall j | 0 <= j < |RequiredParams| :: Truthy(Get(Merged(params, ProviderOf(params)), RequiredParams[j]))
    requires Get(params, "members") != VNone
    ensures Main(params, getNetwork, search).outcome == Failed(MembersNotImplemented)
  {
    assert "members" !in ValidProvider;
    assert Get(Merged(params, ProviderOf(params)), "members") == Get(params, "members");
  }

  /** present, existing and differing: the network is updated in place and the
      module reports a change. */
  lemma PresentDiffering(params: Dict, getNetwork: GetNetwork, search: SearchNetwork)
    requires ProviderShape(params) && Admitted(params)
    requires var merged := Merged(params, ProviderOf(params));
      var answer := getNetwork(GetOr(merged, "network_view", VStr("default")), Get(merged, "network"));
      && Get(merged, "state") == VStr("present")
      && answer.Some? && answer.value != [] && !CompareFields(merged, answer.value[0])
    ensures Main(params, getNetwork, search).outcome.Exit?
    ensures Main(params, getNetwork, search).outcome.changed
    ensures Main(params, getNetwork, search).outcome.action.Create?
    ensures Main(params, getNetwork, search).outcome.action.updateIfExists
  {
  }

  /** present, existing and equal: nothing changes. */
  lemma PresentEqual(params: Dict, getNetwork: GetNetwork, search: SearchNetwork)
    requires ProviderShape(params) && Admitted(params)
    requires var merged := Merged(params, ProviderOf(params));
      var answer := getNetwork(GetOr(merged, "network_view", VStr("default")), Get(merged, "network"));
      && Get(merged, "state") == VStr("present")
      && answer.Some? && answer.value != [] && CompareFields(merged, answer.value[0])
    ensures Main(params, getNetwork, search).outcome == Exit(false, NoAction)
  {
  }

  /** present and missing: the network is created, without update, and the
      module reports a change. */
  lemma PresentMissing(params: Dict, getNetwork: GetNetwork, search: SearchNetwork)
    requires ProviderShape(params) && Admitted(params)
    requires var merged := Merged(params, ProviderOf(params));
      && Get(merged, "state") == VStr("present")
      && getNetwork(GetOr(merged, "network_view", VStr("default")), Get(merged, "network")).None?
    ensures Main(params, getNetwork, search).outcome.Exit?
    ensures Main(params, getNetwork, search).outcome.changed
    ensures Main(params, getNetwork, search).outcome.action.Create?
    ensures !Main(params, getNetwork, search).outcome.action.updateIfExists
  {
  }

  /** absent: the network is deleted exactly when the search finds it, and
      `changed` says whether it was. */
  lemma AbsentDeletesFound(params: Dict, getNetwork: GetNetwork, search: SearchNetwork)
    requires ProviderShape(params) && Admitted(params)
    requires Get(Merged(params, ProviderOf(params)), "state") == VStr("absent")
    ensures var merged := Merged(params, ProviderOf(params));
      var found := search(GetOr(merged, "network_view", VStr("default")), Get(merged, "network"));
      && Main(params, getNetwork, search).outcome.Exit?
      && Main(params, getNetwork, search).outcome.changed == found
      && (Main(params, getNetwork, search).outcome.action.Delete? <==> found)
  {
  }

  /** Only the present and absent states ever report a change. */
  lemma ChangedOnlyWhenPresentOrAbsent(params: Dict, getNetwork: GetNetwork, search: SearchNetwork)
    requires ProviderShape(params)
    requires Main(params, getNetwork, search).outcome.Exit? && Main(params, getNetwork, search).outcome.changed
    ensures var state := Get(Merged(params, ProviderOf(params)), "state");
      state == VStr("present") || state == VStr("absent")
  {
  }

  /** Every run that reaches WAPI hands the connector the requested version. */
  lemma ConnectorGetsVersion(params: Dict, getNetwork: GetNetwork, search: SearchNetwork)
    requires ProviderShape(params) && Admitted(params)
    ensures Main(params, getNetwork, search).opts.Some?
    ensures Main(params, getNetwork, search).opts.value[VStr("wapi_version")]
      == GetOr(Merged(params, ProviderOf(params)), "wapi_version", VStr(BaseWapi))
  {
  }
}
