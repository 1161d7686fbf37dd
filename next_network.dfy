/** The `nios_next_network` lookup (plugins/lookup/nios_next_network.py): the
    next free networks of a given prefix length inside a network container. */
module NextNetwork {
  import opened Outcomes
  import opened PyValues
  import opened Wapi
  import opened IpAddress

  /** The AnsibleError (or uncaught exception) that ends the lookup. */
  datatype LookupError =
    | NetworkMissing                          // no term given
    | NetworkInvalid(term: string)            // ValueError/TypeError of strict parsing
    | CidrNotComparable(given: Value)         // TypeError comparing the prefix length with cidr
    | CidrNotGreater(cidr: int, prefixLen: nat)
    | CidrOutOfRange(cidr: int)
    | NotIpNetwork(term: string)
    | ContainerNotFound(network: string)
    | NoRecords
    | NetworkViewMissing                      // a reference without a network view
    | CallFailed                              // the function call raised, or gave no networks

  /** The object type of IPv4 and IPv6 network containers in WAPI. */
  const Ipv4Container: string := "networkcontainer"
  const Ipv6Container: string := "ipv6networkcontainer"

  /** The requested prefix length, 24 by default. */
  function Cidr(kwargs: Dict): Value
  {
    GetOr(kwargs, "cidr", VInt(24))
  }

  /** The exclusive upper bound of `range(1, n)` that cidr must lie in. */
  function CidrLimit(version: int): int
    requires version == 4 || version == 6
  {
    if version == 4 then 32 else 128
  }

  /** The references of the objects in `network_view`, in order; a KeyError
      when any object lacks the field. */
  function ViewRefs(objs: seq<WapiObj>, view: Value): (r: Result<seq<string>, LookupError>)
    ensures r.Ok? <==> forall j | 0 <= j < |objs| :: "network_view" in objs[j].fields
    ensures r.Fail? ==> r.error == NetworkViewMissing
    ensures r.Ok? ==> |r.value| <= |objs|
    ensures r.Ok? ==> forall ref | ref in r.value :: exists j | 0 <= j < |objs| :: objs[j].ref == ref && objs[j].fields["network_view"] == view
    ensures r.Ok? ==> (r.value == [] <==> forall j | 0 <= j < |objs| :: objs[j].fields["network_view"] != view)
    ensures r.Ok? && r.value != [] ==> exists j | 0 <= j < |objs| ::
      && objs[j].ref == r.value[0] && objs[j].fields["network_view"] == view
      && forall i | 0 <= i < j :: objs[i].fields["network_view"] != view
  {
    if objs == [] then Ok([])
    else
      var rest := ViewRefs(objs[1..], view);
      assert forall j | 1 <= j < |objs| :: objs[1..][j - 1] == objs[j];
      if "network_view" !in objs[0].fields then Fail(NetworkViewMissing)
      else if rest.Fail? then rest
      else if objs[0].fields["network_view"] == view then
        assert objs[0].ref == ([objs[0].ref] + rest.value)[0];
        Ok([objs[0].ref] + rest.value)
      else
        Ok(rest.value)
  }

  /** The call that reserves the networks. */
  function NextNetworkCall(ref: string, cidr: Value, kwargs: Dict): FuncCall
  {
    FuncCall("next_available_network", ref, map["cidr" := cidr, "num" := GetOr(kwargs, "num", VInt(1)), "exclude" := GetOr(kwargs, "exclude", VList([]))])
  }

  /** `LookupModule.run` */
  function Run(terms: seq<string>, kwargs: Dict, parse: ParseNetwork, getObject: GetObject, callFunc: CallFunc): (r: Result<seq<Value>, LookupError>)
    ensures r == Fail(NetworkMissing) <==> terms == []
    ensures terms != [] ==> (r == Fail(NetworkInvalid(terms[0])) <==> parse(terms[0], true).None?)
    ensures terms != [] && parse(terms[0], true).Some? ==> (r == Fail(CidrNotComparable(Cidr(kwargs))) <==> !Cidr(kwargs).VInt?)
    ensures r.Ok? ==> |r.value| == 1 && r.value[0].VList?
  {
    if terms == [] then Fail(NetworkMissing)
    else match parse(terms[0], true)
    case None => Fail(NetworkInvalid(terms[0]))
    case Some(network) =>
      var cidr := Cidr(kwargs);
      if !cidr.VInt? then Fail(CidrNotComparable(cidr))
      else
      var c := cidr.i;
      if network.prefixLen >= c then Fail(CidrNotGreater(c, network.prefixLen))
      else if network.version != 4 && network.version != 6 then Fail(NotIpNetwork(terms[0]))
      else if !(1 <= c < CidrLimit(network.version)) then Fail(CidrOutOfRange(c))
      else if network.prefixLen >= c then Fail(CidrNotGreater(c, network.prefixLen))
      else
        var containerType := if network.version == 4 then Ipv4Container else Ipv6Container;
        match getObject(Query(containerType, map["network" := VStr(network.withPrefixLen)]))
        case None => Fail(ContainerNotFound(network.withPrefixLen))
        case Some(objs) =>
          match ViewRefs(objs, GetOr(kwargs, "network_view", VStr("default")))
          case Fail(e) => Fail(e)
          case Ok(refs) =>
            if refs == [] then Fail(NoRecords)
            else match callFunc(NextNetworkCall(refs[0], cidr, kwargs))
            case None => Fail(CallFailed)
            case Some(networks) => Ok([VList(networks)])
  }

  /** A successful lookup asked for a prefix length strictly longer than the
      container's and within 1..31 for IPv4 or 1..127 for IPv6, defaulting to 24. */
  lemma RunOkCidr(terms: seq<string>, kwargs: Dict, parse: ParseNetwork, getObject: GetObject, callFunc: CallFunc)
    requires Run(terms, kwargs, parse, getObject, callFunc).Ok?
    ensures terms != [] && parse(terms[0], true).Some?
    ensures var network := parse(terms[0], true).value;
      && Cidr(kwargs).VInt?
      && network.prefixLen < Cidr(kwargs).i
      && (network.version == 4 ==> 1 <= Cidr(kwargs).i <= 31)
      && (network.version == 6 ==> 1 <= Cidr(kwargs).i <= 127)
      && (network.version == 4 || network.version == 6)
    ensures "cidr" !in kwargs ==> Cidr(kwargs) == VInt(24)
  {
  }

  /** A successful lookup queried the container of the term's IP version and
      wraps the networks WAPI returned for the first reference in the view. */
  lemma RunOkResult(terms: seq<string>, kwargs: Dict, parse: ParseNetwork, getObject: GetObject, callFunc: CallFunc)
    requires Run(terms, kwargs, parse, getObject, callFunc).Ok?
    ensures terms != [] && parse(terms[0], true).Some?
    ensures var network := parse(terms[0], true).value;
      var containerType := if network.version == 4 then Ipv4Container else Ipv6Container;
      var answer := getObject(Query(containerType, map["network" := VStr(network.withPrefixLen)]));
      && answer.Some?
      && var refs := ViewRefs(answer.value, GetOr(kwargs, "network_view", VStr("default")));
      && refs.Ok? && refs.value != []
      && var networks := callFunc(NextNetworkCall(refs.value[0], Cidr(kwargs), kwargs));
      && networks.Some?
      && Run(terms, kwargs, parse, getObject, callFunc).value == [VList(networks.value)]
  {
  }

  /** The `range` bound is exclusive: /32 under IPv4 and /128 under IPv6 are refused. */
  lemma FullLengthPrefixRefused(terms: seq<string>, kwargs: Dict, parse: ParseNetwork, getObject: GetObject, callFunc: CallFunc)
    requires terms != [] && parse(terms[0], true).Some?
    requires var network := parse(terms[0], true).value;
      || (network.version == 4 && Cidr(kwargs) == VInt(32))
      || (network.version == 6 && Cidr(kwargs) == VInt(128))
    ensures Run(terms, kwargs, parse, getObject, callFunc).Fail?
  {
  }

  /** A cidr no longer than the container's prefix fails before any lookup. */
  lemma ShortCidrFailsBeforeLookup(terms: seq<string>, kwargs: Dict, parse: ParseNetwork,
                                   getObject1: GetObject, callFunc1: CallFunc, getObject2: GetObject, callFunc2: CallFunc)
    requires terms != [] && parse(terms[0], true).Some?
    requires Cidr(kwargs).VInt? && parse(terms[0], true).value.prefixLen >= Cidr(kwargs).i
    ensures Run(terms, kwargs, parse, getObject1, callFunc1) == Fail(CidrNotGreater(Cidr(kwargs).i, parse(terms[0], true).value.prefixLen))
    ensures Run(terms, kwargs, parse, getObject1, callFunc1) == Run(terms, kwargs, parse, getObject2, callFunc2)
  {
  }
}
