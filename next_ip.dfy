/** The `nios_next_ip` lookup (plugins/lookup/nios_next_ip.py): the next free
    addresses of the first network or range in the view that has enough. */
module NextIp {
  import opened Outcomes
  import opened PyValues
  import opened Wapi
  import opened IpAddress

  /** The AnsibleError (or uncaught exception) that ends the lookup. */
  datatype LookupError =
    | NetworkMissing                  // no term given
    | NetworkInvalid(term: string)    // ValueError of strict parsing
    | NetworkNotFound(term: string)
    | NetworkViewMissing              // a reference without a network view
    | NoRecords
    | NotEnoughIps                    // no reference offers enough addresses

  /** The WAPI object type searched: a range when `use_range` is truthy, else a
      network, of the term's IP version. */
  function ObjectType(network: IpNetwork, kwargs: Dict): (t: string)
    ensures network.version == 6 && Truthy(GetOr(kwargs, "use_range", VBool(false))) ==> t == "ipv6range"
    ensures network.version == 6 && !Truthy(GetOr(kwargs, "use_range", VBool(false))) ==> t == "ipv6network"
    ensures network.version != 6 && Truthy(GetOr(kwargs, "use_range", VBool(false))) ==> t == "range"
    ensures network.version != 6 && !Truthy(GetOr(kwargs, "use_range", VBool(false))) ==> t == "network"
  {
    var useRange := Truthy(GetOr(kwargs, "use_range", VBool(false)));
    if network.version == 6 then (if useRange then "ipv6range" else "ipv6network")
    else (if useRange then "range" else "network")
  }

  /** The search for the term's network or range in the requested view. */
  function ViewQuery(network: IpNetwork, term: string, kwargs: Dict): Query
  {
    Query(ObjectType(network, kwargs), map["network" := VStr(term), "network_view" := GetOr(kwargs, "network_view", VStr("default"))])
  }

  /** The references of the objects that name the view. */
  ghost function InViewRefs(objs: seq<WapiObj>, view: Value): set<string>
  {
    set j | 0 <= j < |objs| && "network_view" in objs[j].fields && objs[j].fields["network_view"] == view :: objs[j].ref
  }

  /** The references of the objects in the view, in order; a KeyError when any
      object lacks the field. */
  function ViewRefs(objs: seq<WapiObj>, view: Value): (r: Result<seq<string>, LookupError>)
    ensures r.Ok? <==> forall j | 0 <= j < |objs| :: "network_view" in objs[j].fields
    ensures r.Fail? ==> r.error == NetworkViewMissing
    ensures r.Ok? ==> (r.value == [] <==> forall j | 0 <= j < |objs| :: objs[j].fields["network_view"] != view)
    ensures r.Ok? ==> forall k | 0 <= k < |r.value| :: r.value[k] in InViewRefs(objs, view)
  {
    if objs == [] then Ok([])
    else
      var rest := ViewRefs(objs[1..], view);
      assert forall j | 1 <= j < |objs| :: objs[1..][j - 1] == objs[j];
      if "network_view" !in objs[0].fields then Fail(NetworkViewMissing)
      else if rest.Fail? then rest
      else if objs[0].fields["network_view"] == view then Ok([objs[0].ref] + rest.value)
      else Ok(rest.value)
  }

  /** Each position moved one place on, past a dropped head. */
  function Shift(s: seq<nat>): (r: seq<nat>)
    ensures |r| == |s|
    ensures forall k | 0 <= k < |s| :: r[k] == s[k] + 1
  {
    seq(|s|, k requires 0 <= k < |s| => s[k] + 1)
  }

  /** The positions of the objects in the view, in WAPI's order. */
  ghost function Positions(objs: seq<WapiObj>, view: Value): seq<nat>
  {
    if objs == [] then []
    else
      var rest := Shift(Positions(objs[1..], view));
      if "network_view" in objs[0].fields && objs[0].fields["network_view"] == view then [0] + rest else rest
  }

  /** As many positions as references. */
  lemma {:induction false} PositionsCount(objs: seq<WapiObj>, view: Value)
    requires ViewRefs(objs, view).Ok?
    ensures |Positions(objs, view)| == |ViewRefs(objs, view).value|
  {
    if objs != [] {
      PositionsCount(objs[1..], view);
    }
  }

  /** Every position is that of an object in the view. */
  lemma {:induction false} PositionsInView(objs: seq<WapiObj>, view: Value)
    ensures forall k | 0 <= k < |Positions(objs, view)| ::
      && Positions(objs, view)[k] < |objs|
      && "network_view" in objs[Positions(objs, view)[k]].fields
      && objs[Positions(objs, view)[k]].fields["network_view"] == view
  {
    if objs != [] {
      var tail := objs[1..];
      PositionsInView(tail, view);
      var rest := Positions(tail, view);
      forall k | 0 <= k < |rest|
        ensures rest[k] + 1 < |objs| && objs[rest[k] + 1] == tail[rest[k]]
      {
      }
    }
  }

  /** The references of the objects in the view, without the failure case. */
  ghost function RefsIn(objs: seq<WapiObj>, view: Value): seq<string>
  {
    if objs == [] then []
    else
      var rest := RefsIn(objs[1..], view);
      if "network_view" in objs[0].fields && objs[0].fields["network_view"] == view then [objs[0].ref] + rest else rest
  }

  /** A successful `ViewRefs` is `RefsIn`. */
  lemma {:induction false} ViewRefsIsRefsIn(objs: seq<WapiObj>, view: Value)
    requires ViewRefs(objs, view).Ok?
    ensures ViewRefs(objs, view).value == RefsIn(objs, view)
  {
    if objs != [] {
      ViewRefsIsRefsIn(objs[1..], view);
    }
  }

  /** Reference k is that of the object at position k. */
  lemma {:induction false} PositionRef(objs: seq<WapiObj>, view: Value, k: nat)
    requires k < |Positions(objs, view)| && k < |RefsIn(objs, view)|
    ensures Positions(objs, view)[k] < |objs| && objs[Positions(objs, view)[k]].ref == RefsIn(objs, view)[k]
    decreases |objs|
  {
    var tail := objs[1..];
    var rest := Positions(tail, view);
    var refs := RefsIn(tail, view);
    var k' := k;
    if "network_view" in objs[0].fields && objs[0].fields["network_view"] == view {
      if k == 0 {
        return;
      }
      k' := k - 1;
      assert Positions(objs, view)[k] == Shift(rest)[k'] && RefsIn(objs, view)[k] == refs[k'];
    } else {
      assert Positions(objs, view)[k] == Shift(rest)[k'] && RefsIn(objs, view)[k] == refs[k'];
    }
    PositionRef(tail, view, k');
    assert objs[rest[k'] + 1] == tail[rest[k']];
  }

  /** Every reference is that of the object at its position. */
  lemma PositionsRefs(objs: seq<WapiObj>, view: Value)
    requires ViewRefs(objs, view).Ok?
    ensures |Positions(objs, view)| == |ViewRefs(objs, view).value|
    ensures forall k | 0 <= k < |Positions(objs, view)| ::
      Positions(objs, view)[k] < |objs| && objs[Positions(objs, view)[k]].ref == ViewRefs(objs, view).value[k]
  {
    PositionsCount(objs, view);
    ViewRefsIsRefsIn(objs, view);
    forall k | 0 <= k < |Positions(objs, view)|
      ensures Positions(objs, view)[k] < |objs| && objs[Positions(objs, view)[k]].ref == ViewRefs(objs, view).value[k]
    {
      PositionRef(objs, view, k);
    }
  }

  /** The positions ascend strictly. */
  lemma {:induction false} PositionsAscend(objs: seq<WapiObj>, view: Value)
    ensures forall k | 0 <= k < |Positions(objs, view)| - 1 :: Positions(objs, view)[k] < Positions(objs, view)[k + 1]
  {
    if objs != [] {
      PositionsAscend(objs[1..], view);
    }
  }

  /** No object in the view is left out. */
  lemma {:induction false} PositionsCover(objs: seq<WapiObj>, view: Value)
    ensures forall j | 0 <= j < |objs| && "network_view" in objs[j].fields && objs[j].fields["network_view"] == view ::
      j in Positions(objs, view)
  {
    if objs != [] {
      var tail := objs[1..];
      PositionsCover(tail, view);
      var rest := Positions(tail, view);
      forall j | 1 <= j < |objs| && "network_view" in objs[j].fields && objs[j].fields["network_view"] == view
        ensures j in Shift(rest)
      {
        assert objs[j] == tail[j - 1];
        var k :| 0 <= k < |rest| && rest[k] == j - 1;
        assert Shift(rest)[k] == j;
      }
    }
  }

  /** The references come out in WAPI's order and none in the view is left
      out: `idx` lists the positions of exactly the objects in the view,
      ascending, and reference k is that of object idx[k]. */
  lemma ViewRefsInOrder(objs: seq<WapiObj>, view: Value) returns (idx: seq<nat>)
    requires ViewRefs(objs, view).Ok?
    ensures |idx| == |ViewRefs(objs, view).value|
    ensures forall k | 0 <= k < |idx| ::
      idx[k] < |objs| && objs[idx[k]].ref == ViewRefs(objs, view).value[k] && objs[idx[k]].fields["network_view"] == view
    ensures forall k | 0 <= k < |idx| - 1 :: idx[k] < idx[k + 1]
    ensures forall j | 0 <= j < |objs| && objs[j].fields["network_view"] == view :: j in idx
  {
    idx := Positions(objs, view);
    PositionsInView(objs, view);
    PositionsRefs(objs, view);
    PositionsAscend(objs, view);
    PositionsCover(objs, view);
  }

  /** The call that reserves addresses in one network or range. */
  function NextIpCall(ref: string, kwargs: Dict): FuncCall
  {
    FuncCall("next_available_ip", ref, map["num" := GetOr(kwargs, "num", VInt(1)), "exclude" := GetOr(kwargs, "exclude", VList([]))])
  }

  /** The call answered at least `num` addresses; a call that raises, or a `num` that is not
      an int, counts as not enough (the exception is swallowed). */
  predicate Enough(answer: Option<seq<Value>>, num: Value)
  {
    answer.Some? && num.VInt? && |answer.value| >= num.i
  }

  /** The loop over the references: the addresses of the first one that has
      enough. */
  function FirstEnough(refs: seq<string>, kwargs: Dict, callFunc: CallFunc): (r: Option<seq<Value>>)
    ensures r.Some? <==> exists j | 0 <= j < |refs| :: Enough(callFunc(NextIpCall(refs[j], kwargs)), GetOr(kwargs, "num", VInt(1)))
    ensures r.Some? ==> exists j | 0 <= j < |refs| ::
      && callFunc(NextIpCall(refs[j], kwargs)) == Some(r.value)
      && Enough(Some(r.value), GetOr(kwargs, "num", VInt(1)))
      && forall i | 0 <= i < j :: !Enough(callFunc(NextIpCall(refs[i], kwargs)), GetOr(kwargs, "num", VInt(1)))
  {
    if refs == [] then None
    else
      var answer := callFunc(NextIpCall(refs[0], kwargs));
      if Enough(answer, GetOr(kwargs, "num", VInt(1))) then Some(answer.value)
      else
        var rest := FirstEnough(refs[1..], kwargs, callFunc);
        assert forall j | 1 <= j < |refs| :: refs[1..][j - 1] == refs[j];
        rest
  }

  /** `LookupModule.run` */
  function Run(terms: seq<string>, kwargs: Dict, parse: ParseNetwork, getObject: GetObject, callFunc: CallFunc): (r: Result<seq<Value>, LookupError>)
    ensures r == Fail(NetworkMissing) <==> terms == []
    ensures terms != [] ==> (r == Fail(NetworkInvalid(terms[0])) <==> parse(terms[0], true).None?)
    ensures r.Ok? ==> |r.value| == 1 && r.value[0].VList?
  {
    if terms == [] then Fail(NetworkMissing)
    else match parse(terms[0], true)
    case None => Fail(NetworkInvalid(terms[0]))
    case Some(network) =>
      var view := GetOr(kwargs, "network_view", VStr("default"));
      match getObject(ViewQuery(network, terms[0], kwargs))
      case None => Fail(NetworkNotFound(terms[0]))
      case Some(objs) =>
        match ViewRefs(objs, view)
        case Fail(e) => Fail(e)
        case Ok(refs) =>
          if refs == [] then Fail(NoRecords)
          else match FirstEnough(refs, kwargs, callFunc)
          case None => Fail(NotEnoughIps)
          case Some(ips) => Ok([VList(ips)])
  }

  /** A successful lookup parsed the term strictly and found objects of the
      term's type, some of them in the view. */
  lemma RunOkFound(terms: seq<string>, kwargs: Dict, parse: ParseNetwork, getObject: GetObject, callFunc: CallFunc)
    requires Run(terms, kwargs, parse, getObject, callFunc).Ok?
    ensures terms != [] && parse(terms[0], true).Some?
    ensures var view := GetOr(kwargs, "network_view", VStr("default"));
      var answer := getObject(ViewQuery(parse(terms[0], true).value, terms[0], kwargs));
      && answer.Some?
      && var refs := ViewRefs(answer.value, view);
      && refs.Ok? && refs.value != []
  {
    if terms == [] || parse(terms[0], true).None? {
      assert false;
    } else {
      var view := GetOr(kwargs, "network_view", VStr("default"));
      var answer := getObject(ViewQuery(parse(terms[0], true).value, terms[0], kwargs));
      if answer.None? {
        assert false;
      } else {
        var refs := ViewRefs(answer.value, view);
        if refs.Fail? {
          assert false;
        } else if refs.value == [] {
          assert false;
        }
      }
    }
  }

  /** It returns, wrapped in a one-element list, the addresses of the first
      reference in the view that offered enough. */
  lemma RunOkResult(terms: seq<string>, kwargs: Dict, parse: ParseNetwork, getObject: GetObject, callFunc: CallFunc)
    requires Run(terms, kwargs, parse, getObject, callFunc).Ok?
    ensures terms != [] && parse(terms[0], true).Some?
    ensures var view := GetOr(kwargs, "network_view", VStr("default"));
      var answer := getObject(ViewQuery(parse(terms[0], true).value, terms[0], kwargs));
      && answer.Some? && ViewRefs(answer.value, view).Ok?
      && FirstEnough(ViewRefs(answer.value, view).value, kwargs, callFunc).Some?
      && Run(terms, kwargs, parse, getObject, callFunc).value == [VList(FirstEnough(ViewRefs(answer.value, view).value, kwargs, callFunc).value)]
  {
    RunOkFound(terms, kwargs, parse, getObject, callFunc);
  }

  /** The one list returned holds at least `num` addresses (one by default). */
  lemma RunOk(terms: seq<string>, kwargs: Dict, parse: ParseNetwork, getObject: GetObject, callFunc: CallFunc)
    requires Run(terms, kwargs, parse, getObject, callFunc).Ok?
    ensures var result := Run(terms, kwargs, parse, getObject, callFunc).value;
      && |result| == 1 && result[0].VList?
      && var num := GetOr(kwargs, "num", VInt(1));
      && num.VInt? && |result[0].items| >= num.i
      && ("num" !in kwargs ==> |result[0].items| >= 1)
  {
    RunOkResult(terms, kwargs, parse, getObject, callFunc);
    var network := parse(terms[0], true).value;
    var view := GetOr(kwargs, "network_view", VStr("default"));
    var objs := getObject(ViewQuery(network, terms[0], kwargs)).value;
    var refs := ViewRefs(objs, view).value;
    var ips := FirstEnough(refs, kwargs, callFunc).value;
    assert Enough(Some(ips), GetOr(kwargs, "num", VInt(1)));
  }

  /** When no reference in the view offers enough addresses, the lookup fails. */
  lemma NoneEnoughFails(terms: seq<string>, kwargs: Dict, parse: ParseNetwork, getObject: GetObject, callFunc: CallFunc, refs: seq<string>)
    requires terms != [] && parse(terms[0], true).Some?
    requires var view := GetOr(kwargs, "network_view", VStr("default"));
      var answer := getObject(ViewQuery(parse(terms[0], true).value, terms[0], kwargs));
      answer.Some? && ViewRefs(answer.value, view) == Ok(refs)
    requires forall j | 0 <= j < |refs| :: !Enough(callFunc(NextIpCall(refs[j], kwargs)), GetOr(kwargs, "num", VInt(1)))
    ensures Run(terms, kwargs, parse, getObject, callFunc).Fail?
  {
  }
}
