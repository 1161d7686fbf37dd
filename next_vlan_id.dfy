/** The `nios_next_vlan_id` lookup (plugins/lookup/nios_next_vlan_id.py): the
    next free VLAN ids of a VLAN range, or failing that of a VLAN view. */
module NextVlanId {
  import opened Outcomes
  import opened PyValues
  import opened Wapi

  /** The AnsibleError that ends the lookup. */
  datatype LookupError =
    | ParentNotFound(parent: Value)   // neither a range nor a view of that name
    | CallFailed                      // the function call raised, or gave no VLAN ids

  /** The parent name, `default` when not given. */
  function Parent(kwargs: Dict): Value
  {
    GetOr(kwargs, "parent", VStr("default"))
  }

  /** The call that reserves the ids under the parent. */
  function NextVlanIdCall(ref: string, kwargs: Dict): (c: FuncCall)
    ensures c.name == "next_available_vlan_id" && c.ref == ref
    ensures c.args.Keys == {"num", "exclude"}
    ensures "num" !in kwargs ==> c.args["num"] == VInt(1)
    ensures "exclude" !in kwargs ==> c.args["exclude"] == VList([])
  {
    FuncCall("next_available_vlan_id", ref, map["num" := GetOr(kwargs, "num", VInt(1)), "exclude" := GetOr(kwargs, "exclude", VList([]))])
  }

  /** `LookupModule.run`: the first VLAN range of that name wins over the first
      VLAN view; the ids come back wrapped in a one-element list. */
  function Run(kwargs: Dict, getObject: GetObject, callFunc: CallFunc): (r: Result<seq<Value>, LookupError>)
    ensures var view := getObject(NameQuery("vlanview", Parent(kwargs)));
      var range := getObject(NameQuery("vlanrange", Parent(kwargs)));
      && (!Found(range) && !Found(view) ==> r == Fail(ParentNotFound(Parent(kwargs))))
      && (Found(range) ==> r == Wrap(callFunc(NextVlanIdCall(FirstRef(range), kwargs))))
      && (!Found(range) && Found(view) ==> r == Wrap(callFunc(NextVlanIdCall(FirstRef(view), kwargs))))
  {
    var view := getObject(NameQuery("vlanview", Parent(kwargs)));
    var range := getObject(NameQuery("vlanrange", Parent(kwargs)));
    match PreferredRef(range, view)
    case None => Fail(ParentNotFound(Parent(kwargs)))
    case Some(parentRef) => Wrap(callFunc(NextVlanIdCall(parentRef, kwargs)))
  }

  /** The VLAN ids wrapped in a one-element list, or the error the exception becomes. */
  function Wrap(answer: Option<seq<Value>>): (r: Result<seq<Value>, LookupError>)
    ensures answer.None? <==> r == Fail(CallFailed)
    ensures answer.Some? ==> r == Ok([VList(answer.value)])
  {
    if answer.None? then Fail(CallFailed) else Ok([VList(answer.value)])
  }

  /** A VLAN range match decides the parent whatever the view lookup answers. */
  lemma RangeWinsOverView(kwargs: Dict, getObject1: GetObject, getObject2: GetObject, callFunc: CallFunc)
    requires getObject1(NameQuery("vlanrange", Parent(kwargs))) == getObject2(NameQuery("vlanrange", Parent(kwargs)))
    requires Found(getObject1(NameQuery("vlanrange", Parent(kwargs))))
    ensures Run(kwargs, getObject1, callFunc) == Run(kwargs, getObject2, callFunc)
  {
  }
}
