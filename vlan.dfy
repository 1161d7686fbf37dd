/** The `parent` transform of the VLAN module (plugins/modules/nios_vlan.py):
    a VLAN range of that name is preferred over a VLAN view of that name. */
module NiosVlan {
  import opened Outcomes
  import opened PyValues
  import opened Wapi

  datatype ParentError = ParentNotFound(parent: string)   // neither a range nor a view of that name

  /** The parent parameter is set and non-empty. */
  predicate HasParent(parent: Option<string>)
  {
    parent.Some? && parent.value != ""
  }

  /** The two lookups the transform makes, the view first and the range second;
      none when there is no parent. */
  function ParentLookups(parent: Option<string>): (qs: seq<Query>)
    ensures HasParent(parent) <==> |qs| == 2
    ensures !HasParent(parent) ==> qs == []
    ensures HasParent(parent) ==> qs[0] == NameQuery("vlanview", VStr(parent.value)) && qs[1] == NameQuery("vlanrange", VStr(parent.value))
  {
    if HasParent(parent) then [NameQuery("vlanview", VStr(parent.value)), NameQuery("vlanrange", VStr(parent.value))]
    else []
  }

  /** `parent_transform`: the empty string without a parent; otherwise the
      first range match, else the first view match, else a failure. */
  function ParentTransform(parent: Option<string>, lookup: GetObject): (r: Result<string, ParentError>)
    ensures !HasParent(parent) ==> r == Ok("")
    ensures HasParent(parent) ==>
      var view := lookup(ParentLookups(parent)[0]);
      var range := lookup(ParentLookups(parent)[1]);
      && (Found(range) ==> r == Ok(FirstRef(range)))
      && (!Found(range) && Found(view) ==> r == Ok(FirstRef(view)))
      && (!Found(range) && !Found(view) ==> r == Fail(ParentNotFound(parent.value)))
  {
    if !HasParent(parent) then Ok("")
    else
      var lookups := ParentLookups(parent);
      var view := lookup(lookups[0]);
      var range := lookup(lookups[1]);
      match PreferredRef(range, view)
      case Some(ref) => Ok(ref)
      case None => Fail(ParentNotFound(parent.value))
  }

  /** The outcome depends on the WAPI answers to the two lookups only. */
  lemma ParentDependsOnLookupsOnly(parent: Option<string>, lookup1: GetObject, lookup2: GetObject)
    requires forall q | q in ParentLookups(parent) :: lookup1(q) == lookup2(q)
    ensures ParentTransform(parent, lookup1) == ParentTransform(parent, lookup2)
  {
    if HasParent(parent) {
      assert lookup1(ParentLookups(parent)[0]) == lookup2(ParentLookups(parent)[0]);
      assert lookup1(ParentLookups(parent)[1]) == lookup2(ParentLookups(parent)[1]);
    }
  }
}
