/** The rule transforms of the DTC topology module
    (plugins/modules/nios_dtc_topology.py): each rule's destination is resolved
    to a pool or a server reference and its sources are cleaned. */
module DtcTopology {
  import opened Outcomes
  import opened PyValues
  import opened Wapi

  datatype TopologyError =
    | SourceTypeAndValueRequired         // a source lacking its type or value
    | DestinationMissing(link: Option<string>)   // a REGULAR rule whose destination is not found

  predicate HasTypeAndValue(src: Dict)
  {
    "source_type" in src && "source_value" in src
  }

  /** `sources_transform`: every source loses its None entries, and one that
      then lacks `source_type` or `source_value` fails. */
  function SourcesTransform(sources: seq<Dict>): (r: Result<seq<Dict>, TopologyError>)
    ensures r.Ok? <==> forall j | 0 <= j < |sources| :: HasTypeAndValue(DropNone(sources[j]))
    ensures r.Ok? ==> |r.value| == |sources| && forall j | 0 <= j < |sources| :: r.value[j] == DropNone(sources[j])
    ensures r.Fail? ==> r.error == SourceTypeAndValueRequired
  {
    if sources == [] then Ok([])
    else
      var src := DropNone(sources[0]);
      if !HasTypeAndValue(src) then Fail(SourceTypeAndValueRequired)
      else
        var rest := SourcesTransform(sources[1..]);
        assert forall j | 1 <= j < |sources| :: sources[1..][j - 1] == sources[j];
        if rest.Fail? then rest else Ok([src] + rest.value)
  }

  /** A rule of the playbook. */
  datatype Rule = Rule(destType: string, destinationLink: Option<string>, returnType: string, sources: Option<seq<Dict>>)

  /** The rule sent to WAPI; `sources` is None when the key is absent. */
  datatype TfRule = TfRule(destType: string, destinationLink: Option<string>, returnType: string, sources: Option<seq<Dict>>)

  /** The rule has a non-empty list of sources. */
  predicate HasSources(rule: Rule)
  {
    rule.sources.Some? && rule.sources.value != []
  }

  /** The lookup of a rule's destination: a POOL destination among the DTC
      pools, anything else among the DTC servers, by name. */
  function DestQuery(rule: Rule): (q: Query)
    ensures q.objType == (if rule.destType == "POOL" then "dtc:pool" else "dtc:server")
    ensures q.fields.Keys == {"name"} && q.fields["name"] == OptStr(rule.destinationLink)
  {
    NameQuery(if rule.destType == "POOL" then "dtc:pool" else "dtc:server", OptStr(rule.destinationLink))
  }

  /** One iteration of `rules_transform`. */
  function ResolveRule(rule: Rule, lookup: GetObject): Result<TfRule, TopologyError>
  {
    var destObj := lookup(DestQuery(rule));
    if !Found(destObj) && rule.returnType == "REGULAR" then Fail(DestinationMissing(rule.destinationLink))
    else
      var link := if Found(destObj) then Some(FirstRef(destObj)) else None;
      if !HasSources(rule) then Ok(TfRule(rule.destType, link, rule.returnType, None))
      else
        var srcs := SourcesTransform(rule.sources.value);
        if srcs.Fail? then Fail(srcs.error)
        else Ok(TfRule(rule.destType, link, rule.returnType, Some(srcs.value)))
  }

  /** One rule: a missing destination fails only under a REGULAR answer and
      otherwise gives no link; a found one gives the first match's reference;
      the rule keeps its type and return type, and carries its cleaned sources
      exactly when it has some. */
  lemma ResolveRuleCases(rule: Rule, lookup: GetObject)
    ensures var found := Found(lookup(DestQuery(rule)));
      && (!found && rule.returnType == "REGULAR" ==> ResolveRule(rule, lookup) == Fail(DestinationMissing(rule.destinationLink)))
      && (found || rule.returnType != "REGULAR" ==>
            (ResolveRule(rule, lookup).Ok? <==> !HasSources(rule) || SourcesTransform(rule.sources.value).Ok?))
      && (ResolveRule(rule, lookup).Ok? ==>
            && ResolveRule(rule, lookup).value.destType == rule.destType
            && ResolveRule(rule, lookup).value.returnType == rule.returnType
            && ResolveRule(rule, lookup).value.destinationLink == (if found then Some(FirstRef(lookup(DestQuery(rule)))) else None)
            && (ResolveRule(rule, lookup).value.sources.Some? <==> HasSources(rule))
            && (ResolveRule(rule, lookup).value.sources.Some? ==> SourcesTransform(rule.sources.value) == Ok(ResolveRule(rule, lookup).value.sources.value)))
  {
  }

  /** The loop of `rules_transform` over the rules still to do. */
  function ResolveRules(rules: seq<Rule>, lookup: GetObject): (r: Result<seq<TfRule>, TopologyError>)
    ensures r.Ok? <==> forall j | 0 <= j < |rules| :: ResolveRule(rules[j], lookup).Ok?
    ensures r.Ok? ==> |r.value| == |rules|
    ensures r.Ok? ==> forall j | 0 <= j < |rules| :: r.value[j] == ResolveRule(rules[j], lookup).value
  {
    if rules == [] then Ok([])
    else
      var head := ResolveRule(rules[0], lookup);
      if head.Fail? then Fail(head.error)
      else
        var rest := ResolveRules(rules[1..], lookup);
        assert forall j | 1 <= j < |rules| :: rules[1..][j - 1] == rules[j];
        if rest.Fail? then rest else Ok([head.value] + rest.value)
  }

  /** `rules_transform`: no rules, or an empty list, gives the empty list. */
  function RulesTransform(rules: Option<seq<Rule>>, lookup: GetObject): (r: Result<seq<TfRule>, TopologyError>)
    ensures rules.None? || rules.value == [] ==> r == Ok([])
    ensures rules.Some? ==> r == ResolveRules(rules.value, lookup)
  {
    if rules.None? || rules.value == [] then Ok([]) else ResolveRules(rules.value, lookup)
  }

  /** The index of the first rule that fails. */
  lemma {:induction false} FirstFailingRule(rules: seq<Rule>, lookup: GetObject) returns (j: nat)
    requires ResolveRules(rules, lookup).Fail?
    ensures j < |rules|
    ensures ResolveRule(rules[j], lookup) == Fail(ResolveRules(rules, lookup).error)
    ensures forall i | 0 <= i < j :: ResolveRule(rules[i], lookup).Ok?
  {
    if ResolveRule(rules[0], lookup).Ok? {
      var tail := rules[1..];
      assert ResolveRules(rules, lookup) == ResolveRules(tail, lookup);
      var k := FirstFailingRule(tail, lookup);
      assert forall i | 1 <= i <= k + 1 :: rules[i] == tail[i - 1];
      j := k + 1;
    } else {
      j := 0;
    }
  }


  /** On failure, the error is that of the first rule that fails, and every
      rule before it resolves. */
  lemma ResolveRulesFirstFailure(rules: seq<Rule>, lookup: GetObject)
    requires ResolveRules(rules, lookup).Fail?
    ensures exists j | 0 <= j < |rules| ::
      && ResolveRule(rules[j], lookup) == Fail(ResolveRules(rules, lookup).error)
      && forall i | 0 <= i < j :: ResolveRule(rules[i], lookup).Ok?
  {
    var j := FirstFailingRule(rules, lookup);
  }

  /** A missing destination is tolerated unless the rule asks for a REGULAR
      answer: the rule then goes out with no destination link. */
  lemma MissingDestinationTolerated(rule: Rule, lookup: GetObject)
    requires !Found(lookup(DestQuery(rule))) && rule.returnType != "REGULAR" && !HasSources(rule)
    ensures ResolveRule(rule, lookup) == Ok(TfRule(rule.destType, None, rule.returnType, None))
  {
  }
}
