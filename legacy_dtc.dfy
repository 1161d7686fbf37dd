/** The `ratio`-defaulting link transforms of the older collection copy: an
    LBDN's pools (ansible_collections/infoblox/nios_modules/plugins/modules/nios_dtc_lbdn.py)
    and a pool's servers (ansible_collections/infoblox/nios_modules/plugins/modules/nios_dtc_pool.py)
    follow one loop, written twice in the source, which this module states once. */
module LegacyDtc {
  import opened Outcomes
  import opened PyValues
  import opened Wapi
  import DtcLbdn

  datatype LinkError =
    | NameKeyMissing   // KeyError on `item[key]`
    | NoMatch          // the first object of an empty answer is read

  /** The entry sent to WAPI: the reference under `key`, and the ratio. */
  function LinkEntry(key: string, ref: string, item: Dict): Dict
    requires "ratio" in item
  {
    map[key := VStr(ref), "ratio" := item["ratio"]]
  }

  /** The lookup of the item named by `item[key]`. */
  function ItemQuery(objType: string, key: string, item: Dict): Query
    requires key in item
  {
    NameQuery(objType, item[key])
  }

  /** What the loop returns and what it leaves in the item dicts: each item
      gets the default ratio after its lookup; an item WAPI answers None for is
      skipped, one it answers an empty list for ends the loop. */
  function Links(items: seq<Dict>, key: string, objType: string, lookup: GetObject): (Result<seq<Dict>, LinkError>, seq<Dict>)
  {
    if items == [] then (Ok([]), [])
    else if key !in items[0] then (Fail(NameKeyMissing), items)
    else
      var reply := lookup(ItemQuery(objType, key, items[0]));
      var item := DtcLbdn.WithRatio(items[0]);
      var (rest, restItems) := Links(items[1..], key, objType, lookup);
      if reply.None? then (rest, [item] + restItems)
      else if reply.value == [] then (Fail(NoMatch), [item] + items[1..])
      else (DtcLbdn.PrependAll([LinkEntry(key, FirstRef(reply), item)], rest), [item] + restItems)
  }

  /** The loop over `items[i..]` is item i followed by the rest. */
  lemma LinksUnfold(items: seq<Dict>, i: nat, key: string, objType: string, lookup: GetObject)
    requires i < |items|
    ensures Links(items[i..], key, objType, lookup) ==
      if key !in items[i] then (Fail(NameKeyMissing), items[i..])
      else
        var reply := lookup(ItemQuery(objType, key, items[i]));
        var item := DtcLbdn.WithRatio(items[i]);
        var rest := Links(items[i + 1..], key, objType, lookup);
        if reply.None? then (rest.0, [item] + rest.1)
        else if reply.value == [] then (Fail(NoMatch), [item] + items[i + 1..])
        else (DtcLbdn.PrependAll([LinkEntry(key, FirstRef(reply), item)], rest.0), [item] + rest.1)
  {
    assert items[i..][0] == items[i] && items[i..][1..] == items[i + 1..];
  }

  /** The loop invariant carried past a found or skipped item. */
  lemma LinksAdvance(items: seq<Dict>, i: nat, key: string, objType: string, lookup: GetObject,
                     done: seq<Dict>, linkList: seq<Dict>, total: (Result<seq<Dict>, LinkError>, seq<Dict>))
    requires i < |items| && key in items[i] && lookup(ItemQuery(objType, key, items[i])) != Some([])
    requires total.0 == DtcLbdn.PrependAll(linkList, Links(items[i..], key, objType, lookup).0)
    requires total.1 == done + Links(items[i..], key, objType, lookup).1
    ensures var reply := lookup(ItemQuery(objType, key, items[i]));
      var item := DtcLbdn.WithRatio(items[i]);
      var entries := if reply.Some? then [LinkEntry(key, FirstRef(reply), item)] else [];
      && total.0 == DtcLbdn.PrependAll(linkList + entries, Links(items[i + 1..], key, objType, lookup).0)
      && total.1 == (done + [item]) + Links(items[i + 1..], key, objType, lookup).1
  {
    LinksUnfold(items, i, key, objType, lookup);
    var reply := lookup(ItemQuery(objType, key, items[i]));
    var item := DtcLbdn.WithRatio(items[i]);
    var rest := Links(items[i + 1..], key, objType, lookup);
    if reply.Some? {
      DtcLbdn.PrependAllTwice(linkList, [LinkEntry(key, FirstRef(reply), item)], rest.0);
    } else {
      assert linkList + [] == linkList;
    }
    DtcLbdn.AppendAssoc(done, [item], rest.1);
  }

  /** `module.params[...]` holding the pools or the servers, which the loop
      updates in place. */
  class LinkParams {
    var items: Option<seq<Dict>>

    constructor (items: Option<seq<Dict>>)
      ensures this.items == items
    {
      this.items := items;
    }
  }

  /** The loop of `pools_transform` and `servers_transform`. */
  method LinksTransform(m: LinkParams, key: string, objType: string, lookup: GetObject) returns (r: Result<seq<Dict>, LinkError>)
    modifies m
    ensures old(m.items).None? || old(m.items).value == [] ==> r == Ok([]) && m.items == old(m.items)
    ensures old(m.items).Some? && old(m.items).value != [] ==>
      r == Links(old(m.items).value, key, objType, lookup).0 &&
      m.items == Some(Links(old(m.items).value, key, objType, lookup).1)
  {
    var linkList: seq<Dict> := [];
    if m.items.None? || m.items.value == [] {
      return Ok(linkList);
    }
    var items := m.items.value;
    var i := 0;
    ghost var done: seq<Dict> := [];
    ghost var total := Links(items, key, objType, lookup);
    assert items[i..] == items && m.items.value == done + items[i..];
    assert total.0.Ok? ==> linkList + total.0.value == total.0.value;
    while i < |items|
      invariant 0 <= i <= |items| && |done| == i
      invariant m.items == Some(done + items[i..])
      invariant total.0 == DtcLbdn.PrependAll(linkList, Links(items[i..], key, objType, lookup).0)
      invariant total.1 == done + Links(items[i..], key, objType, lookup).1
    {
      var item := m.items.value[i];
      assert item == items[i];
      LinksUnfold(items, i, key, objType, lookup);
      if key !in item {
        return Fail(NameKeyMissing);
      }
      var obj := lookup(ItemQuery(objType, key, item));
      if "ratio" !in item {
        item := item["ratio" := VInt(1)];
        DtcLbdn.SpliceAt(done, items, i, item);
        m.items := Some(m.items.value[i := item]);
      } else {
        DtcLbdn.SpliceAt(done, items, i, item);
      }
      assert item == DtcLbdn.WithRatio(items[i]);
      if obj.Some? && obj.value == [] {
        assert total.1 == done + ([item] + items[i + 1..]);
        return Fail(NoMatch);
      }
      var entries := if obj.Some? then [LinkEntry(key, obj.value[0].ref, item)] else [];
      LinksAdvance(items, i, key, objType, lookup, done, linkList, total);
      linkList := linkList + entries;
      done := done + [item];
      i := i + 1;
    }
    assert items[i..] == [] && done + [] == done;
    assert total.0 == Ok(linkList + []) && linkList + [] == linkList;
    return Ok(linkList);
  }

  /** The loop succeeds exactly when every item names something and no lookup
      answers an empty list. */
  lemma {:induction false} LinksOk(items: seq<Dict>, key: string, objType: string, lookup: GetObject)
    ensures Links(items, key, objType, lookup).0.Ok? <==>
      forall j | 0 <= j < |items| :: key in items[j] && lookup(ItemQuery(objType, key, items[j])) != Some([])
  {
    if items != [] {
      var tail := items[1..];
      LinksOk(tail, key, objType, lookup);
      assert forall j | 1 <= j < |items| :: items[j] == tail[j - 1];
    }
  }

  /** After a successful loop every item has its ratio and nothing else in the
      item dicts changed. */
  lemma {:induction false} LinksOkRatios(items: seq<Dict>, key: string, objType: string, lookup: GetObject)
    requires Links(items, key, objType, lookup).0.Ok?
    ensures Links(items, key, objType, lookup).1 == seq(|items|, j requires 0 <= j < |items| => DtcLbdn.WithRatio(items[j]))
  {
    if items != [] {
      var tail := items[1..];
      LinksOkRatios(tail, key, objType, lookup);
      assert forall j | 1 <= j < |items| :: items[j] == tail[j - 1];
    }
  }

  /** The item names something WAPI found. */
  predicate Hit(item: Dict, key: string, objType: string, lookup: GetObject)
  {
    key in item && Found(lookup(ItemQuery(objType, key, item)))
  }

  /** The entry sent to WAPI for a found item. */
  function HitEntry(item: Dict, key: string, objType: string, lookup: GetObject): Dict
    requires Hit(item, key, objType, lookup)
  {
    LinkEntry(key, FirstRef(lookup(ItemQuery(objType, key, item))), DtcLbdn.WithRatio(item))
  }

  /** The entries of the found items, in input order: the reference the loop's
      output is checked against. */
  function Entries(items: seq<Dict>, key: string, objType: string, lookup: GetObject): (r: seq<Dict>)
    ensures |r| <= |items|
  {
    if items == [] then []
    else if Hit(items[0], key, objType, lookup) then [HitEntry(items[0], key, objType, lookup)] + Entries(items[1..], key, objType, lookup)
    else Entries(items[1..], key, objType, lookup)
  }

  /** On success the output is the entries of the found items, in input order. */
  lemma {:induction false} LinksEntries(items: seq<Dict>, key: string, objType: string, lookup: GetObject)
    requires Links(items, key, objType, lookup).0.Ok?
    ensures Links(items, key, objType, lookup).0.value == Entries(items, key, objType, lookup)
  {
    if items != [] {
      LinksEntries(items[1..], key, objType, lookup);
    }
  }

  /** When every item is found, entry j is `{key: first ref, ratio}` for item j. */
  lemma {:induction false} EntriesAllFound(items: seq<Dict>, key: string, objType: string, lookup: GetObject)
    requires forall j | 0 <= j < |items| :: Hit(items[j], key, objType, lookup)
    ensures |Entries(items, key, objType, lookup)| == |items|
    ensures forall j | 0 <= j < |items| :: Entries(items, key, objType, lookup)[j] == HitEntry(items[j], key, objType, lookup)
  {
    if items != [] {
      var tail := items[1..];
      assert forall j | 1 <= j < |items| :: items[j] == tail[j - 1];
      EntriesAllFound(tail, key, objType, lookup);
    }
  }

  /** Every entry comes from an item that was found. */
  lemma {:induction false} EntriesFromFound(items: seq<Dict>, key: string, objType: string, lookup: GetObject, e: Dict)
    requires e in Entries(items, key, objType, lookup)
    ensures exists j | 0 <= j < |items| :: Hit(items[j], key, objType, lookup) && e == HitEntry(items[j], key, objType, lookup)
  {
    var tail := items[1..];
    if Hit(items[0], key, objType, lookup) && e == HitEntry(items[0], key, objType, lookup) {
    } else {
      EntriesFromFound(tail, key, objType, lookup, e);
      var j :| 0 <= j < |tail| && Hit(tail[j], key, objType, lookup) && e == HitEntry(tail[j], key, objType, lookup);
      assert tail[j] == items[j + 1];
    }
  }

  /** Items WAPI answers None for are skipped without failing: when every
      lookup answers None the output is empty, though every item got its ratio. */
  lemma {:induction false} AllMissingSkipped(items: seq<Dict>, key: string, objType: string, lookup: GetObject)
    requires forall j | 0 <= j < |items| :: key in items[j] && lookup(ItemQuery(objType, key, items[j])).None?
    ensures Links(items, key, objType, lookup).0 == Ok([])
  {
    if items != [] {
      assert forall j | 1 <= j < |items| :: items[j] == items[1..][j - 1];
      AllMissingSkipped(items[1..], key, objType, lookup);
    }
  }
}

/** `pools_transform` of the older LBDN module. */
module LegacyDtcLbdn {
  import opened Outcomes
  import opened PyValues
  import opened Wapi
  import opened LegacyDtc

  /** Resolves every pool by name among the DTC pools, writing `ratio = 1` into
      each pool dict that lacks one. */
  method PoolsTransform(m: LinkParams, lookup: GetObject) returns (r: Result<seq<Dict>, LinkError>)
    modifies m
    ensures old(m.items).None? || old(m.items).value == [] ==> r == Ok([]) && m.items == old(m.items)
    ensures old(m.items).Some? && old(m.items).value != [] ==>
      r == Links(old(m.items).value, "pool", "dtc:pool", lookup).0 &&
      m.items == Some(Links(old(m.items).value, "pool", "dtc:pool", lookup).1)
  {
    r := LinksTransform(m, "pool", "dtc:pool", lookup);
  }
}

/** `servers_transform` of the older DTC pool module. */
module LegacyDtcPool {
  import opened Outcomes
  import opened PyValues
  import opened Wapi
  import opened LegacyDtc

  /** Resolves every server by name among the DTC servers, writing `ratio = 1`
      into each server dict that lacks one. */
  method ServersTransform(m: LinkParams, lookup: GetObject) returns (r: Result<seq<Dict>, LinkError>)
    modifies m
    ensures old(m.items).None? || old(m.items).value == [] ==> r == Ok([]) && m.items == old(m.items)
    ensures old(m.items).Some? && old(m.items).value != [] ==>
      r == Links(old(m.items).value, "server", "dtc:server", lookup).0 &&
      m.items == Some(Links(old(m.items).value, "server", "dtc:server", lookup).1)
  {
    r := LinksTransform(m, "server", "dtc:server", lookup);
  }
}
