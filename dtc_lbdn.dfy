/** The parameter transforms of the DTC LBDN module (plugins/modules/nios_dtc_lbdn.py):
    authoritative zones, pools and topology are resolved to WAPI `_ref`s. */
module DtcLbdn {
  import opened Outcomes
  import opened PyValues
  import opened Wapi

  // ---------------------------------------------------------------------
  // auth_zones
  // ---------------------------------------------------------------------

  /** One element of `auth_zones`: a dict with `fqdn` and an optional `view`,
      or a bare FQDN string. */
  datatype Zone =
    | ZoneDict(fqdn: Option<string>, view: Option<string>)
    | ZoneName(name: string)

  datatype ZoneError =
    | MissingFqdn(zone: Zone)         // a zone with no FQDN
    | NeedsView(fqdn: string)         // a duplicated FQDN without a view
    | ZoneNotFound(display: string)   // no zone matches

  /** A str that Python treats as set: present and non-empty. */
  function NonEmpty(s: Option<string>): Option<string>
  {
    if s.Some? && s.value != "" then s else None
  }

  /** The FQDN the first pass reads from a zone, None when it is missing or empty. */
  function FqdnOf(z: Zone): Option<string>
  {
    match z
    case ZoneDict(f, _) => NonEmpty(f)
    case ZoneName(n) => NonEmpty(Some(n))
  }

  /** The view a zone carries: only a dict zone has one, and only when it is non-empty. */
  function ViewOf(z: Zone): Option<string>
  {
    if z.ZoneDict? then NonEmpty(z.view) else None
  }

  /** `fqdn_counter[f]` after the first pass: how many zones of `zs` have FQDN `f`. */
  function Count(zs: seq<Zone>, f: string): nat
  {
    if zs == [] then 0
    else Count(zs[..|zs| - 1], f) + (if FqdnOf(zs[|zs| - 1]) == Some(f) then 1 else 0)
  }

  /** Every zone that has an FQDN is counted at least once. */
  lemma {:induction false} CountPositive(zs: seq<Zone>, j: nat)
    requires j < |zs| && FqdnOf(zs[j]).Some?
    ensures Count(zs, FqdnOf(zs[j]).value) >= 1
  {
    if j < |zs| - 1 {
      CountPositive(zs[..|zs| - 1], j);
    }
  }

  /** The query sent for a zone: `view` is included exactly when a view is given. */
  function ZoneQuery(fqdn: string, view: Option<string>): (q: Query)
    ensures q.objType == "zone_auth"
    ensures "fqdn" in q.fields && q.fields["fqdn"] == VStr(fqdn)
    ensures "view" in q.fields <==> view.Some?
    ensures view.Some? ==> q.fields["view"] == VStr(view.value)
    ensures q.fields.Keys <= {"fqdn", "view"}
  {
    if view.Some? then Query("zone_auth", map["fqdn" := VStr(fqdn), "view" := VStr(view.value)])
    else Query("zone_auth", map["fqdn" := VStr(fqdn)])
  }

  /** The name a missing zone is reported under: `fqdn:view`, or `fqdn` alone. */
  function Display(fqdn: string, view: Option<string>): string
  {
    if view.Some? then fqdn + ":" + view.value else fqdn
  }

  /** The second pass for one zone `z` of the input `zs`. */
  function ResolveZone(zs: seq<Zone>, z: Zone, lookup: GetObject): Result<string, ZoneError>
    requires FqdnOf(z).Some?
  {
    var fqdn := FqdnOf(z).value;
    var view := ViewOf(z);
    if Count(zs, fqdn) > 1 && (z.ZoneName? || view.None?) then Fail(NeedsView(fqdn))
    else
      var reply := lookup(ZoneQuery(fqdn, view));
      if Found(reply) then Ok(FirstRef(reply)) else Fail(ZoneNotFound(Display(fqdn, view)))
  }

  /** The second pass over the zones `rest`, stopping at the first failure. */
  function ResolveAll(zs: seq<Zone>, rest: seq<Zone>, lookup: GetObject): Result<seq<string>, ZoneError>
    requires forall z | z in rest :: FqdnOf(z).Some?
  {
    if rest == [] then Ok([])
    else
      match ResolveZone(zs, rest[0], lookup)
      case Fail(e) => Fail(e)
      case Ok(ref) =>
        match ResolveAll(zs, rest[1..], lookup)
        case Fail(e) => Fail(e)
        case Ok(refs) => Ok([ref] + refs)
  }

  /** The index of the first zone without an FQDN, or |zs| when every zone has one. */
  function FirstMissing(zs: seq<Zone>): (i: nat)
    ensures i <= |zs|
    ensures forall j | 0 <= j < i :: FqdnOf(zs[j]).Some?
    ensures i < |zs| ==> FqdnOf(zs[i]).None?
  {
    if zs == [] || FqdnOf(zs[0]).None? then 0 else 1 + FirstMissing(zs[1..])
  }

  /** What `auth_zones_transform` returns for `module.params['auth_zones']`. */
  function AuthZones(authZones: Option<seq<Zone>>, lookup: GetObject): Result<seq<string>, ZoneError>
  {
    if authZones.None? || authZones.value == [] then Ok([])
    else
      var zs := authZones.value;
      var i := FirstMissing(zs);
      if i < |zs| then Fail(MissingFqdn(zs[i]))
      else ResolveAll(zs, zs, lookup)
  }

  /** `refs` put in front of the outcome of the remaining zones. */
  function Prepend(refs: seq<string>, r: Result<seq<string>, ZoneError>): Result<seq<string>, ZoneError>
  {
    if r.Ok? then Ok(refs + r.value) else r
  }

  /** Counting one more zone. */
  lemma CountSnoc(zs: seq<Zone>, i: nat)
    requires i < |zs|
    ensures forall f :: Count(zs[..i + 1], f) == Count(zs[..i], f) + (if FqdnOf(zs[i]) == Some(f) then 1 else 0)
  {
    assert zs[..i + 1][..i] == zs[..i];
  }

  /** The second pass over `zs[i..]` is zone i followed by the rest. */
  lemma ResolveAllUnfold(zs: seq<Zone>, i: nat, lookup: GetObject)
    requires i < |zs| && forall z | z in zs :: FqdnOf(z).Some?
    ensures ResolveAll(zs, zs[i..], lookup) ==
      if ResolveZone(zs, zs[i], lookup).Fail? then Fail(ResolveZone(zs, zs[i], lookup).error)
      else Prepend([ResolveZone(zs, zs[i], lookup).value], ResolveAll(zs, zs[i + 1..], lookup))
  {
    assert zs[i..][0] == zs[i] && zs[i..][1..] == zs[i + 1..];
  }

  lemma PrependPrepend(a: seq<string>, b: seq<string>, r: Result<seq<string>, ZoneError>)
    ensures Prepend(a, Prepend(b, r)) == Prepend(a + b, r)
  {
    if r.Ok? {
      assert a + (b + r.value) == (a + b) + r.value;
    }
  }

  /** The two loops of `auth_zones_transform`: count the FQDNs, then resolve every zone. */
  method AuthZonesTransform(authZones: Option<seq<Zone>>, lookup: GetObject)
    returns (r: Result<seq<string>, ZoneError>)
    ensures r == AuthZones(authZones, lookup)
  {
    if authZones.None? || authZones.value == [] {
      return Ok([]);
    }
    var zs := authZones.value;
    var counter := CountFqdns(zs);
    if counter.Fail? {
      return Fail(counter.error);
    }
    r := ResolveZones(zs, counter.value, lookup);
  }

  /** The first loop of `auth_zones_transform`: counts the occurrences of each
      FQDN, failing at the first zone without one. */
  method CountFqdns(zs: seq<Zone>) returns (r: Result<map<string, nat>, ZoneError>)
    ensures FirstMissing(zs) < |zs| ==> r == Fail(MissingFqdn(zs[FirstMissing(zs)]))
    ensures FirstMissing(zs) == |zs| ==> r.Ok?
    ensures r.Ok? ==> forall f :: f in r.value <==> Count(zs, f) > 0
    ensures r.Ok? ==> forall f | f in r.value :: r.value[f] == Count(zs, f)
  {
    var counter: map<string, nat> := map[];
    var i := 0;
    while i < |zs|
      invariant 0 <= i <= |zs|
      invariant forall j | 0 <= j < i :: FqdnOf(zs[j]).Some?
      invariant forall f :: f in counter <==> Count(zs[..i], f) > 0
      invariant forall f | f in counter :: counter[f] == Count(zs[..i], f)
    {
      var fqdn := FqdnOf(zs[i]);
      if fqdn.None? {
        return Fail(MissingFqdn(zs[i]));
      }
      CountSnoc(zs, i);
      counter := counter[fqdn.value := (if fqdn.value in counter then counter[fqdn.value] else 0) + 1];
      i := i + 1;
    }
    assert zs[..|zs|] == zs;
    return Ok(counter);
  }

  /** The second loop of `auth_zones_transform`: resolves every zone in order. */
  method ResolveZones(zs: seq<Zone>, counter: map<string, nat>, lookup: GetObject) returns (r: Result<seq<string>, ZoneError>)
    requires forall j | 0 <= j < |zs| :: FqdnOf(zs[j]).Some?
    requires forall f :: f in counter <==> Count(zs, f) > 0
    requires forall f | f in counter :: counter[f] == Count(zs, f)
    ensures r == ResolveAll(zs, zs, lookup)
  {
    var refs: seq<string> := [];
    var i := 0;
    assert zs[i..] == zs;
    ghost var all := ResolveAll(zs, zs, lookup);
    assert all.Ok? ==> refs + all.value == all.value;
    while i < |zs|
      invariant 0 <= i <= |zs|
      invariant all == Prepend(refs, ResolveAll(zs, zs[i..], lookup))
    {
      var zone := zs[i];
      var fqdn := FqdnOf(zone).value;
      CountPositive(zs, i);
      ResolveAllUnfold(zs, i, lookup);
      var display: string;
      var query: Query;
      if zone.ZoneDict? {
        var view := ViewOf(zone);
        if counter[fqdn] > 1 && view.None? {
          return Fail(NeedsView(fqdn));
        }
        query := ZoneQuery(fqdn, view);
        display := Display(fqdn, view);
      } else {
        display := fqdn;
        query := ZoneQuery(fqdn, None);
        if counter[fqdn] > 1 {
          return Fail(NeedsView(fqdn));
        }
      }
      var zoneObj := lookup(query);
      if !Found(zoneObj) {
        return Fail(ZoneNotFound(display));
      }
      assert ResolveZone(zs, zone, lookup) == Ok(FirstRef(zoneObj));
      PrependPrepend(refs, [FirstRef(zoneObj)], ResolveAll(zs, zs[i + 1..], lookup));
      refs := refs + [FirstRef(zoneObj)];
      i := i + 1;
    }
    assert zs[i..] == [] && refs + [] == refs;
    return Ok(refs);
  }


  /** A missing or empty `auth_zones` gives the empty list. */
  lemma AuthZonesUnset(authZones: Option<seq<Zone>>, lookup: GetObject)
    requires authZones.None? || authZones.value == []
    ensures AuthZones(authZones, lookup) == Ok([])
  {
  }

  /** A zone without an FQDN fails before any lookup: the outcome names the first
      such zone and is the same whatever the remote side answers. */
  lemma MissingFqdnFailsBeforeLookup(zs: seq<Zone>, k: nat, lookup1: GetObject, lookup2: GetObject)
    requires k < |zs| && FqdnOf(zs[k]).None?
    ensures AuthZones(Some(zs), lookup1) == AuthZones(Some(zs), lookup2)
    ensures AuthZones(Some(zs), lookup1).Fail? && AuthZones(Some(zs), lookup1).error.MissingFqdn?
    ensures FqdnOf(AuthZones(Some(zs), lookup1).error.zone).None?
  {
  }

  /** The second pass succeeds exactly when every zone does, and then gives one
      ref per zone, in order. */
  lemma {:induction false} ResolveAllOk(zs: seq<Zone>, rest: seq<Zone>, lookup: GetObject)
    requires forall z | z in rest :: FqdnOf(z).Some?
    ensures ResolveAll(zs, rest, lookup).Ok? <==> forall j | 0 <= j < |rest| :: ResolveZone(zs, rest[j], lookup).Ok?
    ensures ResolveAll(zs, rest, lookup).Ok? ==>
      |ResolveAll(zs, rest, lookup).value| == |rest| &&
      forall j | 0 <= j < |rest| :: ResolveAll(zs, rest, lookup).value[j] == ResolveZone(zs, rest[j], lookup).value
  {
    if rest != [] {
      ResolveAllOk(zs, rest[1..], lookup);
      if ResolveZone(zs, rest[0], lookup).Ok? && ResolveAll(zs, rest[1..], lookup).Ok? {
        var refs := ResolveAll(zs, rest, lookup).value;
        forall j | 0 <= j < |rest|
          ensures refs[j] == ResolveZone(zs, rest[j], lookup).value
        {
          if j > 0 {
            assert rest[1..][j - 1] == rest[j];
          }
        }
      }
      if forall j | 0 <= j < |rest| :: ResolveZone(zs, rest[j], lookup).Ok? {
        forall j | 0 <= j < |rest| - 1
          ensures ResolveZone(zs, rest[1..][j], lookup).Ok?
        {
          assert rest[1..][j] == rest[j + 1];
        }
      }
    }
  }

  /** The second pass fails with the error of the first zone that fails. */
  lemma {:induction false} ResolveAllFirstFailure(zs: seq<Zone>, rest: seq<Zone>, k: nat, lookup: GetObject)
    requires forall z | z in rest :: FqdnOf(z).Some?
    requires k < |rest| && ResolveZone(zs, rest[k], lookup).Fail?
    requires forall j | 0 <= j < k :: ResolveZone(zs, rest[j], lookup).Ok?
    ensures ResolveAll(zs, rest, lookup) == Fail(ResolveZone(zs, rest[k], lookup).error)
  {
    if k > 0 {
      forall j | 0 <= j < k - 1
        ensures ResolveZone(zs, rest[1..][j], lookup).Ok?
      {
        assert rest[1..][j] == rest[j + 1];
      }
      ResolveAllFirstFailure(zs, rest[1..], k - 1, lookup);
    }
  }

  /** When every zone has an FQDN, the transform succeeds exactly when each zone
      passes the view check and is found, and the refs are the first matches, in
      input order. */
  lemma AuthZonesSucceeds(zs: seq<Zone>, lookup: GetObject)
    requires forall z | z in zs :: FqdnOf(z).Some?
    ensures AuthZones(Some(zs), lookup).Ok? <==>
      forall j | 0 <= j < |zs| :: ResolveZone(zs, zs[j], lookup).Ok?
    ensures AuthZones(Some(zs), lookup).Ok? ==>
      |AuthZones(Some(zs), lookup).value| == |zs| &&
      forall j | 0 <= j < |zs| ::
        var q := ZoneQuery(FqdnOf(zs[j]).value, ViewOf(zs[j]));
        Found(lookup(q)) && AuthZones(Some(zs), lookup).value[j] == FirstRef(lookup(q))
  {
    ResolveAllOk(zs, zs, lookup);
  }

  /** A dict zone whose FQDN occurs more than once fails when it has no view. */
  lemma DuplicateDictZoneNeedsView(zs: seq<Zone>, k: nat, lookup: GetObject)
    requires forall z | z in zs :: FqdnOf(z).Some?
    requires k < |zs| && zs[k].ZoneDict? && ViewOf(zs[k]).None?
    requires Count(zs, FqdnOf(zs[k]).value) > 1
    ensures AuthZones(Some(zs), lookup).Fail?
  {
    ResolveAllOk(zs, zs, lookup);
    assert ResolveZone(zs, zs[k], lookup).Fail?;
  }

  /** A string zone whose FQDN occurs more than once always fails, whatever views
      the other occurrences carry. */
  lemma DuplicateStringZoneFails(zs: seq<Zone>, k: nat, lookup: GetObject)
    requires k < |zs| && zs[k].ZoneName? && FqdnOf(zs[k]).Some?
    requires Count(zs, FqdnOf(zs[k]).value) > 1
    ensures AuthZones(Some(zs), lookup).Fail?
  {
    if forall z | z in zs :: FqdnOf(z).Some? {
      ResolveAllOk(zs, zs, lookup);
      assert ResolveZone(zs, zs[k], lookup).Fail?;
    }
  }

  /** The first zone that fails decides the error; a zone that is not found is
      reported under `fqdn:view` when it has a view and `fqdn` otherwise. */
  lemma AuthZonesFirstFailure(zs: seq<Zone>, k: nat, lookup: GetObject)
    requires forall z | z in zs :: FqdnOf(z).Some?
    requires k < |zs| && ResolveZone(zs, zs[k], lookup).Fail?
    requires forall j | 0 <= j < k :: ResolveZone(zs, zs[j], lookup).Ok?
    ensures AuthZones(Some(zs), lookup) == Fail(ResolveZone(zs, zs[k], lookup).error)
    ensures AuthZones(Some(zs), lookup).error.ZoneNotFound? ==>
      AuthZones(Some(zs), lookup).error.display ==
        if ViewOf(zs[k]).Some? then FqdnOf(zs[k]).value + ":" + ViewOf(zs[k]).value else FqdnOf(zs[k]).value
  {
    ResolveAllFirstFailure(zs, zs, k, lookup);
  }

  // ---------------------------------------------------------------------
  // pools
  // ---------------------------------------------------------------------

  datatype PoolError =
    | PoolKeyMissing                 // the pool dict has no `pool` key
    | PoolNotFound(pool: Dict)       // no pool of that name

  /** The pool dict with the default ratio 1 filled in when it has none. */
  function WithRatio(d: Dict): (r: Dict)
    ensures "ratio" in r
    ensures "ratio" !in d ==> r["ratio"] == VInt(1)
    ensures "ratio" in d ==> r == d
    ensures r.Keys == d.Keys + {"ratio"}
    ensures forall k | k in d && k != "ratio" :: r[k] == d[k]
  {
    if "ratio" in d then d else d["ratio" := VInt(1)]
  }

  /** The entry sent to WAPI for a pool: its reference and its ratio. */
  function PoolEntry(ref: string, pool: Dict): Dict
    requires "ratio" in pool
  {
    map["pool" := VStr(ref), "ratio" := pool["ratio"]]
  }

  /** What the pools loop returns and what it leaves in the pool dicts. */
  function Pools(ps: seq<Dict>, lookup: GetObject): (Result<seq<Dict>, PoolError>, seq<Dict>)
  {
    if ps == [] then (Ok([]), [])
    else if "pool" !in ps[0] then (Fail(PoolKeyMissing), ps)
    else
      var reply := lookup(NameQuery("dtc:pool", ps[0]["pool"]));
      var pool := WithRatio(ps[0]);
      if !Found(reply) then (Fail(PoolNotFound(pool)), [pool] + ps[1..])
      else
        var (rest, restPools) := Pools(ps[1..], lookup);
        (PrependAll([PoolEntry(FirstRef(reply), pool)], rest), [pool] + restPools)
  }

  /** The pools loop over `ps[i..]` is pool i followed by the rest. */
  lemma PoolsUnfold(ps: seq<Dict>, i: nat, lookup: GetObject)
    requires i < |ps|
    ensures Pools(ps[i..], lookup) ==
      if "pool" !in ps[i] then (Fail(PoolKeyMissing), ps[i..])
      else
        var reply := lookup(NameQuery("dtc:pool", ps[i]["pool"]));
        var pool := WithRatio(ps[i]);
        if !Found(reply) then (Fail(PoolNotFound(pool)), [pool] + ps[i + 1..])
        else (PrependAll([PoolEntry(FirstRef(reply), pool)], Pools(ps[i + 1..], lookup).0),
              [pool] + Pools(ps[i + 1..], lookup).1)
  {
    assert ps[i..][0] == ps[i] && ps[i..][1..] == ps[i + 1..];
  }

  /** The loop invariant carried past a pool that was found. */
  lemma PoolsAdvance(ps: seq<Dict>, i: nat, lookup: GetObject, done: seq<Dict>, poolList: seq<Dict>,
                     total: (Result<seq<Dict>, PoolError>, seq<Dict>))
    requires i < |ps| && "pool" in ps[i] && Found(lookup(NameQuery("dtc:pool", ps[i]["pool"])))
    requires total.0 == PrependAll(poolList, Pools(ps[i..], lookup).0)
    requires total.1 == done + Pools(ps[i..], lookup).1
    ensures var pool := WithRatio(ps[i]);
      var entry := PoolEntry(FirstRef(lookup(NameQuery("dtc:pool", ps[i]["pool"]))), pool);
      && total.0 == PrependAll(poolList + [entry], Pools(ps[i + 1..], lookup).0)
      && total.1 == (done + [pool]) + Pools(ps[i + 1..], lookup).1
  {
    PoolsUnfold(ps, i, lookup);
    var pool := WithRatio(ps[i]);
    var entry := PoolEntry(FirstRef(lookup(NameQuery("dtc:pool", ps[i]["pool"]))), pool);
    var rest := Pools(ps[i + 1..], lookup);
    PrependAllTwice(poolList, [entry], rest.0);
    AppendAssoc(done, [pool], rest.1);
  }

  lemma PrependAllTwice<E>(a: seq<Dict>, b: seq<Dict>, r: Result<seq<Dict>, E>)
    ensures PrependAll(a, PrependAll(b, r)) == PrependAll(a + b, r)
  {
    if r.Ok? {
      assert a + (b + r.value) == (a + b) + r.value;
    }
  }

  /** `module.params['pools']`, which `pools_transform` updates in place. */
  class LbdnModule {
    var pools: Option<seq<Dict>>

    constructor (pools: Option<seq<Dict>>)
      ensures this.pools == pools
    {
      this.pools := pools;
    }
  }

  /** `pools_transform`: resolves every pool to its `_ref`, writing the default
      ratio into the input dicts as it goes. */
  method PoolsTransform(m: LbdnModule, lookup: GetObject) returns (r: Result<seq<Dict>, PoolError>)
    modifies m
    ensures old(m.pools).None? || old(m.pools).value == [] ==> r == Ok([]) && m.pools == old(m.pools)
    ensures old(m.pools).Some? && old(m.pools).value != [] ==>
      r == Pools(old(m.pools).value, lookup).0 && m.pools == Some(Pools(old(m.pools).value, lookup).1)
  {
    var poolList: seq<Dict> := [];
    if m.pools.None? || m.pools.value == [] {
      return Ok(poolList);
    }
    var ps := m.pools.value;
    var i := 0;
    ghost var done: seq<Dict> := [];
    ghost var total := Pools(ps, lookup);
    assert ps[i..] == ps && m.pools.value == done + ps[i..];
    assert total.0.Ok? ==> poolList + total.0.value == total.0.value;
    while i < |ps|
      invariant 0 <= i <= |ps| && |done| == i
      invariant m.pools == Some(done + ps[i..])
      invariant total.0 == PrependAll(poolList, Pools(ps[i..], lookup).0)
      invariant total.1 == done + Pools(ps[i..], lookup).1
    {
      var pool := m.pools.value[i];
      assert pool == ps[i];
      PoolsUnfold(ps, i, lookup);
      if "pool" !in pool {
        return Fail(PoolKeyMissing);
      }
      var poolObj := lookup(NameQuery("dtc:pool", pool["pool"]));
      if "ratio" !in pool {
        pool := pool["ratio" := VInt(1)];
        m.pools := Some(m.pools.value[i := pool]);
      }
      assert pool == WithRatio(ps[i]);
      SpliceAt(done, ps, i, pool);
      if Found(poolObj) {
        var entry := PoolEntry(FirstRef(poolObj), pool);
        PoolsAdvance(ps, i, lookup, done, poolList, total);
        poolList := poolList + [entry];
      } else {
        assert total.1 == done + ([pool] + ps[i + 1..]);
        return Fail(PoolNotFound(pool));
      }
      done := done + [pool];
      i := i + 1;
    }
    assert ps[i..] == [] && done + [] == done;
    assert total.0 == Ok(poolList + []) && poolList + [] == poolList;
    return Ok(poolList);
  }

  lemma AppendAssoc<T>(a: seq<T>, b: seq<T>, c: seq<T>)
    ensures a + (b + c) == (a + b) + c
  {
  }

  /** Writing `x` at index |done| of `done + s[i..]`. */
  lemma SpliceAt<T>(done: seq<T>, s: seq<T>, i: nat, x: T)
    requires i < |s| && |done| == i
    ensures (done + s[i..])[i := x] == (done + [x]) + s[i + 1..] == done + ([x] + s[i + 1..])
    ensures s[i] == x ==> done + s[i..] == (done + [x]) + s[i + 1..]
  {
    assert s[i..] == [s[i]] + s[i + 1..];
  }

  /** `done` put in front of the outcome of the remaining pools. */
  function PrependAll<E>(done: seq<Dict>, r: Result<seq<Dict>, E>): Result<seq<Dict>, E>
  {
    if r.Ok? then Ok(done + r.value) else r
  }

  /** The pools transform succeeds exactly when every pool names a pool that is
      found. */
  lemma {:induction false} PoolsOk(ps: seq<Dict>, lookup: GetObject)
    ensures Pools(ps, lookup).0.Ok? <==>
      forall j | 0 <= j < |ps| :: "pool" in ps[j] && Found(lookup(NameQuery("dtc:pool", ps[j]["pool"])))
  {
    if ps != [] {
      PoolsOk(ps[1..], lookup);
      var tail := ps[1..];
      assert forall j | 1 <= j < |ps| :: ps[j] == tail[j - 1];
    }
  }

  /** A successful pools transform returns one link per pool, naming the found
      pool's reference and the pool's ratio (1 when it had none). */
  lemma {:induction false} PoolsOkResult(ps: seq<Dict>, lookup: GetObject)
    requires Pools(ps, lookup).0.Ok?
    ensures var out := Pools(ps, lookup).0.value;
      |out| == |ps| &&
      forall j | 0 <= j < |ps| ::
        "pool" in ps[j] && Found(lookup(NameQuery("dtc:pool", ps[j]["pool"]))) &&
        out[j] == map["pool" := VStr(FirstRef(lookup(NameQuery("dtc:pool", ps[j]["pool"])))),
                      "ratio" := WithRatio(ps[j])["ratio"]]
  {
    if ps != [] {
      var tail := ps[1..];
      PoolsOkResult(tail, lookup);
      assert forall j | 1 <= j < |ps| :: ps[j] == tail[j - 1];
    }
  }

  /** After a successful pools transform every pool dict has its ratio, and
      nothing else in the dicts changed. */
  lemma {:induction false} PoolsOkRatios(ps: seq<Dict>, lookup: GetObject)
    requires Pools(ps, lookup).0.Ok?
    ensures Pools(ps, lookup).1 == seq(|ps|, j requires 0 <= j < |ps| => WithRatio(ps[j]))
  {
    if ps != [] {
      var tail := ps[1..];
      PoolsOkRatios(tail, lookup);
      assert forall j | 1 <= j < |ps| :: ps[j] == tail[j - 1];
    }
  }

  /** The state the pools transform leaves: the same number of pools, each either
      unchanged or given the default ratio. */
  lemma {:induction false} PoolsOnlyAddRatio(ps: seq<Dict>, lookup: GetObject)
    ensures |Pools(ps, lookup).1| == |ps|
    ensures forall j | 0 <= j < |ps| :: Pools(ps, lookup).1[j] in {ps[j], WithRatio(ps[j])}
  {
    if ps != [] && "pool" in ps[0] && Found(lookup(NameQuery("dtc:pool", ps[0]["pool"]))) {
      PoolsOnlyAddRatio(ps[1..], lookup);
      assert forall j | 1 <= j < |ps| :: ps[j] == ps[1..][j - 1];
    }
  }

  // ---------------------------------------------------------------------
  // topology
  // ---------------------------------------------------------------------

  datatype TopologyError = TopologyNotFound(name: string)

  /** `topology_transform`: nothing for an unset topology, the first match's `_ref`
      when it is found, and a failure otherwise. */
  function TopologyTransform(topology: Option<string>, lookup: GetObject): (r: Result<Option<string>, TopologyError>)
    ensures NonEmpty(topology).None? ==> r == Ok(None)
    ensures NonEmpty(topology).Some? ==>
      var reply := lookup(NameQuery("dtc:topology", VStr(topology.value)));
      (Found(reply) ==> r == Ok(Some(FirstRef(reply)))) &&
      (!Found(reply) ==> r == Fail(TopologyNotFound(topology.value)))
  {
    if NonEmpty(topology).Some? then
      var topoObj := lookup(NameQuery("dtc:topology", VStr(topology.value)));
      if Found(topoObj) then Ok(Some(FirstRef(topoObj)))
      else Fail(TopologyNotFound(topology.value))
    else Ok(None)
  }
}
