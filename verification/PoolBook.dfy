/** Sponsor pools as their store keeps them (packages/server/src/pools/pool-store.ts): rules, codes and memberships. */
module PoolBook {
  import opened Common
  import opened Selector
  import opened World
  import opened WorldShape

  const CODE_TRIES: nat := 5

  /** The first code nobody uses yet. */
  function FirstFree(codes: seq<Id>, used: map<Id, Id>): (r: Option<Id>)
    ensures r.Some? ==> r.value in codes && r.value !in used
    ensures r.None? ==> forall i :: 0 <= i < |codes| ==> codes[i] in used
  {
    if |codes| == 0 then None
    else if codes[0] !in used then Some(codes[0])
    else FirstFree(codes[1..], used)
  }

  lemma {:induction false} FreeAt(codes: seq<Id>, used: map<Id, Id>, i: nat)
    requires i < |codes| && codes[i] !in used && forall m :: 0 <= m < i ==> codes[m] in used
    ensures FirstFree(codes, used) == Some(codes[i])
  {
    if i > 0 {
      FreeAt(codes[1..], used, i - 1);
    }
  }

  class PoolStore {
    /** In the order they were opened. */
    var pools: seq<Pool>
    /** The join code of each. */
    var codes: seq<Id>
    /** Join codes, already trimmed and upper-cased. */
    var byCode: map<Id, Id>
    var memberOf: map<Id, Id>

    /** Codes and pools belong to each other one to one. */
    ghost predicate Valid()
      reads this
    {
      && UniquePools(pools) && |codes| == |pools|
      && (forall k {:trigger codes[k]} :: 0 <= k < |codes| ==> codes[k] in byCode && byCode[codes[k]] == pools[k].id)
      && (forall c {:trigger byCode[c]} :: c in byCode ==> FindPool(pools, byCode[c]) >= 0 && codes[FindPool(pools, byCode[c])] == c)
    }

    constructor ()
      ensures Valid() && pools == [] && byCode == map[] && memberOf == map[]
    {
      pools, codes, byCode, memberOf := [], [], map[], map[];
    }

    /** The fields, seen as those of the money machine. */
    ghost function In(w: World): World
      reads this
    {
      w.(pools := pools, members := memberOf)
    }

    /** `create`: the first unused of five candidate codes; none of the rules may fail. */
    method Create(sponsor: Id, nameOk: bool, bid: nat, budget: int, cap: nat, id: Id, candidates: seq<Id>, ghost w: World)
      returns (ok: bool)
      requires Valid() && |candidates| == CODE_TRIES && FindPool(pools, id) < 0
      modifies this
      ensures Valid()
      ensures ok <==> nameOk && bid >= MIN_BID_CPM && 1 <= cap <= MAX_DAILY_CAP && budget * 1000 >= bid
                      && FirstFree(candidates, old(byCode)).Some?
      ensures ok ==> pools == old(pools) + [Pool(id, sponsor, bid, budget, cap, true)] && memberOf == old(memberOf)
      ensures ok ==> In(w) == NewPool(old(In(w)), id, sponsor, bid, budget, cap)
                     && byCode == old(byCode)[FirstFree(candidates, old(byCode)).value := id]
      ensures !ok ==> pools == old(pools) && byCode == old(byCode) && memberOf == old(memberOf)
    {
      if !nameOk || bid < MIN_BID_CPM || cap < 1 || cap > MAX_DAILY_CAP || budget * 1000 < bid {
        return false;
      }
      var code := PickCode(candidates);
      if code in byCode {
        return false;
      }
      hide FirstFree, FindPool;
      Register(Pool(id, sponsor, bid, budget, cap, true), code);
      ok := true;
    }

    /** `#index`, for a new pool. */
    method Register(p: Pool, code: Id)
      requires Valid() && FindPool(pools, p.id) < 0 && code !in byCode
      modifies this`pools, this`codes, this`byCode
      ensures Valid() && pools == old(pools) + [p] && byCode == old(byCode)[code := p.id]
    {
      KnownPoolsStay(pools, p);
      hide FindPool, UniquePools;
      pools, codes, byCode := pools + [p], codes + [code], byCode[code := p.id];
    }

    /** Tries the candidates until one is unused or none is left. */
    method PickCode(candidates: seq<Id>) returns (code: Id)
      requires |candidates| == CODE_TRIES
      ensures code in byCode <==> FirstFree(candidates, byCode).None?
      ensures code !in byCode ==> FirstFree(candidates, byCode) == Some(code)
    {
      var i := 1;
      code := candidates[0];
      while i < CODE_TRIES && code in byCode
        invariant 1 <= i <= CODE_TRIES && code == candidates[i - 1]
        invariant forall m :: 0 <= m < i - 1 ==> candidates[m] in byCode
      {
        code := candidates[i];
        i := i + 1;
      }
      if code !in byCode {
        FreeAt(candidates, byCode, i - 1);
      }
    }

    /** `close`: only by its sponsor; closing twice is fine, and nobody is removed. */
    method Close(id: Id, sponsor: Id, ghost w: World) returns (ok: bool)
      requires Valid()
      modifies this`pools
      ensures Valid()
      ensures ok <==> exists k :: 0 <= k < |old(pools)| && old(pools)[k].id == id && old(pools)[k].sponsor == sponsor
      ensures ok ==> |pools| == |old(pools)| && forall k :: 0 <= k < |pools| ==>
                       pools[k] == if old(pools)[k].id == id then old(pools)[k].(open := false) else old(pools)[k]
      ensures ok ==> In(w) == ClosePool(old(In(w)), FindPool(old(pools), id))
      ensures !ok ==> pools == old(pools)
    {
      var k := FindPool(pools, id);
      if k < 0 || pools[k].sponsor != sponsor {
        return false;
      }
      Replaced(pools, k, pools[k].(open := false));
      pools := pools[k := pools[k].(open := false)];
      ok := true;
    }

    /** `setBudget`: raising and lowering alike, but only while the pool is open. */
    method ChangeBudget(id: Id, sponsor: Id, budget: int, ghost w: World) returns (ok: bool)
      requires Valid()
      modifies this`pools
      ensures Valid()
      ensures ok <==> exists k :: 0 <= k < |old(pools)| && old(pools)[k].id == id && old(pools)[k].sponsor == sponsor && old(pools)[k].open
      ensures ok ==> |pools| == |old(pools)| && forall k :: 0 <= k < |pools| ==>
                       pools[k] == if old(pools)[k].id == id then old(pools)[k].(budget := budget) else old(pools)[k]
      ensures ok ==> In(w) == SetBudget(old(In(w)), FindPool(old(pools), id), budget)
      ensures !ok ==> pools == old(pools)
    {
      var k := FindPool(pools, id);
      if k < 0 || pools[k].sponsor != sponsor || !pools[k].open {
        return false;
      }
      Replaced(pools, k, pools[k].(budget := budget));
      pools := pools[k := pools[k].(budget := budget)];
      ok := true;
    }

    /** `join`: a member of another pool moves over. */
    method JoinByCode(code: Id, publisher: Id, ghost w: World) returns (ok: bool)
      requires Valid()
      modifies this`memberOf
      ensures Valid()
      ensures ok <==> code in byCode && pools[FindPool(pools, byCode[code])].open
      ensures ok ==> In(w) == Join(old(In(w)), FindPool(pools, byCode[code]), publisher)
                     && MemberPool(publisher) == Some(byCode[code])
      ensures !ok ==> memberOf == old(memberOf)
      ensures forall p :: p != publisher ==> MemberPool(p) == old(MemberPool(p))
    {
      if code !in byCode {
        return false;
      }
      var k := FindPool(pools, byCode[code]);
      if !pools[k].open {
        return false;
      }
      memberOf := memberOf[publisher := pools[k].id];
      ok := true;
    }

    /** `leave` */
    method Leave(publisher: Id)
      requires Valid()
      modifies this`memberOf
      ensures Valid() && memberOf == old(memberOf) - {publisher} && MemberPool(publisher) == None
    {
      memberOf := memberOf - {publisher};
    }

    /** `poolOf`: membership counts while the pool exists and is open, and only then. */
    function MemberPool(publisher: Id): (r: Option<Id>)
      requires Valid()
      reads this
      ensures forall id :: r == Some(id) <==>
                publisher in memberOf && memberOf[publisher] == id && exists k :: 0 <= k < |pools| && pools[k].id == id && pools[k].open
    {
      OpenPool(pools, memberOf, publisher)
    }
  }

  lemma {:induction false} KnownPoolsStay(pools: seq<Pool>, p: Pool)
    requires FindPool(pools, p.id) < 0 && UniquePools(pools)
    ensures UniquePools(pools + [p])
    ensures forall id :: FindPool(pools + [p], id) == if id == p.id then |pools| else FindPool(pools, id)
  {
    var grown := pools + [p];
    forall id ensures FindPool(grown, id) == if id == p.id then |pools| else FindPool(pools, id) {
      assert grown[..|pools|] == pools;
    }
  }

  lemma {:induction false} Replaced(pools: seq<Pool>, k: nat, p: Pool)
    requires UniquePools(pools) && k < |pools| && p.id == pools[k].id
    ensures UniquePools(pools[k := p]) && forall id :: FindPool(pools[k := p], id) == FindPool(pools, id)
  {
    forall id ensures FindPool(pools[k := p], id) == FindPool(pools, id) {
      var i := FindPool(pools, id);
      assert i >= 0 ==> pools[k := p][i].id == id;
    }
  }
}
