/** The plain steps from the outside: campaigns and projects coming in, deposits, restarts, clearing old records. */
module WorldMarket {
  import opened Common
  import opened Money
  import opened Sums
  import opened Ledger
  import opened Selector
  import opened Serving
  import opened World
  import opened WorldShape
  import opened WorldServing
  import PoolBook

  /** A campaign outside any pool is shown to nobody until it is activated. */
  lemma {:induction false} NewCampaignsWait(w: World, id: Id, advertiser: Id, bid: nat, daily: Option<int>, blocks: Option<nat>)
    ensures var w' := NewCampaign(w, id, advertiser, bid, daily, blocks);
            var unused := forall c :: c in w.campaigns ==> c.id != id;
            if !unused || bid < 1_000_000 then w' == w
            else
              && |w'.campaigns| == |w.campaigns| + 1 && w'.campaigns[..|w.campaigns|] == w.campaigns
              && (forall p, c :: c in w'.campaigns && c.id == id ==> !MayShow(w', p, c))
              && var c := SetStatus(w', |w.campaigns|, Active).campaigns[|w.campaigns|];
                 c == Campaign(id, advertiser, bid, 5_000, Active, daily, blocks, None, None)
  {
    hide RightNetwork, Spendable, PoolReserve, SpentToday, Committed;
  }

  /** A member's project joins the pool's campaigns at once, at the pool's price, paid by the sponsor, and is not shown to its author. */
  lemma {:induction false} ProjectTerms(w: World, id: Id, publisher: Id, k: nat)
    requires UniquePools(w.pools) && k < |w.pools| && publisher in w.members && w.members[publisher] == w.pools[k].id
    ensures var w' := NewProject(w, id, publisher);
            var unused := forall c :: c in w.campaigns ==> c.id != id;
            && (!unused || !w.pools[k].open ==> w' == w)
            && (unused && w.pools[k].open ==>
                  && w'.campaigns == w.campaigns + [Campaign(id, w.pools[k].sponsor, w.pools[k].bid, 5_000, Active, None, None,
                                                             Some(w.pools[k].id), Some(publisher))]
                  && !MayShow(w', publisher, w'.campaigns[|w.campaigns|]))
  {
    assert PoolAt(w, w.pools[k].id) == k;
    hide RightNetwork, Spendable, PoolReserve, SpentToday, Committed;
  }

  lemma {:induction false} NobodyJoinsUnasked(w: World, id: Id, publisher: Id)
    requires publisher !in w.members || forall k :: 0 <= k < |w.pools| ==> w.pools[k].id != w.members[publisher]
    ensures NewProject(w, id, publisher) == w
  {}

  /** Only the status of one campaign is set. */
  lemma {:induction false} StatusIsSet(w: World, k: nat, status: Status, i: nat)
    requires i < |w.campaigns|
    ensures var w' := SetStatus(w, k, status);
            && w' == w.(campaigns := w'.campaigns) && |w'.campaigns| == |w.campaigns|
            && w'.campaigns[i] == if i == k then w.campaigns[i].(status := status) else w.campaigns[i]
  {}

  /** A pool opens exactly under a new name, at a price of at least a tenth of a dollar a thousand, a cap of 1 to 2000, and a budget for one ad. */
  lemma {:induction false} PoolsOpenUnderRules(w: World, id: Id, sponsor: Id, bid: nat, budget: int, cap: nat)
    ensures NewPool(w, id, sponsor, bid, budget, cap) ==
            if (forall p :: p in w.pools ==> p.id != id) && 1_000_000 <= bid && 1 <= cap <= 2_000 && bid <= budget * 1000
            then w.(pools := w.pools + [Pool(id, sponsor, bid, budget, cap, true)]) else w
  {}

  lemma {:induction false} JoinMoves(w: World, k: nat, p: Id, q: Id)
    requires UniquePools(w.pools) && k < |w.pools|
    ensures PoolOf(Join(w, k, p), q) == if q == p && w.pools[k].open then Some(w.pools[k].id) else PoolOf(w, q)
  {
    assert FindPool(w.pools, w.pools[k].id) == k;
  }

  lemma {:induction false} CloseEmpties(w: World, k: nat, q: Id)
    requires UniquePools(w.pools) && k < |w.pools|
    ensures PoolOf(ClosePool(w, k), q) == if PoolOf(w, q) == Some(w.pools[k].id) then None else PoolOf(w, q)
  {
    PoolBook.Replaced(w.pools, k, w.pools[k].(open := false));
    assert FindPool(w.pools, w.pools[k].id) == k;
  }

  lemma {:induction false} BudgetMovesNobody(w: World, k: nat, b: int, q: Id)
    requires UniquePools(w.pools) && k < |w.pools|
    ensures PoolOf(SetBudget(w, k, b), q) == PoolOf(w, q)
  {
    PoolBook.Replaced(w.pools, k, w.pools[k].(budget := b));
  }

  /** Whoever joins an open pool is in it and nowhere else, whoever leaves is in none, and nobody is in a closed one. */
  lemma {:induction false} MembersComeAndGo(w: World, k: nat, p: Id, q: Id, b: int)
    requires UniquePools(w.pools) && k < |w.pools|
    ensures PoolOf(Join(w, k, p), q) == if q == p && w.pools[k].open then Some(w.pools[k].id) else PoolOf(w, q)
    ensures PoolOf(MarketStep(w, DoLeave(p)), q) == if q == p then None else PoolOf(w, q)
    ensures PoolOf(ClosePool(w, k), q) == if PoolOf(w, q) == Some(w.pools[k].id) then None else PoolOf(w, q)
    ensures PoolOf(SetBudget(w, k, b), q) == PoolOf(w, q)
  {
    JoinMoves(w, k, p, q);
    CloseEmpties(w, k, q);
    BudgetMovesNobody(w, k, b, q);
    hide FindPool, ClosePool, SetBudget, Join, NewPool, NewCampaign, NewProject, SetStatus, UniquePools;
  }

  /** An open pool's budget is changed to what is asked, a closed one's is not. */
  lemma {:induction false} BudgetIsSet(w: World, k: nat, budget: int, i: nat)
    requires i < |w.pools|
    ensures var w' := SetBudget(w, k, budget);
            && w' == w.(pools := w'.pools) && |w'.pools| == |w.pools|
            && w'.pools[i] == if i == k && w.pools[i].open then w.pools[i].(budget := budget) else w.pools[i]
  {}

  /** A ban is of one publisher, and lifting it undoes it. */
  lemma {:induction false} BansAreLifted(w: World, p: Id, q: Id)
    ensures q in MarketStep(w, DoBan(p)).bans <==> q == p || q in w.bans
    ensures q in MarketStep(w, DoUnban(p)).bans <==> q != p && q in w.bans
    ensures p !in w.bans ==> MarketStep(MarketStep(w, DoBan(p)), DoUnban(p)) == w
  {
    hide NewPool, NewCampaign, NewProject, SetStatus, ClosePool, SetBudget, Join;
    if p !in w.bans {
      assert w.bans + {p} - {p} == w.bans;
    }
  }

  /** A positive deposit in range raises the advertiser's balance by its amount, once. */
  lemma {:induction false} DepositCredits(w: World, advertiser: Id, amount: int, topup: Id, a: Account)
    ensures var first := forall p :: p in w.journal && p.Topup? ==> p.topup != topup;
            Balance(Deposit(w, advertiser, amount, topup).journal, a) ==
            Balance(w.journal, a)
            + (if !first || amount <= 0 || !InRange(amount) then 0
               else if a == Advertiser(advertiser) then amount
               else if a == ExternalCash then -amount else 0)
  {
    var p := Topup(topup, advertiser, amount);
    SumAppend(w.journal, p, Effect(a));
    assert Effect(a)(p) == EffectOf(p, a);
    assert HasId(w.journal, TopupId(topup)) <==> exists q :: q in w.journal && q.Topup? && q.topup == topup;
  }

  /** Time alone does nothing but let ads expire. */
  lemma {:induction false} TimeExpiresAds(cfg: Config, w: World, ms: nat, d: Delivery)
    ensures var w' := Step(cfg, w, Tick(ms));
            w' == w.(now := w.now + ms) && (Live(d, w'.now) <==> !d.consumed && w.now + ms <= d.expiresAt)
  {}

  /** A restart forgets withdrawals in progress and recent picks, remembers tours, and counts expired ads as given back. */
  lemma {:induction false} RestartForgets(w: World, publisher: Id)
    ensures var w' := Reboot(w);
            && w' == w.(procs := map[], returned := w'.returned, stages := w'.stages)
            && StageOf(w', publisher) == StageOf(w, publisher).(recent := [])
            && forall n :: n in w'.returned <==> exists d :: d in w.deliveries && d.expiresAt < w.now && d.nonce == n
  {}

  /** Clearing keeps every pending impression and every decided one that is recent enough, and drops ads expired for over an hour. */
  lemma {:induction false} ClearingKeeps(w: World, before: int)
    ensures var w' := Vacuum(w, before);
            && (forall i :: i in w'.impressions <==> i in w.impressions && (i.state == Pending || before <= i.serverTs))
            && (forall d :: d in w'.deliveries <==> d in w.deliveries && w.now - 3_600_000 <= d.expiresAt)
            && w'.journal == w.journal && w'.items == w.items && w'.txs == w.txs && w'.procs == map[]
  {}
}
