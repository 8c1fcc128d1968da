/** Slots of ads that expired unseen go back to the tour at most once, through serving, clean-up and restarts. */
module WorldSlots {
  import opened Common
  import opened Sums
  import opened Ledger
  import opened Selector
  import opened Serving
  import opened World
  import opened WorldShape

  /** The slot of this nonce was given back, or never will be: nothing of it is left, or it is marked. */
  ghost predicate Spent(w: World, n: Id)
  {
    n in w.served && forall d :: d in w.deliveries && d.nonce == n ==> n in w.returned && d.expiresAt < w.now
  }

  /** The nonces whose slots a serve step for this publisher would give back. */
  ghost predicate GivesBack(w: World, publisher: Id, n: Id)
  {
    publisher !in w.bans && exists d :: d in Returnable(w, publisher) && d.nonce == n
  }

  /** Collecting old deliveries drops a mark only with its delivery. */
  lemma {:induction false} SpentAdded(w: World, d: Delivery, n: Id)
    requires Spent(w, n) && UniqueNonces(w.deliveries) && d.nonce !in w.served
    requires forall x :: x in w.deliveries ==> x.nonce in w.served
    ensures Spent(AddDelivery(w, d), n)
  {
    var all := w.deliveries + [d];
    var w' := AddDelivery(w, d);
    forall x | x in w'.deliveries && x.nonce == n ensures n in w'.returned && x.expiresAt < w'.now {
      assert x in all && KeptByGc(x, w.now) && x != d;
      forall y | y in all && y.nonce == n ensures y == x {
        assert y != d;
        var i :| 0 <= i < |w.deliveries| && w.deliveries[i] == x;
        var k :| 0 <= k < |w.deliveries| && w.deliveries[k] == y;
      }
      assert !DroppedByGc(all, n, w.now);
    }
  }

  lemma {:induction false} SpentServe(cfg: Config, w: World, p: Id, nonce: Id, coin: (Id, Id) -> bool, crash: bool, n: Id)
    requires Offers(w) && Spent(w, n)
    ensures Spent(Serve(cfg, w, p, nonce, coin, crash), n)
  {
    if p !in w.bans && nonce !in w.served {
      SpentReturned(w, p, n);
      hide Spent, Serve;
      SpentAfterServe(cfg, w, p, nonce, coin, crash, n);
    }
  }

  lemma {:induction false} SpentReturned(w: World, p: Id, n: Id)
    requires Spent(w, n)
    ensures Spent(ReturnSlots(w, p), n)
  {
    hide Returnable;
  }

  lemma {:induction false} SpentReboot(w: World, n: Id)
    requires Spent(w, n)
    ensures Spent(Reboot(w), n)
  {}

  lemma {:induction false} ReturnKeeps(w: World, p: Id)
    ensures ReturnSlots(w, p) == w.(returned := ReturnSlots(w, p).returned, stages := ReturnSlots(w, p).stages)
  {}

  lemma {:induction false} NoncesServed(w: World)
    requires Offers(w)
    ensures forall x :: x in w.deliveries ==> x.nonce in w.served
  {
    forall x | x in w.deliveries ensures x.nonce in w.served {
      var i :| 0 <= i < |w.deliveries| && w.deliveries[i] == x;
      assert Registered(w, w.deliveries[i]);
    }
  }

  lemma {:induction false} SpentIngest(cfg: Config, w: World, p: Id, ev: Report, crash: IngestCrash, n: Id)
    requires Spent(w, n)
    ensures Spent(Ingest(cfg, w, p, ev, crash), n)
  {
    var r := IngestOne(cfg, w.deliveries, w.impressions, w.now, p, ev);
    var w1 := w.(deliveries := r.deliveries);
    forall d' | d' in r.deliveries && d'.nonce == n
      ensures exists d :: d in w.deliveries && d.nonce == n && d.expiresAt == d'.expiresAt {
      var i :| 0 <= i < |r.deliveries| && r.deliveries[i] == d';
      assert w.deliveries[i] in w.deliveries;
    }
  }

  lemma {:induction false} SpentStep(cfg: Config, w: World, e: Event, n: Id)
    requires Offers(w) && Spent(w, n)
    ensures Spent(Step(cfg, w, e), n)
  {
    hide Serve, Ingest, Verify, Vacuum, PayStep, MarketStep;
    match e {
      case Ad(a) =>
        match a {
          case DoServe(p, nonce, coin, crash) => SpentServe(cfg, w, p, nonce, coin, crash, n);
          case DoIngest(p, ev, crash) => SpentIngest(cfg, w, p, ev, crash, n);
          case DoVerify(k, o, crash) => SpentVerify(cfg, w, k, o, crash, n);
          case DoRestart =>
          case DoVacuum(before) => SpentVacuum(w, before, n);
        }
      case Pay(p) => SpentPay(cfg, w, p, n);
      case Tick(ms) =>
      case Market(m) =>
    }
  }

  lemma {:induction false} SpentVacuum(w: World, before: int, n: Id)
    requires Spent(w, n)
    ensures Spent(Vacuum(w, before), n)
  {
  }

  /** A step that leaves the deliveries alone either keeps the marks or restarts. */
  ghost predicate MarksKept(w: World, w': World) { w'.returned == w.returned || w'.returned == ExpiredNonces(w) }

  lemma {:induction false} SpentVerify(cfg: Config, w: World, k: nat, o: Oracle, crash: bool, n: Id)
    requires Spent(w, n)
    ensures Spent(Verify(cfg, w, k, o, crash), n)
  {
    hide Judged;
    assert MarksKept(w, Verify(cfg, w, k, o, crash));
  }

  lemma {:induction false} SpentPay(cfg: Config, w: World, e: PayEvent, n: Id)
    requires Spent(w, n)
    ensures Spent(PayStep(cfg, w, e), n)
  {
    hide WithdrawLimit, Busy, TxAt, ReversalOf, Post, Truthful, ItemsMarked, Balance;
    assert MarksKept(w, PayStep(cfg, w, e));
  }

  lemma {:induction false} SpentAfter(cfg: Config, w: World, events: seq<Event>, n: Id)
    requires Catalogue(w) && Offers(w) && Spent(w, n)
    ensures Spent(Run(cfg, w, events), n) && Offers(Run(cfg, w, events)) && Catalogue(Run(cfg, w, events))
  {
    if |events| > 0 {
      var before := Run(cfg, w, events[..|events| - 1]);
      SpentAfter(cfg, w, events[..|events| - 1], n);
      SpentStep(cfg, before, events[|events| - 1], n);
      OffersStep(cfg, before, events[|events| - 1]);
      CatalogueStep(cfg, before, events[|events| - 1]);
      hide Step;
    }
  }

  lemma {:induction false} GivenBackIsSpent(w: World, p: Id, n: Id)
    requires Offers(w) && GivesBack(w, p, n)
    ensures Spent(ReturnSlots(w, p), n)
  {
    NoncesServed(w);
    var d :| d in Returnable(w, p) && d.nonce == n;
    forall x | x in w.deliveries && x.nonce == n ensures x == d {
      var i :| 0 <= i < |w.deliveries| && w.deliveries[i] == x;
      var k :| 0 <= k < |w.deliveries| && w.deliveries[k] == d;
    }
    assert n in ReturnSlots(w, p).returned;
    hide Returnable, Registered, GoodOffer;
  }

  lemma {:induction false} SpentGivesNothing(w: World, p: Id, n: Id)
    requires Spent(w, n)
    ensures !GivesBack(w, p, n)
  {}

  /**
    Once a serve step has given a slot back, no later serve step of any run gives it back again, even
    across restarts. (It may be given back not at all: clean-up or a restart can come first.)
    */
  lemma {:induction false} SlotsReturnAtMostOnce(cfg: Config, w: World, p: Id, nonce: Id, coin: (Id, Id) -> bool, crash: bool,
                                                 events: seq<Event>, later: Id, n: Id)
    requires Catalogue(w) && Offers(w) && GivesBack(w, p, n) && nonce !in w.served
    ensures !GivesBack(Run(cfg, Step(cfg, w, Ad(DoServe(p, nonce, coin, crash))), events), later, n)
  {
    var w1 := Step(cfg, w, Ad(DoServe(p, nonce, coin, crash)));
    GivenBackIsSpent(w, p, n);
    OffersStep(cfg, w, Ad(DoServe(p, nonce, coin, crash)));
    CatalogueStep(cfg, w, Ad(DoServe(p, nonce, coin, crash)));
    hide Serve, Run, Catalogue, Offers, Spent, Returnable, ReturnSlots;
    SpentAfterServe(cfg, w, p, nonce, coin, crash, n);
    SpentAfter(cfg, w1, events, n);
    SpentGivesNothing(Run(cfg, w1, events), later, n);
  }

  lemma {:induction false} SpentAfterServe(cfg: Config, w: World, p: Id, nonce: Id, coin: (Id, Id) -> bool, crash: bool, n: Id)
    requires Offers(w) && Spent(ReturnSlots(w, p), n) && p !in w.bans && nonce !in w.served
    ensures Spent(Serve(cfg, w, p, nonce, coin, crash), n)
  {
    var w1 := ReturnSlots(w, p);
    var (sel, stage) := Select(DepsFor(cfg, w1, p), StageOf(w1, p), coin);
    var w2 := w1.(stages := w1.stages[p := stage]);
    ReturnKeeps(w, p);
    NoncesServed(w);
    assert Spent(w2, n);
    assert UniqueNonces(w2.deliveries);
    SpentReboot(w2, n);
    hide Select, DepsFor, ReturnSlots, AddDelivery, Reboot, Spent, Offers, UniqueNonces;
    if sel.Some? {
      SpentAdded(w2, DeliveryFor(sel.value, p, nonce, w.now), n);
    }
  }

  /** Expired unseen, and its slot not given back yet. */
  predicate Unreturned(w: World, publisher: Id, d: Delivery)
  {
    d.publisher == publisher && !d.consumed && d.expiresAt < w.now && d.nonce !in w.returned
  }

  lemma {:induction false} SlotsOfKept(ds: seq<Delivery>, p: Delivery -> bool, c: Id)
    ensures multiset(CampaignIds(Keep(ds, p)))[c] == |Hits(ds, (d: Delivery) => p(d) && d.campaign == c)|
  {
    var both := (d: Delivery) => p(d) && d.campaign == c;
    if |ds| == 0 {
      assert Hits(ds, both) == {};
    } else {
      var front, last := ds[..|ds| - 1], ds[|ds| - 1];
      SlotsOfKept(front, p, c);
      HitsAppend(ds, both);
      if p(last) {
        assert CampaignIds(Keep(ds, p)) == CampaignIds(Keep(front, p)) + [last.campaign];
      }
    }
  }

  /**
    Giving slots back before a selection: exactly the ads of this publisher that expired unseen are marked, and
    each puts one slot of its campaign in front of the tour; nobody else's tour and no recent pick is touched.
    */
  lemma {:induction false} SlotsGivenBack(w: World, publisher: Id) returns (front: seq<Id>)
    ensures var w' := ReturnSlots(w, publisher);
            && (forall n :: n in w'.returned <==> n in w.returned || exists d :: d in w.deliveries && Unreturned(w, publisher, d) && d.nonce == n)
            && StageOf(w', publisher) == Stage(front + StageOf(w, publisher).tour, StageOf(w, publisher).recent)
            && (forall p :: p != publisher ==> StageOf(w', p) == StageOf(w, p))
    ensures forall c :: multiset(front)[c] == |Hits(w.deliveries, (d: Delivery) => Unreturned(w, publisher, d) && d.campaign == c)|
  {
    var back := Returnable(w, publisher);
    front := CampaignIds(back);
    KeepSame(w.deliveries, (d: Delivery) => d.publisher == publisher && !d.consumed && d.expiresAt < w.now && d.nonce !in w.returned,
             (d: Delivery) => Unreturned(w, publisher, d));
    forall c ensures multiset(front)[c] == |Hits(w.deliveries, (d: Delivery) => Unreturned(w, publisher, d) && d.campaign == c)| {
      SlotsOfKept(w.deliveries, (d: Delivery) => Unreturned(w, publisher, d), c);
      HitsSame(w.deliveries, (d: Delivery) => ((x: Delivery) => Unreturned(w, publisher, x))(d) && d.campaign == c,
               (d: Delivery) => Unreturned(w, publisher, d) && d.campaign == c);
    }
    hide Hits;
    if |back| == 0 {
      assert [] + StageOf(w, publisher).tour == StageOf(w, publisher).tour;
    }
  }

  lemma {:induction false} HitsSame(ds: seq<Delivery>, p: Delivery -> bool, q: Delivery -> bool)
    requires forall d :: p(d) == q(d)
    ensures Hits(ds, p) == Hits(ds, q)
  {}

  /** A new ad is stored and those expired for over an hour are collected, each with its mark. */
  lemma {:induction false} MarksAreCollected(w: World, d: Delivery)
    ensures var w' := AddDelivery(w, d);
            && (forall x :: x in w'.deliveries <==> (x in w.deliveries || x == d) && w.now - 3_600_000 <= x.expiresAt)
            && (forall n :: n in w'.returned <==>
                  n in w.returned && forall x :: (x in w.deliveries || x == d) && x.nonce == n ==> w.now - 3_600_000 <= x.expiresAt)
  {
    assert forall x :: x in w.deliveries + [d] <==> x in w.deliveries || x == d;
    assert forall n :: DroppedByGc(w.deliveries + [d], n, w.now) <==>
                       exists x :: x in w.deliveries + [d] && x.nonce == n && x.expiresAt < w.now - 3_600_000;
  }
}
