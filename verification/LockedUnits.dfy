/** When the locked units of a stack can be trusted: runs that never take them below zero, runs
    that give them all back, and runs that show that no condition can be dropped. */
module LockedUnits {
  import opened Base
  import opened Events
  import opened StackTable
  import opened Ledgers
  import L = LockHeaps
  import U = UnitProtocol
  import B = Purchase
  import F = Fiat

  // ---------------------------------------------------------------- runs without negative demands

  /** Every unit count a caller asks for is at least `least`, and a lock request that buys a
      stack asks for at most `most`. */
  predicate Asks(a: Action, least: int, most: int) {
    && (a.Units? && a.unit.Reserve? ==> a.unit.q.units >= least)
    && (a.Units? && a.unit.Take? ==> a.unit.need >= least)
    && (a.Buying? && a.buy.TryLock? ==>
          if a.buy.p.stage.Parking? then least <= a.buy.p.stage.maxNumTokens <= most else a.buy.p.units >= least)
  }

  function Asking(least: int, most: int): Action -> bool {
    (a: Action) => Asks(a, least, most)
  }

  /** No negative counts, and no lock that exceeds the units reserved for it. */
  predicate Modest(a: Action) {
    Asks(a, 0, U.MAX_NUM_TOKENS_FOR_CONFIDENTIAL_COMPUTE)
  }

  predicate Affordable(p: B.Purchase) {
    p.units >= 0 && (p.stage.Parking? ==> 0 <= p.stage.maxNumTokens <= p.units)
  }

  ghost predicate AllAffordable(b: B.BuyState) {
    forall pid :: pid in b.purchases ==> Affordable(b.purchases[pid])
  }

  ghost predicate UnitsNonNegative(s: State) {
    U.NonNegative(s.units, s.queue) && AllAffordable(s.buying)
  }

  lemma BuyingKeepsAffordable(chain: B.Chain, b: B.BuyState, a: B.BuyAction)
    requires AllAffordable(b) && B.CanBuy(b, a) && Modest(Buying(a))
    ensures AllAffordable(B.ApplyBuy(chain, b, a).state)
  {
    hide B.Creditable, B.Deduct, B.Refund, B.Deducted;
  }

  lemma StepKeepsUnitsNonNegative(chain: B.Chain, s: State, a: Action)
    requires UnitsNonNegative(s) && Can(s, a) && Modest(a)
    ensures UnitsNonNegative(Step(chain, s, a))
  {
    match a
    case Units(unit) => U.StepKeepsNonNegative(s.units, s.queue, unit);
    case Buying(buy) =>
      SentByBuying(chain, s.buying, buy);
      BuyingKeepsAffordable(chain, s.buying, buy);
      OthersKeepNonNegative(s.units, s.queue, B.ApplyBuy(chain, s.buying, buy).sent);
      hide B.ApplyBuy;
    case Fiat(fiat) =>
      SentByFiat(s.fiat, fiat);
      OthersKeepNonNegative(s.units, s.queue, F.ApplyFiat(s.fiat, fiat).sent);
      hide F.ApplyFiat;
    case Record(pid) =>
      var p := s.buying.purchases[pid];
      if U.Buy(s.units, p.phase.id, p.phase.created, p.user, BuyersRequest(p)).Ok? {
        U.BuyKeepsNonNegative(s.units, s.queue, p.phase.id, p.phase.created, p.user, BuyersRequest(p));
      }
      hide U.Buy;
    case Handle(_) =>
      U.ConsumeKeepsNonNegative(s.units, s.queue);
      hide U.Consume;
  }

  lemma OthersKeepNonNegative(u: U.UnitState, queue: seq<Event>, sent: seq<Event>)
    requires U.NonNegative(u, queue) && forall e :: e in sent ==> !e.UpdateStackNumTokens?
    ensures U.NonNegative(u, queue + sent)
  {
  }

  lemma {:induction false} RunKeepsUnitsNonNegative(chain: B.Chain, s: State, actions: seq<Action>)
    requires Start(s) && Run(chain, s, actions).Some? && forall a :: a in actions ==> Modest(a)
    ensures UnitsNonNegative(Run(chain, s, actions).value)
  {
    if actions != [] {
      var n := |actions| - 1;
      RunKeepsUnitsNonNegative(chain, s, actions[..n]);
      hide Modest, Start, Step, Can, UnitsNonNegative;
      StepKeepsUnitsNonNegative(chain, Run(chain, s, actions[..n]).value, actions[n]);
    }
  }

  lemma ModestRunsAreNonNegative(chain: B.Chain, t: State)
    requires ReachableBy(chain, t, Modest)
    ensures U.NonNegative(t.units, t.queue) && U.Balanced(t.units, t.queue)
  {
    hide Modest, Start, BuyingSound, FiatSound, StacksDelivered, AllAffordable, AllFit, U.KnownStacks, U.Billed, U.Balanced, U.NonNegative;
    var s, actions :| Start(s) && Run(chain, s, actions) == Some(t) && forall a :: a in actions ==> Modest(a);
    EveryRunIsSound(chain, s, actions);
    RunKeepsUnitsNonNegative(chain, s, actions);
  }

  /** In such a run the locked units are never negative ... */
  lemma LockedNeverNegative(chain: B.Chain, t: State, id: StackId)
    requires ReachableBy(chain, t, Modest)
    ensures U.Locked(t.units, id) >= 0
  {
    hide ReachableBy, U.Balanced, U.NonNegative;
    ModestRunsAreNonNegative(chain, t);
    U.LockedNotNegative(t.units, t.queue, id);
  }

  /** ... and cover every request in flight and every lock. */
  lemma LockedCoversHolders(chain: B.Chain, t: State, id: StackId)
    requires ReachableBy(chain, t, Modest)
    ensures forall r :: r in t.units.inFlight && r.stack == id ==> r.units <= U.Locked(t.units, id)
    ensures forall p :: p in t.units.parked && p.stack == id ==> p.lock.units <= U.Locked(t.units, id)
  {
    hide ReachableBy, U.Balanced, U.NonNegative;
    ModestRunsAreNonNegative(chain, t);
    U.LockedNotNegative(t.units, t.queue, id);
  }

  // ---------------------------------------------------------------- both conditions are needed

  /** A fresh deployment with the given tables. */
  function Fresh(db: Db): State {
    State(U.UnitState(db, multiset{}, multiset{}, [], []),
          B.BuyState(map[], map[], map[], [], {}, multiset{}, []),
          F.FiatState(F.Tables(map[], map[]), multiset{}, [], []), [])
  }

  /** One request for a negative number of units is enough to take a stack below zero. */
  lemma NegativeRequestLocksNegative(chain: B.Chain, units: int, most: int)
    requires units < 0
    ensures exists t, id :: ReachableBy(chain, t, Asking(units, most)) && U.Locked(t.units, id) == units
  {
    var row := Stack("", 1, 1, 1, 0, 0, 0, 0, 0, false, false, false);
    var s := Fresh(Db(map[7 := row], map[], {}, {}));
    var a := Units(U.Reserve(LockUnits(7, units), 7));
    assert Matches(s.units.db, LockUnits(7, units), 7);
    StartIsReachable(chain, s, Asking(units, most));
    StepIsReachable(chain, s, Asking(units, most), a);
    assert U.Locked(Step(chain, s, a).units, 7) == units;
  }

  /** A user whose payment has just been credited, and nothing else. */
  ghost predicate JustPaid(s: State) {
    && s.units == Fresh(Db(map[], map[], {}, {})).units && s.queue == []
    && s.buying.lockMap == map[] && s.buying.purchases == map[]
    && 1 in s.buying.balances && s.buying.balances[1] >= 0
  }

  lemma ClaimReaches(chain: B.Chain, digest: string, rule: Action -> bool) returns (t: State)
    requires rule(Buying(B.InsertDigest(B.Claim(1, digest))))
    ensures ReachableBy(chain, t, rule)
    ensures t == Fresh(Db(map[], map[], {}, {})).(buying := B.BuyState(map[], map[], map[], [], {digest}, multiset{B.Claim(1, digest)}, []))
  {
    var s := Fresh(Db(map[], map[], {}, {}));
    StartIsReachable(chain, s, rule);
    hide ReachableBy;
    t := Step(chain, s, Buying(B.InsertDigest(B.Claim(1, digest))));
    StepIsReachable(chain, s, rule, Buying(B.InsertDigest(B.Claim(1, digest))));
  }

  lemma PaymentReaches(chain: B.Chain, digest: string, money: int, rule: Action -> bool) returns (t: State)
    requires B.PaysProxy(chain, digest, money)
    requires rule(Buying(B.InsertDigest(B.Claim(1, digest)))) && rule(Buying(B.FinishClaim(B.Claim(1, digest), true, true))) && rule(Handle(0))
    ensures ReachableBy(chain, t, rule) && JustPaid(t)
  {
    B.CreditableIff(chain, digest, money);
    B.CreditableIsNonNegative(chain, digest);
    hide B.Creditable, ReachableBy;
    var finish := Buying(B.FinishClaim(B.Claim(1, digest), true, true));
    var s := ClaimReaches(chain, digest, rule);
    var s1 := Step(chain, s, finish);
    StepIsReachable(chain, s, rule, finish);
    assert s1.queue == [TopUpBalance(1, B.Creditable(chain, digest).value)];
    t := Step(chain, s1, Handle(0));
    StepIsReachable(chain, s1, rule, Handle(0));
  }

  /** The purchase of a lock request that asks for `asked` units. */
  function LockPurchase(asked: int): B.Purchase {
    B.Purchase(1, 1, 0, U.MAX_NUM_TOKENS_FOR_CONFIDENTIAL_COMPUTE, U.Parking(asked, true), B.Holding)
  }

  /** A lock request has bought a stack that is about to be recorded. */
  ghost predicate JustBought(s: State, asked: int) {
    && s.units == Fresh(Db(map[], map[], {}, {})).units && s.queue == []
    && 0 in s.buying.purchases
    && exists created :: s.buying.purchases[0] == LockPurchase(asked).(phase := B.Bought(7, created))
                      && created.size == U.MAX_NUM_TOKENS_FOR_CONFIDENTIAL_COMPUTE
  }

  lemma PurchaseReaches(chain: B.Chain, s: State, asked: int, rule: Action -> bool) returns (t: State)
    requires ReachableBy(chain, s, rule) && JustPaid(s)
    requires forall a :: rule(a) || a.Units? || (a.Buying? && a.buy.TryLock? && a.buy.p != LockPurchase(asked))
    ensures ReachableBy(chain, t, rule) && JustBought(t, asked)
  {
    hide ReachableBy;
    var created := Stack("", 1, 1, 1, U.MAX_NUM_TOKENS_FOR_CONFIDENTIAL_COMPUTE, 0, 0, 0, 0, false, false, false);
    assert B.Deducted(0) == 0;
    hide B.Deducted;
    var a1, a2, a3 := Buying(B.TryLock(0, LockPurchase(asked))), Buying(B.DeductUsdc(0)), Buying(B.BuyOnChain(0, Some((7, created))));
    var s1 := Step(chain, s, a1);
    StepIsReachable(chain, s, rule, a1);
    var s2 := Step(chain, s1, a2);
    StepIsReachable(chain, s1, rule, a2);
    t := Step(chain, s2, a3);
    StepIsReachable(chain, s2, rule, a3);
  }

  /** A lock request that buys a stack and asks for `asked` units parks that many on a stack with
      8192 units locked for it; once the lock has expired, the stack is left with the
      difference. */
  lemma ExpiredLockLeavesDifference(chain: B.Chain, digest: string, money: int, asked: int)
    requires B.PaysProxy(chain, digest, money) && asked >= 0
    ensures exists t, id :: ReachableBy(chain, t, Asking(asked, asked))
                         && U.Locked(t.units, id) == U.MAX_NUM_TOKENS_FOR_CONFIDENTIAL_COMPUTE - asked
  {
    var rule := Asking(asked, asked);
    var paid := PaymentReaches(chain, digest, money, rule);
    var bought := PurchaseReaches(chain, paid, asked, rule);
    var recorded := RecordReaches(chain, bought, asked, rule);
    var r := U.Request(7, U.MAX_NUM_TOKENS_FOR_CONFIDENTIAL_COMPUTE, U.Parking(asked, true));
    var t := LockExpires(chain, recorded, r, asked, rule);
  }

  /** The stack is recorded, and the lock request about to park its units. */
  ghost predicate JustRecorded(s: State, r: U.Request, asked: int) {
    && r == U.Request(7, U.MAX_NUM_TOKENS_FOR_CONFIDENTIAL_COMPUTE, U.Parking(asked, true))
    && s.units.inFlight == multiset{r} && s.units.parked == multiset{} && s.queue == []
    && 7 in s.units.db.stacks && s.units.db.stacks[7].locked == r.units && s.units.db.stacks[7].Fits()
  }

  lemma RecordReaches(chain: B.Chain, s: State, asked: int, rule: Action -> bool) returns (t: State)
    requires ReachableBy(chain, s, rule) && JustBought(s, asked) && rule(Record(0))
    ensures ReachableBy(chain, t, rule)
    ensures JustRecorded(t, U.Request(7, U.MAX_NUM_TOKENS_FOR_CONFIDENTIAL_COMPUTE, U.Parking(asked, true)), asked)
  {
    hide ReachableBy;
    RecordsUnits(chain, s, 0);
    t := Step(chain, s, Record(0));
    StepIsReachable(chain, s, rule, Record(0));
    hide Step, U.Buy;
  }

  lemma LockExpires(chain: B.Chain, s: State, r: U.Request, asked: int, rule: Action -> bool) returns (t: State)
    requires ReachableBy(chain, s, rule) && JustRecorded(s, r, asked) && asked >= 0
    requires rule(Units(U.Park(r, 0))) && rule(Units(U.Prune(7, L.Lock(0, asked), 1))) && rule(Handle(0))
    ensures ReachableBy(chain, t, rule)
    ensures U.Locked(t.units, 7) == U.MAX_NUM_TOKENS_FOR_CONFIDENTIAL_COMPUTE - asked
  {
    hide ReachableBy;
    var a1, a2 := Units(U.Park(r, 0)), Units(U.Prune(7, L.Lock(0, asked), 1));
    ParkThenPrune(s.units, r, 0);
    hide U.Apply, U.Enabled;
    var s1 := Step(chain, s, a1);
    StepIsReachable(chain, s, rule, a1);
    var s2 := Step(chain, s1, a2);
    StepIsReachable(chain, s1, rule, a2);
    HandlesRelease(chain, s2, 7, asked, 0);
    t := Step(chain, s2, Handle(0));
    StepIsReachable(chain, s2, rule, Handle(0));
  }

  lemma RecordsUnits(chain: B.Chain, s: State, pid: B.Pid)
    requires Can(s, Record(pid))
    requires var p := s.buying.purchases[pid];
             p.units <= p.phase.created.size && p.phase.id !in s.units.db.stacks
    ensures var p, t := s.buying.purchases[pid], Step(chain, s, Record(pid));
            && t.units.inFlight == s.units.inFlight + multiset{BuyersRequest(p)} && t.units.parked == s.units.parked && t.queue == s.queue
            && p.phase.id in t.units.db.stacks
            && var row := t.units.db.stacks[p.phase.id]; row.locked == p.units && row.computed == 0 && row.size == p.phase.created.size
  {
    hide B.Records;
  }

  lemma ParkThenPrune(u: U.UnitState, r: U.Request, expiresAt: Instant)
    requires r in u.inFlight && r.stage.Parking? && forall e :: e in u.parked ==> e.stack != r.stack
    ensures var lock := L.Lock(expiresAt, r.stage.maxNumTokens);
            var prune := U.Prune(r.stack, lock, expiresAt + 1);
            && U.Enabled(u, U.Park(r, expiresAt))
            && U.Apply(u, U.Park(r, expiresAt)).sent == []
            && var v := U.Apply(u, U.Park(r, expiresAt)).state;
            && U.Enabled(v, prune)
            && U.Apply(v, prune).sent == [UpdateStackNumTokens(r.stack, lock.units, 0)]
            && U.Apply(v, prune).state.db == u.db
  {
  }

  lemma HandlesRelease(chain: B.Chain, s: State, id: StackId, units: int, day: F.Day)
    requires s.queue == [UpdateStackNumTokens(id, units, 0)] && units >= 0
    requires id in s.units.db.stacks && s.units.db.stacks[id].Fits()
    ensures Can(s, Handle(day)) && U.Locked(Step(chain, s, Handle(day)).units, id) == s.units.db.stacks[id].locked - units
  {
  }

  ghost predicate NeverNegative(chain: B.Chain, least: int, most: int) {
    forall t, id :: ReachableBy(chain, t, Asking(least, most)) ==> U.Locked(t.units, id) >= 0
  }

  /** Exactly when locked units never go below zero.  Somebody has to have paid, or no stack is
      ever bought. */
  lemma NeverNegativeIff(chain: B.Chain, digest: string, money: int, least: int, most: int)
    requires B.PaysProxy(chain, digest, money) && least <= most
    ensures NeverNegative(chain, least, most) <==> 0 <= least && most <= U.MAX_NUM_TOKENS_FOR_CONFIDENTIAL_COMPUTE
  {
    hide ReachableBy, B.PaysProxy;
    if 0 <= least && most <= U.MAX_NUM_TOKENS_FOR_CONFIDENTIAL_COMPUTE {
      forall t, id | ReachableBy(chain, t, Asking(least, most))
        ensures U.Locked(t.units, id) >= 0
      {
        WeakerRuleReaches(chain, t, Asking(least, most), Modest);
        LockedNeverNegative(chain, t, id);
      }
    } else if least < 0 {
      NegativeRequestLocksNegative(chain, least, most);
    } else {
      ExpiredLockLeavesDifference(chain, digest, money, most);
      var t, id :| ReachableBy(chain, t, Asking(most, most)) && U.Locked(t.units, id) == U.MAX_NUM_TOKENS_FOR_CONFIDENTIAL_COMPUTE - most;
      WeakerRuleReaches(chain, t, Asking(most, most), Asking(least, most));
    }
  }

  // ---------------------------------------------------------------- runs within their estimates

  predicate Frugal(a: Action) {
    Modest(a) && (a.Units? ==> U.BillsWithinEstimate(a.unit))
  }

  lemma StepKeepsWithinEstimates(chain: B.Chain, s: State, a: Action)
    requires U.WithinEstimates(s.units, s.queue) && UnitsNonNegative(s) && UnitsSound(s.units, s.queue) && Can(s, a) && Frugal(a)
    ensures U.WithinEstimates(Step(chain, s, a).units, Step(chain, s, a).queue)
  {
    match a
    case Units(unit) =>
      U.StepKeepsWithinEstimates(s.units, s.queue, unit);
      hide U.Apply;
    case Buying(buy) =>
      SentByBuying(chain, s.buying, buy);
      hide B.ApplyBuy;
    case Fiat(fiat) =>
      SentByFiat(s.fiat, fiat);
      hide F.ApplyFiat;
    case Record(_) =>
    case Handle(_) =>
      U.ConsumeKeepsWithinEstimates(s.units, s.queue);
      hide U.Consume;
  }

  lemma {:induction false} RunKeepsWithinEstimates(chain: B.Chain, s: State, actions: seq<Action>)
    requires Start(s) && Run(chain, s, actions).Some? && forall a :: a in actions ==> Frugal(a)
    ensures U.WithinEstimates(Run(chain, s, actions).value.units, Run(chain, s, actions).value.queue)
  {
    if actions != [] {
      var n := |actions| - 1;
      RunKeepsWithinEstimates(chain, s, actions[..n]);
      assert forall a :: a in actions ==> Modest(a);
      EveryRunIsSound(chain, s, actions[..n]);
      hide Frugal, Modest, Start, Step, Can, U.WithinEstimates, UnitsNonNegative, UnitsSound, BuyingSound, FiatSound, StacksDelivered;
      RunKeepsUnitsNonNegative(chain, s, actions[..n]);
      StepKeepsWithinEstimates(chain, Run(chain, s, actions[..n]).value, actions[n]);
    }
  }

  /** When no settlement bills more than its estimate, the table refuses none: every unit that
      stays behind was given up by a request, not dropped by the state manager. */
  lemma NoSettlementRefused(chain: B.Chain, t: State)
    requires ReachableBy(chain, t, Frugal)
    ensures forall l :: l in t.units.losses ==> !l.cause.SettlementRefused? && l.units >= 0
  {
    hide Frugal, Modest, Start;
    var s, actions :| Start(s) && Run(chain, s, actions) == Some(t) && forall a :: a in actions ==> Frugal(a);
    RunKeepsWithinEstimates(chain, s, actions);
    assert forall a :: a in actions ==> Modest(a) by {
      forall a | a in actions
        ensures Modest(a)
      {
        FrugalIsModest(a);
      }
    }
    RunKeepsUnitsNonNegative(chain, s, actions);
  }

  lemma FrugalIsModest(a: Action)
    requires Frugal(a)
    ensures Modest(a)
  {
  }

  // ---------------------------------------------------------------- what a quiet stack keeps

  /** Nothing is under way on a stack: no request, no lock, no event. */
  ghost predicate Quiet(s: State, id: StackId) {
    && (forall r :: r in s.units.inFlight ==> r.stack != id)
    && (forall p :: p in s.units.parked ==> p.stack != id)
    && (forall e :: e in s.queue && e.UpdateStackNumTokens? ==> e.stack != id)
  }

  lemma QuietStackKeepsOnlyLosses(chain: B.Chain, t: State, id: StackId)
    requires Reachable(chain, t) && Quiet(t, id)
    ensures U.Locked(t.units, id) == SumSeq(t.units.losses, U.LostOn(id))
  {
    hide Reachable;
    LockedUnitsAccounted(chain, t, id);
    SumBagZero(t.units.inFlight, U.UnitsOn(id));
    SumBagZero(t.units.parked, U.ParkedOn(id));
    SumSeqZeroIff(t.queue, U.EstimatedOn(id));
  }

  /** In a run without negative demands, a quiet stack has got all its units back exactly when
      nothing was lost on it. */
  lemma QuietStackIsFreeIff(chain: B.Chain, t: State, id: StackId)
    requires ReachableBy(chain, t, Modest) && Quiet(t, id)
    ensures U.Locked(t.units, id) == 0 <==> forall l :: l in t.units.losses && l.stack == id ==> l.units == 0
  {
    ReachableByIsReachable(chain, t, Modest);
    ModestRunsAreNonNegative(chain, t);
    QuietStackKeepsOnlyLosses(chain, t, id);
    hide ReachableBy, Reachable, U.Balanced;
    SumSeqZeroIff(t.units.losses, U.LostOn(id));
    assert forall l: U.Loss :: U.LostOn(id)(l) == if l.stack == id then l.units else 0;
  }

  /** Every lock pushed holds the units reserved for it, every lock consumed is just what the
      request needs, every settlement names its whole estimate and bills no more, and no lock
      request fails after it bought a stack with units on it. */
  predicate Returning(a: Action) {
    Frugal(a) && (a.Units? ==> ReturnsAll(a.unit))
  }

  predicate ReturnsAll(a: U.Action) {
    && (a.Park? && a.r.stage.Parking? ==> a.r.stage.maxNumTokens == a.r.units)
    && (a.GiveUp? ==> a.r.units == 0)
    && (a.Take? ==> a.need == a.lock.units)
    && (a.Finish? ==> a.reported == a.r.units)
  }

  ghost predicate NothingLost(u: U.UnitState) {
    forall l :: l in u.losses ==> l.units == 0
  }

  lemma UnitStepLosesNothing(u: U.UnitState, a: U.Action)
    requires NothingLost(u) && U.Enabled(u, a) && ReturnsAll(a)
    ensures NothingLost(U.Apply(u, a).state)
  {
  }

  lemma StepLosesNothing(chain: B.Chain, s: State, a: Action)
    requires NothingLost(s.units) && Can(s, a) && Returning(a)
    requires U.WithinEstimates(s.units, s.queue) && UnitsSound(s.units, s.queue)
    ensures NothingLost(Step(chain, s, a).units)
  {
    match a
    case Units(unit) =>
      UnitStepLosesNothing(s.units, unit);
    case Buying(_) =>
    case Fiat(_) =>
    case Record(_) =>
    case Handle(_) =>
      U.ConsumeKeepsWithinEstimates(s.units, s.queue);
  }

  lemma {:induction false} RunLosesNothing(chain: B.Chain, s: State, actions: seq<Action>)
    requires Start(s) && Run(chain, s, actions).Some? && forall a :: a in actions ==> Returning(a)
    ensures NothingLost(Run(chain, s, actions).value.units)
  {
    if actions != [] {
      var n := |actions| - 1;
      RunLosesNothing(chain, s, actions[..n]);
      EveryRunIsSound(chain, s, actions[..n]);
      assert forall a :: a in actions ==> Frugal(a);
      hide Returning, Frugal, Modest, Start, Step, Can, U.WithinEstimates, UnitsSound, BuyingSound, FiatSound, StacksDelivered, NothingLost;
      RunKeepsWithinEstimates(chain, s, actions[..n]);
      StepLosesNothing(chain, Run(chain, s, actions[..n]).value, actions[n]);
    }
  }

  /** In such a run a quiet stack has all its units back. */
  lemma QuietStackIsFree(chain: B.Chain, t: State, id: StackId)
    requires ReachableBy(chain, t, Returning) && Quiet(t, id)
    ensures U.Locked(t.units, id) == 0
  {
    hide Returning, Start, Quiet, Reachable;
    var s, actions :| Start(s) && Run(chain, s, actions) == Some(t) && forall a :: a in actions ==> Returning(a);
    RunLosesNothing(chain, s, actions);
    ReachableByIsReachable(chain, t, Returning);
    QuietStackKeepsOnlyLosses(chain, t, id);
    SumSeqZeroIff(t.units.losses, U.LostOn(id));
  }

  /** `r` holds all the units locked on stack 7, which has room for `total` more. */
  predicate SoleHolder(s: State, r: U.Request, total: nat) {
    && s.units.inFlight == multiset{r} && s.units.parked == multiset{} && s.queue == []
    && r.stack == 7 && 7 in s.units.db.stacks
    && var row := s.units.db.stacks[7]; row.locked == r.units && row.computed == 0 && row.size == r.units + total
  }

  lemma ReservationReaches(chain: B.Chain, units: nat, total: nat) returns (t: State)
    ensures ReachableBy(chain, t, Modest) && SoleHolder(t, U.Request(7, units, U.Parking(units, false)), total)
  {
    var row := Stack("", 1, 1, 1, units + total, 0, 0, 0, 0, false, false, false);
    var s := Fresh(Db(map[7 := row], map[1 := Task("", 1, false)], {}, {1}));
    StartIsReachable(chain, s, Modest);
    hide ReachableBy;
    var q := ForEncryption("", units, 1);
    assert Matches(s.units.db, q, 7);
    t := Step(chain, s, Units(U.Reserve(q, 7)));
    StepIsReachable(chain, s, Modest, Units(U.Reserve(q, 7)));
    assert t.units == U.Reserving(s.units, q, 7).state;
  }

  lemma ParkAndTakeReach(chain: B.Chain, s: State, units: nat, total: nat) returns (t: State)
    requires ReachableBy(chain, s, Modest) && SoleHolder(s, U.Request(7, units, U.Parking(units, false)), total)
    ensures ReachableBy(chain, t, Modest) && SoleHolder(t, U.Request(7, units, U.Confidential), total)
  {
    hide ReachableBy;
    var r, lock := U.Request(7, units, U.Parking(units, false)), L.Lock(0, units);
    var a1, a2 := Units(U.Park(r, 0)), Units(U.Take(7, lock, units, 0));
    var s1 := Step(chain, s, a1);
    assert s1.units == U.Parks(s.units, r, 0).state && s1.units.parked == multiset{U.Parked(7, lock)};
    assert Modest(a1) && Modest(a2);
    StepIsReachable(chain, s, Modest, a1);
    t := Step(chain, s1, a2);
    assert t.units == U.Takes(s1.units, 7, lock, units).state;
    StepIsReachable(chain, s1, Modest, a2);
  }

  lemma SettlesAtZero(chain: B.Chain, s: State, r: U.Request, total: nat)
    requires SoleHolder(s, r, total) && r.stage.Confidential?
    ensures Can(s, Units(U.Finish(r, 0, total)))
    ensures var v := Step(chain, Step(chain, s, Units(U.Finish(r, 0, total))), Handle(0));
            Quiet(v, 7) && U.Locked(v.units, 7) == r.units && U.Computed(v.units, 7) == total
  {
    var w := Step(chain, s, Units(U.Finish(r, 0, total)));
    assert w.units == U.Finishes(s.units, r, 0, total).state;
    assert w.queue == [UpdateStackNumTokens(7, 0, total)];
  }

  /** A confidential request that settles with an estimate of zero leaves its units behind for
      good, although nobody asked for anything out of bounds. */
  lemma ZeroEstimateStrands(chain: B.Chain, units: nat, total: nat)
    ensures exists t, r, id ::
              && ReachableBy(chain, t, Modest) && Can(t, Units(U.Finish(r, 0, total))) && r.units == units
              && var v := Step(chain, Step(chain, t, Units(U.Finish(r, 0, total))), Handle(0));
              Quiet(v, id) && U.Locked(v.units, id) == units && U.Computed(v.units, id) == total
  {
    var s := ReservationReaches(chain, units, total);
    var t := ParkAndTakeReach(chain, s, units, total);
    SettlesAtZero(chain, t, U.Request(7, units, U.Confidential), total);
  }

  /** So does a confidential request that takes a lock larger than it needs: the difference stays
      behind. */
  lemma LargerLockStrands(chain: B.Chain, units: nat, need: nat)
    requires need <= units
    ensures exists t, r, id ::
              && ReachableBy(chain, t, Modest) && Can(t, Units(U.Finish(r, need, need))) && r.units == need
              && var v := Step(chain, Step(chain, t, Units(U.Finish(r, need, need))), Handle(0));
              Quiet(v, id) && U.Locked(v.units, id) == units - need && U.Computed(v.units, id) == need
  {
    var s := ReservationReaches(chain, units, 0);
    var t := ParkAndTakeSomeReach(chain, s, units, need);
    SettlesInFull(chain, t, U.Request(7, need, U.Confidential), units);
  }

  lemma ParkAndTakeSomeReach(chain: B.Chain, s: State, units: nat, need: nat) returns (t: State)
    requires ReachableBy(chain, s, Modest) && SoleHolder(s, U.Request(7, units, U.Parking(units, false)), 0)
    requires need <= units
    ensures ReachableBy(chain, t, Modest) && LoneRequest(t, U.Request(7, need, U.Confidential), units)
  {
    hide ReachableBy;
    var r, lock := U.Request(7, units, U.Parking(units, false)), L.Lock(0, units);
    var a1, a2 := Units(U.Park(r, 0)), Units(U.Take(7, lock, need, 0));
    var s1 := Step(chain, s, a1);
    assert s1.units == U.Parks(s.units, r, 0).state && s1.units.parked == multiset{U.Parked(7, lock)};
    assert Modest(a1) && Modest(a2);
    StepIsReachable(chain, s, Modest, a1);
    t := Step(chain, s1, a2);
    assert t.units == U.Takes(s1.units, 7, lock, need).state;
    StepIsReachable(chain, s1, Modest, a2);
  }

  /** `r` is all that is under way, on a stack with `units` units, all locked. */
  predicate LoneRequest(s: State, r: U.Request, units: int) {
    && s.units.inFlight == multiset{r} && s.units.parked == multiset{} && s.queue == []
    && r.stack == 7 && 7 in s.units.db.stacks
    && var row := s.units.db.stacks[7]; row.locked == units && row.computed == 0 && row.size == units
  }

  lemma SettlesInFull(chain: B.Chain, s: State, r: U.Request, units: int)
    requires LoneRequest(s, r, units) && r.stage.Confidential?
    ensures Can(s, Units(U.Finish(r, r.units, r.units)))
    ensures var v := Step(chain, Step(chain, s, Units(U.Finish(r, r.units, r.units))), Handle(0));
            Quiet(v, 7) && U.Locked(v.units, 7) == units - r.units && U.Computed(v.units, 7) == r.units
  {
    var w := Step(chain, s, Units(U.Finish(r, r.units, r.units)));
    assert w.units == U.Finishes(s.units, r, r.units, r.units).state;
    assert w.queue == [UpdateStackNumTokens(7, r.units, r.units)];
  }

  /** So does a lock request that bought a stack and then finds no key for its node. */
  lemma FailedLockRequestStrands(chain: B.Chain, digest: string, money: int, asked: nat)
    requires B.PaysProxy(chain, digest, money)
    ensures exists t, r, id ::
              && ReachableBy(chain, t, Asking(asked, asked)) && Can(t, Units(U.GiveUp(r)))
              && var v := Step(chain, t, Units(U.GiveUp(r)));
              Quiet(v, id) && U.Locked(v.units, id) == U.MAX_NUM_TOKENS_FOR_CONFIDENTIAL_COMPUTE
  {
    var rule := Asking(asked, asked);
    var paid := PaymentReaches(chain, digest, money, rule);
    var bought := PurchaseReaches(chain, paid, asked, rule);
    var t := RecordReaches(chain, bought, asked, rule);
    GivesUpQuietly(chain, t, U.Request(7, U.MAX_NUM_TOKENS_FOR_CONFIDENTIAL_COMPUTE, U.Parking(asked, true)), asked);
  }

  lemma GivesUpQuietly(chain: B.Chain, s: State, r: U.Request, asked: int)
    requires JustRecorded(s, r, asked)
    ensures Can(s, Units(U.GiveUp(r)))
    ensures var v := Step(chain, s, Units(U.GiveUp(r)));
            Quiet(v, 7) && U.Locked(v.units, 7) == U.MAX_NUM_TOKENS_FOR_CONFIDENTIAL_COMPUTE
  {
    assert Step(chain, s, Units(U.GiveUp(r))).units == U.GivesUp(s.units, r).state;
  }

  // ---------------------------------------------------------------- runs without lock requests

  /** No request reserves for encryption, and no lock request buys a stack. */
  predicate NoLockRequest(a: Action) {
    && (a.Units? && a.unit.Reserve? ==> !a.unit.q.ForEncryption?)
    && (a.Buying? && a.buy.TryLock? ==> a.buy.p.stage.Direct?)
  }

  ghost predicate AllDirect(s: State) {
    && s.units.parked == multiset{}
    && (forall r :: r in s.units.inFlight ==> r.stage.Direct?)
    && (forall pid :: pid in s.buying.purchases ==> s.buying.purchases[pid].stage.Direct?)
  }

  lemma UnitStepKeepsDirect(u: U.UnitState, a: U.Action)
    requires U.Enabled(u, a) && (a.Reserve? ==> !a.q.ForEncryption?)
    requires u.parked == multiset{} && forall r :: r in u.inFlight ==> r.stage.Direct?
    ensures var v := U.Apply(u, a).state; v.parked == multiset{} && forall r :: r in v.inFlight ==> r.stage.Direct?
  {
    if a.Reserve? {
      assert Matches(u.db, a.q, a.id);
    }
  }

  lemma BuyingKeepsDirect(chain: B.Chain, b: B.BuyState, a: B.BuyAction)
    requires B.CanBuy(b, a) && (a.TryLock? ==> a.p.stage.Direct?)
    requires forall pid :: pid in b.purchases ==> b.purchases[pid].stage.Direct?
    ensures var v := B.ApplyBuy(chain, b, a).state; forall pid :: pid in v.purchases ==> v.purchases[pid].stage.Direct?
  {
    hide B.Creditable, B.Deduct, B.Refund, B.Deducted;
  }

  lemma StepKeepsDirect(chain: B.Chain, s: State, a: Action)
    requires AllDirect(s) && Can(s, a) && NoLockRequest(a)
    ensures AllDirect(Step(chain, s, a))
  {
    match a
    case Units(unit) =>
      UnitStepKeepsDirect(s.units, unit);
      hide U.Apply, U.Enabled;
    case Buying(buy) =>
      BuyingKeepsDirect(chain, s.buying, buy);
      hide B.ApplyBuy;
    case Fiat(fiat) =>
      hide F.ApplyFiat;
    case Record(pid) =>
      RecordKeepsDirect(chain, s, pid);
      hide U.Buy;
    case Handle(_) =>
      hide B.ConsumeTopUp, F.ConsumeFiat, StackTable.Settle;
  }

  lemma RecordKeepsDirect(chain: B.Chain, s: State, pid: B.Pid)
    requires AllDirect(s) && Can(s, Record(pid))
    ensures AllDirect(Step(chain, s, Record(pid)))
  {
    hide Insert;
  }

  lemma {:induction false} RunKeepsDirect(chain: B.Chain, s: State, actions: seq<Action>)
    requires Start(s) && Run(chain, s, actions).Some? && forall a :: a in actions ==> NoLockRequest(a)
    ensures AllDirect(Run(chain, s, actions).value)
  {
    if actions != [] {
      var n := |actions| - 1;
      RunKeepsDirect(chain, s, actions[..n]);
      hide Start, Step, Can, AllDirect, NoLockRequest;
      StepKeepsDirect(chain, Run(chain, s, actions[..n]).value, actions[n]);
    }
  }

  /** Where nobody asks for a lock, no units are ever parked, and every settlement names the
      whole estimate of its request. */
  lemma WholeEstimatesWithoutLocks(chain: B.Chain, t: State, r: U.Request, reported: int, total: int)
    requires ReachableBy(chain, t, NoLockRequest)
    ensures t.units.parked == multiset{}
    ensures Can(t, Units(U.Finish(r, reported, total))) <==> r in t.units.inFlight && reported == r.units
  {
    hide Start, NoLockRequest;
    var s, actions :| Start(s) && Run(chain, s, actions) == Some(t) && forall a :: a in actions ==> NoLockRequest(a);
    RunKeepsDirect(chain, s, actions);
    hide Run;
  }

  // ---------------------------------------------------------------- runs without purchases by lock requests

  predicate NoLockPurchase(a: Action) {
    a.Buying? && a.buy.TryLock? ==> a.buy.p.stage.Direct?
  }

  predicate Whole(r: U.Request) {
    r.stage.Parking? ==> !r.stage.bought && r.stage.maxNumTokens == r.units
  }

  /** Nothing was lost on the way into a heap. */
  predicate LostAfterwards(l: U.Loss) {
    !l.cause.NeverParked? && (l.cause.ParkedOtherAmount? ==> l.units == 0)
  }

  ghost predicate ParksWhole(s: State) {
    && (forall r :: r in s.units.inFlight ==> Whole(r))
    && (forall l :: l in s.units.losses ==> LostAfterwards(l))
    && (forall pid :: pid in s.buying.purchases ==> s.buying.purchases[pid].stage.Direct?)
  }

  lemma UnitStepKeepsWhole(u: U.UnitState, a: U.Action)
    requires U.Enabled(u, a) && forall r :: r in u.inFlight ==> Whole(r)
    ensures forall r :: r in U.Apply(u, a).state.inFlight ==> Whole(r)
  {
    if a.Reserve? {
      assert Matches(u.db, a.q, a.id);
    }
  }

  lemma UnitStepLosesAfterwards(u: U.UnitState, a: U.Action)
    requires U.Enabled(u, a) && forall r :: r in u.inFlight ==> Whole(r)
    requires forall l :: l in u.losses ==> LostAfterwards(l)
    ensures forall l :: l in U.Apply(u, a).state.losses ==> LostAfterwards(l)
  {
    if a.Park? || a.GiveUp? {
      assert Whole(a.r);
    }
  }

  lemma StepParksWhole(chain: B.Chain, s: State, a: Action)
    requires ParksWhole(s) && Can(s, a) && NoLockPurchase(a)
    ensures ParksWhole(Step(chain, s, a))
  {
    match a
    case Units(unit) =>
      UnitStepKeepsWhole(s.units, unit);
      UnitStepLosesAfterwards(s.units, unit);
      hide U.Apply, U.Enabled;
    case Buying(buy) =>
      BuyingKeepsDirect(chain, s.buying, buy);
      hide B.ApplyBuy;
    case Fiat(_) =>
      hide F.ApplyFiat;
    case Record(pid) =>
      RecordParksWhole(chain, s, pid);
      hide U.Buy;
    case Handle(_) =>
      hide B.ConsumeTopUp, F.ConsumeFiat, StackTable.Settle;
      assert s.buying.purchases == B.ConsumeTopUp(s.buying, s.queue[0]).purchases by { TopUpKeepsPurchases(s.buying, s.queue[0]); }
  }

  lemma TopUpKeepsPurchases(b: B.BuyState, e: Event)
    ensures B.ConsumeTopUp(b, e).purchases == b.purchases
  {
  }

  lemma RecordParksWhole(chain: B.Chain, s: State, pid: B.Pid)
    requires ParksWhole(s) && Can(s, Record(pid))
    ensures ParksWhole(Step(chain, s, Record(pid)))
  {
    hide Insert;
  }

  lemma {:induction false} RunParksWhole(chain: B.Chain, s: State, actions: seq<Action>)
    requires Start(s) && Run(chain, s, actions).Some? && forall a :: a in actions ==> NoLockPurchase(a)
    ensures ParksWhole(Run(chain, s, actions).value)
  {
    if actions != [] {
      var n := |actions| - 1;
      RunParksWhole(chain, s, actions[..n]);
      hide Start, Step, Can, ParksWhole, NoLockPurchase;
      StepParksWhole(chain, Run(chain, s, actions[..n]).value, actions[n]);
    }
  }

  /** Where no lock request has to buy a stack, every lock holds just what was reserved for it,
      and no lock request fails: no unit is ever lost on the way into a heap. */
  lemma OnlyPurchasesLoseOnParking(chain: B.Chain, t: State, l: U.Loss)
    requires ReachableBy(chain, t, NoLockPurchase) && l in t.units.losses && l.units != 0
    ensures l.cause.TookLargerLock? || l.cause.ReportedLess? || l.cause.SettlementRefused?
  {
    hide Start, NoLockPurchase;
    var s, actions :| Start(s) && Run(chain, s, actions) == Some(t) && forall a :: a in actions ==> NoLockPurchase(a);
    RunParksWhole(chain, s, actions);
    hide Run;
  }
}
