/** The three ledgers together: one event queue, one consumer, and every interleaving of the
    requests, purchases and payments that use them. */
module Ledgers {
  import opened Base
  import opened Events
  import opened StackTable
  import L = LockHeaps
  import U = UnitProtocol
  import B = Purchase
  import F = Fiat

  datatype State = State(units: U.UnitState, buying: B.BuyState, fiat: F.FiatState, queue: seq<Event>)

  /** One step of some component.  `Record` is the answer of the state manager to a bought
      stack; `Handle` is its next turn at the queue. */
  datatype Action =
    | Units(unit: U.Action)
    | Buying(buy: B.BuyAction)
    | Fiat(fiat: F.FiatAction)
    | Record(pid: B.Pid)
    | Handle(day: F.Day)

  predicate Can(s: State, a: Action) {
    match a
    case Units(unit) => U.Enabled(s.units, unit)
    case Buying(buy) => B.CanBuy(s.buying, buy)
    case Fiat(fiat) => F.CanFiat(s.fiat, fiat)
    case Record(pid) => pid in s.buying.purchases && s.buying.purchases[pid].phase.Bought?
    case Handle(_) => s.queue != []
  }

  function Step(chain: B.Chain, s: State, a: Action): State
    requires Can(s, a)
  {
    match a
    case Units(unit) =>
      var o := U.Apply(s.units, unit);
      s.(units := o.state, queue := s.queue + o.sent)
    case Buying(buy) =>
      var o := B.ApplyBuy(chain, s.buying, buy);
      s.(buying := o.state, queue := s.queue + o.sent)
    case Fiat(fiat) =>
      var o := F.ApplyFiat(s.fiat, fiat);
      s.(fiat := o.state, queue := s.queue + o.sent)
    case Record(pid) =>
      var p := s.buying.purchases[pid];
      (match U.Buy(s.units, p.phase.id, p.phase.created, p.user, BuyersRequest(p))
       case Ok(units) => s.(units := units, buying := B.Records(s.buying, pid, true))
       case Err(_) => s.(buying := B.Records(s.buying, pid, false)))
    case Handle(day) =>
      State(U.Consume(s.units, s.queue[0]), B.ConsumeTopUp(s.buying, s.queue[0]),
            F.ConsumeFiat(s.fiat, day, s.queue[0]), s.queue[1..])
  }

  /** The request that bought a stack, as the holder of the units locked on it. */
  function BuyersRequest(p: B.Purchase): (r: U.Request)
    requires p.phase.Bought?
    ensures r.stack == p.phase.id
  {
    U.Request(p.phase.id, p.units, p.stage)
  }

  function Run(chain: B.Chain, s: State, actions: seq<Action>): Option<State> {
    if actions == [] then Some(s)
    else
      match Run(chain, s, actions[..|actions| - 1])
      case None => None
      case Some(t) =>
        var a := actions[|actions| - 1];
        if Can(t, a) then Some(Step(chain, t, a)) else None
  }

  predicate Unused(s: Stack) {
    s.locked == 0 && s.computed == 0 && s.messages == 0
  }

  /** A fresh deployment: no units used on the stacks it starts with, no money anywhere. */
  ghost predicate Start(s: State) {
    && s.queue == []
    && AllFit(s.units.db) && (forall id :: id in s.units.db.stacks ==> Unused(s.units.db.stacks[id]))
    && s.units.parked == multiset{} && s.units.inFlight == multiset{} && s.units.losses == [] && s.units.settled == []
    && s.buying == B.BuyState(map[], map[], map[], [], {}, multiset{}, [])
    && s.fiat == F.FiatState(F.Tables(map[], map[]), multiset{}, [], [])
  }

  // ---------------------------------------------------------------- the invariant

  ghost predicate UnitsSound(u: U.UnitState, queue: seq<Event>) {
    U.Balanced(u, queue) && AllFit(u.db) && U.KnownStacks(u, queue) && U.Billed(u)
  }

  ghost predicate BuyingSound(chain: B.Chain, b: B.BuyState, queue: seq<Event>) {
    B.Exclusive(b) && B.Conserved(b, queue) && B.Funded(b, queue) && B.UsedOnce(b) && B.Genuine(chain, b)
  }

  ghost predicate FiatSound(f: F.FiatState, queue: seq<Event>) {
    F.Known(f, queue) && F.Safe(f) && F.Grouped(f) && F.Shown(f) && F.Counted(f)
  }

  /** Every completed purchase has a stack of its own in the table. */
  ghost predicate StacksDelivered(bought: seq<B.Purchase>, stacks: set<StackId>) {
    && (forall i :: 0 <= i < |bought| ==> bought[i].phase.Bought? && bought[i].phase.id in stacks)
    && (forall i, j :: 0 <= i < j < |bought| ==> bought[i].phase.id != bought[j].phase.id)
  }

  ghost predicate Sound(chain: B.Chain, s: State) {
    && UnitsSound(s.units, s.queue) && BuyingSound(chain, s.buying, s.queue) && FiatSound(s.fiat, s.queue)
    && StacksDelivered(s.buying.bought, s.units.db.stacks.Keys)
  }

  lemma StartIsSound(chain: B.Chain, s: State)
    requires Start(s)
    ensures Sound(chain, s)
  {
    assert U.Balanced(s.units, s.queue) by {
      forall id: StackId
        ensures U.Locked(s.units, id) == U.Held(s.units, s.queue, id)
      {
        assert U.Held(s.units, s.queue, id) == 0;
      }
    }
    assert U.Billed(s.units);
    assert B.UsedOnce(s.buying);
    assert B.Conserved(s.buying, s.queue);
    assert F.Safe(s.fiat) && F.Grouped(s.fiat) && F.Shown(s.fiat) && F.Counted(s.fiat);
  }

  /** An event of one ledger waits in the queue without touching the others. */
  lemma OthersKeepUnits(u: U.UnitState, queue: seq<Event>, sent: seq<Event>)
    requires UnitsSound(u, queue) && |sent| <= 1 && forall e :: e in sent ==> !e.UpdateStackNumTokens?
    ensures UnitsSound(u, queue + sent)
  {
    if sent == [] {
      assert queue + sent == queue;
    } else {
      assert sent == [sent[0]];
      U.OtherEventsKeepBalance(u, queue, sent[0]);
      hide U.Balanced, U.Billed;
    }
  }

  lemma OthersKeepBuying(chain: B.Chain, b: B.BuyState, queue: seq<Event>, sent: seq<Event>)
    requires BuyingSound(chain, b, queue) && |sent| <= 1 && forall e :: e in sent ==> !e.TopUpBalance?
    ensures BuyingSound(chain, b, queue + sent)
  {
    if sent == [] {
      assert queue + sent == queue;
    } else {
      assert sent == [sent[0]];
      B.OtherEventsConserve(b, queue, sent[0]);
      hide B.Conserved, B.Exclusive, B.UsedOnce, B.Genuine;
    }
  }

  lemma OthersKeepFiat(f: F.FiatState, queue: seq<Event>, sent: seq<Event>)
    requires FiatSound(f, queue) && |sent| <= 1 && forall e :: e in sent ==> !e.UpdateStackNumTokensFiat?
    ensures FiatSound(f, queue + sent)
  {
    hide F.Safe, F.Grouped, F.Shown, F.Counted;
  }

  lemma SentByUnits(u: U.UnitState, a: U.Action)
    requires U.Enabled(u, a)
    ensures var sent := U.Apply(u, a).sent; |sent| <= 1 && forall e :: e in sent ==> e.UpdateStackNumTokens?
  {
  }

  lemma SentByBuying(chain: B.Chain, b: B.BuyState, a: B.BuyAction)
    requires B.CanBuy(b, a)
    ensures var sent := B.ApplyBuy(chain, b, a).sent; |sent| <= 1 && forall e :: e in sent ==> e.TopUpBalance?
  {
    hide B.Creditable;
  }

  lemma SentByFiat(f: F.FiatState, a: F.FiatAction)
    requires F.CanFiat(f, a)
    ensures var sent := F.ApplyFiat(f, a).sent; |sent| <= 1 && forall e :: e in sent ==> e.UpdateStackNumTokensFiat?
  {
    hide F.Reported;
  }

  lemma UnitsStep(chain: B.Chain, s: State, a: U.Action)
    requires Sound(chain, s) && U.Enabled(s.units, a)
    ensures Sound(chain, Step(chain, s, Units(a)))
  {
    hide U.Apply, U.Enabled, UnitsSound, BuyingSound, FiatSound, StacksDelivered;
    var o := U.Apply(s.units, a);
    SentByUnits(s.units, a);
    UnitsStaySound(s.units, s.queue, a);
    OthersKeepBuying(chain, s.buying, s.queue, o.sent);
    OthersKeepFiat(s.fiat, s.queue, o.sent);
  }

  lemma UnitsStaySound(u: U.UnitState, queue: seq<Event>, a: U.Action)
    requires UnitsSound(u, queue) && U.Enabled(u, a)
    ensures UnitsSound(U.Apply(u, a).state, queue + U.Apply(u, a).sent)
    ensures U.Apply(u, a).state.db.stacks.Keys == u.db.stacks.Keys
  {
    hide U.Apply, U.Enabled, U.Balanced, AllFit, U.KnownStacks, U.Billed;
    U.StepKeepsBalance(u, queue, a);
    U.StepKeepsFit(u, a);
    U.StepKeepsKnownStacks(u, queue, a);
    U.StepKeepsBilled(u, a);
  }

  lemma BuyingStep(chain: B.Chain, s: State, a: B.BuyAction)
    requires Sound(chain, s) && B.CanBuy(s.buying, a)
    ensures Sound(chain, Step(chain, s, Buying(a)))
  {
    hide B.ApplyBuy, B.CanBuy, UnitsSound, BuyingSound, FiatSound, StacksDelivered;
    var o := B.ApplyBuy(chain, s.buying, a);
    SentByBuying(chain, s.buying, a);
    OthersKeepUnits(s.units, s.queue, o.sent);
    OthersKeepFiat(s.fiat, s.queue, o.sent);
    BuyingStaysSound(chain, s.buying, s.queue, a);
    BuyingKeepsBought(chain, s.buying, a);
  }

  lemma BuyingStaysSound(chain: B.Chain, b: B.BuyState, queue: seq<Event>, a: B.BuyAction)
    requires BuyingSound(chain, b, queue) && B.CanBuy(b, a)
    ensures BuyingSound(chain, B.ApplyBuy(chain, b, a).state, queue + B.ApplyBuy(chain, b, a).sent)
  {
    hide B.ApplyBuy, B.CanBuy, B.Exclusive, B.Conserved, B.Funded, B.UsedOnce, B.Genuine;
    B.StepKeepsExclusive(chain, b, a);
    B.StepConserves(chain, b, queue, a);
    B.StepKeepsFunded(chain, b, queue, a);
    B.StepKeepsUsedOnce(chain, b, a);
    B.StepKeepsGenuine(chain, b, a);
  }

  lemma BuyingKeepsBought(chain: B.Chain, b: B.BuyState, a: B.BuyAction)
    requires B.CanBuy(b, a)
    ensures B.ApplyBuy(chain, b, a).state.bought == b.bought
  {
    hide B.Creditable, B.Deduct, B.Refund, B.Deducted;
  }

  lemma FiatStep(chain: B.Chain, s: State, a: F.FiatAction)
    requires Sound(chain, s) && F.CanFiat(s.fiat, a)
    ensures Sound(chain, Step(chain, s, Fiat(a)))
  {
    hide F.ApplyFiat, F.CanFiat, UnitsSound, BuyingSound, FiatSound, StacksDelivered;
    var o := F.ApplyFiat(s.fiat, a);
    SentByFiat(s.fiat, a);
    OthersKeepUnits(s.units, s.queue, o.sent);
    OthersKeepBuying(chain, s.buying, s.queue, o.sent);
    FiatStaysSound(s.fiat, s.queue, a);
  }

  lemma FiatStaysSound(f: F.FiatState, queue: seq<Event>, a: F.FiatAction)
    requires FiatSound(f, queue) && F.CanFiat(f, a)
    ensures FiatSound(F.ApplyFiat(f, a).state, queue + F.ApplyFiat(f, a).sent)
  {
    hide F.ApplyFiat, F.CanFiat, F.Known, F.Safe, F.Grouped, F.Shown, F.Counted;
    F.StepKeepsKnown(f, queue, a);
    F.StepKeepsSafe(f, a);
    F.StepKeepsUsage(f, a);
  }

  lemma HandleStep(chain: B.Chain, s: State, day: F.Day)
    requires Sound(chain, s) && s.queue != []
    ensures Sound(chain, Step(chain, s, Handle(day)))
  {
    hide U.Consume, B.ConsumeTopUp, F.ConsumeFiat, UnitsSound, BuyingSound, FiatSound, StacksDelivered;
    SettlementStaysSound(s.units, s.queue);
    TopUpStaysSound(chain, s.buying, s.queue);
    FiatSettlementStaysSound(s.fiat, s.queue, day);
  }

  lemma SettlementStaysSound(u: U.UnitState, queue: seq<Event>)
    requires UnitsSound(u, queue) && queue != []
    ensures UnitsSound(U.Consume(u, queue[0]), queue[1..])
    ensures U.Consume(u, queue[0]).db.stacks.Keys == u.db.stacks.Keys
  {
    hide U.Consume, U.Balanced, U.KnownStacks, U.Billed, AllFit;
    U.ConsumeKeepsBalance(u, queue);
    U.ConsumeKeepsKnownStacks(u, queue);
    U.ConsumeKeepsFit(u, queue[0]);
    U.ConsumeKeepsBilled(u, queue[0]);
  }

  lemma FiatSettlementStaysSound(f: F.FiatState, queue: seq<Event>, day: F.Day)
    requires FiatSound(f, queue) && queue != []
    ensures FiatSound(F.ConsumeFiat(f, day, queue[0]), queue[1..])
  {
    hide F.ConsumeFiat, F.Known, F.Safe, F.Grouped, F.Shown, F.Counted;
    F.ConsumeKeepsKnown(f, queue, day);
    F.ConsumeKeepsSafe(f, day, queue[0]);
    F.ConsumeKeepsGrouped(f, day, queue[0]);
    F.ConsumeKeepsShown(f, day, queue[0]);
    F.ConsumeKeepsCounted(f, day, queue[0]);
  }

  lemma TopUpStaysSound(chain: B.Chain, b: B.BuyState, queue: seq<Event>)
    requires BuyingSound(chain, b, queue) && queue != []
    ensures BuyingSound(chain, B.ConsumeTopUp(b, queue[0]), queue[1..])
    ensures B.ConsumeTopUp(b, queue[0]).bought == b.bought
  {
    B.TopUpConserves(b, queue);
    B.RecordAndTopUpKeepFunded(b, queue, 0, true);
    B.OtherFieldsKeepExclusive(b, B.ConsumeTopUp(b, queue[0]));
    B.OtherFieldsKeepUsedOnce(b, B.ConsumeTopUp(b, queue[0]));
    hide B.Exclusive, B.Conserved, B.Funded, B.UsedOnce;
  }

  lemma RecordStep(chain: B.Chain, s: State, pid: B.Pid)
    requires Sound(chain, s) && Can(s, Record(pid))
    ensures Sound(chain, Step(chain, s, Record(pid)))
  {
    hide U.Buy, UnitsSound, BuyingSound, FiatSound, StacksDelivered;
    var p := s.buying.purchases[pid];
    var bought := U.Buy(s.units, p.phase.id, p.phase.created, p.user, BuyersRequest(p));
    RecordStaysSound(chain, s.buying, s.queue, pid, bought.Ok?);
    if bought.Ok? {
      PurchaseStaysSound(s.units, s.queue, p);
      Delivered(s.buying.bought, s.units.db.stacks.Keys, p);
    }
  }

  lemma PurchaseStaysSound(u: U.UnitState, queue: seq<Event>, p: B.Purchase)
    requires UnitsSound(u, queue) && p.phase.Bought? && U.Buy(u, p.phase.id, p.phase.created, p.user, BuyersRequest(p)).Ok?
    ensures var v := U.Buy(u, p.phase.id, p.phase.created, p.user, BuyersRequest(p)).value;
            UnitsSound(v, queue) && p.phase.id !in u.db.stacks && v.db.stacks.Keys == u.db.stacks.Keys + {p.phase.id}
  {
    hide U.Buy, U.Balanced, U.KnownStacks, U.Billed, AllFit;
    var id, created, r := p.phase.id, p.phase.created, BuyersRequest(p);
    U.BuyKeepsBalance(u, queue, id, created, p.user, r);
    U.BuyKeepsFit(u, id, created, p.user, r);
    U.BuyKeepsKnownStacks(u, queue, id, created, p.user, r);
    U.BuyKeepsBilled(u, id, created, p.user, r);
  }

  lemma RecordStaysSound(chain: B.Chain, b: B.BuyState, queue: seq<Event>, pid: B.Pid, recorded: bool)
    requires BuyingSound(chain, b, queue) && pid in b.purchases && b.purchases[pid].phase.Bought?
    ensures BuyingSound(chain, B.Records(b, pid, recorded), queue)
  {
    var v := B.Records(b, pid, recorded);
    B.RecordConserves(b, queue, pid, recorded);
    B.RecordAndTopUpKeepFunded(b, queue, pid, recorded);
    B.MoveKeepsExclusive(b, v, pid, v.purchases[pid].phase);
    B.OtherFieldsKeepUsedOnce(b, v);
    hide B.Exclusive, B.Conserved, B.Funded, B.UsedOnce;
  }

  lemma Delivered(bought: seq<B.Purchase>, stacks: set<StackId>, p: B.Purchase)
    requires StacksDelivered(bought, stacks) && p.phase.Bought? && p.phase.id !in stacks
    ensures StacksDelivered(bought + [p], stacks + {p.phase.id})
  {
  }

  lemma StepKeepsSound(chain: B.Chain, s: State, a: Action)
    requires Sound(chain, s) && Can(s, a)
    ensures Sound(chain, Step(chain, s, a))
  {
    hide Sound, Step;
    match a
    case Units(unit) => UnitsStep(chain, s, unit);
    case Buying(buy) => BuyingStep(chain, s, buy);
    case Fiat(fiat) => FiatStep(chain, s, fiat);
    case Record(pid) => RecordStep(chain, s, pid);
    case Handle(day) => HandleStep(chain, s, day);
  }

  lemma {:induction false} EveryRunIsSound(chain: B.Chain, s: State, actions: seq<Action>)
    requires Start(s) && Run(chain, s, actions).Some?
    ensures Sound(chain, Run(chain, s, actions).value)
  {
    hide Sound, Start, Can, Step;
    if actions == [] {
      StartIsSound(chain, s);
    } else {
      var n := |actions| - 1;
      EveryRunIsSound(chain, s, actions[..n]);
      StepKeepsSound(chain, Run(chain, s, actions[..n]).value, actions[n]);
    }
  }

  // ---------------------------------------------------------------- what holds after every run

  ghost predicate Reachable(chain: B.Chain, t: State) {
    exists s, actions :: Start(s) && Run(chain, s, actions) == Some(t)
  }

  /** Reached by actions that all keep to a rule. */
  ghost predicate ReachableBy(chain: B.Chain, t: State, rule: Action -> bool) {
    exists s, actions :: Start(s) && Run(chain, s, actions) == Some(t) && forall a :: a in actions ==> rule(a)
  }

  lemma StartIsReachable(chain: B.Chain, s: State, rule: Action -> bool)
    requires Start(s)
    ensures ReachableBy(chain, s, rule)
  {
    assert Run(chain, s, []) == Some(s);
  }

  lemma StepIsReachable(chain: B.Chain, t: State, rule: Action -> bool, a: Action)
    requires ReachableBy(chain, t, rule) && Can(t, a) && rule(a)
    ensures ReachableBy(chain, Step(chain, t, a), rule)
  {
    hide Start, Can, Step;
    var s, actions :| Start(s) && Run(chain, s, actions) == Some(t) && forall b :: b in actions ==> rule(b);
    assert (actions + [a])[..|actions|] == actions;
    assert Run(chain, s, actions + [a]) == Some(Step(chain, t, a));
  }

  lemma WeakerRuleReaches(chain: B.Chain, t: State, rule: Action -> bool, weaker: Action -> bool)
    requires ReachableBy(chain, t, rule) && forall a :: rule(a) ==> weaker(a)
    ensures ReachableBy(chain, t, weaker)
  {
    hide Start, Run;
  }

  lemma ReachableByIsReachable(chain: B.Chain, t: State, rule: Action -> bool)
    requires ReachableBy(chain, t, rule)
    ensures Reachable(chain, t)
  {
    hide Start, Run;
  }

  lemma ReachableIsSound(chain: B.Chain, t: State)
    requires Reachable(chain, t)
    ensures Sound(chain, t)
  {
    hide Sound;
    var s, actions :| Start(s) && Run(chain, s, actions) == Some(t);
    EveryRunIsSound(chain, s, actions);
  }

  /** No stack is ever over-committed, whatever the settlements bill. */
  lemma NeverOverCommitted(chain: B.Chain, t: State, id: StackId)
    requires Reachable(chain, t) && id in t.units.db.stacks
    ensures var stack := t.units.db.stacks[id]; stack.computed + stack.locked <= stack.size
  {
    hide BuyingSound, FiatSound, StacksDelivered, U.Balanced, U.KnownStacks, U.Billed;
    ReachableIsSound(chain, t);
    assert t.units.db.stacks[id].Fits();
  }

  /** The locked units of a stack are those of the requests in flight, of the expiry heap, of
      the queue, and the stranded ones. */
  lemma LockedUnitsAccounted(chain: B.Chain, t: State, id: StackId)
    requires Reachable(chain, t)
    ensures U.Locked(t.units, id)
         == SumBag(t.units.inFlight, U.UnitsOn(id)) + SumBag(t.units.parked, U.ParkedOn(id))
            + SumSeq(t.queue, U.EstimatedOn(id)) + SumSeq(t.units.losses, U.LostOn(id))
  {
    hide BuyingSound, FiatSound, StacksDelivered, AllFit, U.KnownStacks, U.Billed;
    ReachableIsSound(chain, t);
    assert U.Locked(t.units, id) == U.Held(t.units, t.queue, id);
  }

  /** The computed units of a stack are the totals of the settlements the table accepted. */
  lemma ComputedIsBilled(chain: B.Chain, t: State, id: StackId)
    requires Reachable(chain, t)
    ensures U.Computed(t.units, id) == SumSeq(t.units.settled, U.TotalOn(id))
    ensures U.Messages(t.units, id) == SumSeq(t.units.settled, U.MessageOn(id))
  {
    hide BuyingSound, FiatSound, StacksDelivered, AllFit, U.KnownStacks, U.Balanced;
    ReachableIsSound(chain, t);
    assert U.Billed(t.units);
  }

  /** At most one purchase per user and task is in flight, and the lock map names exactly those. */
  lemma PurchasesExclude(chain: B.Chain, t: State)
    requires Reachable(chain, t)
    ensures t.buying.lockMap.Keys == set pid | pid in t.buying.purchases :: t.buying.purchases[pid].Key()
    ensures forall i, j :: i in t.buying.purchases && j in t.buying.purchases && i != j ==>
              t.buying.purchases[i].Key() != t.buying.purchases[j].Key()
  {
    hide UnitsSound, FiatSound, StacksDelivered, B.Conserved, B.Funded, B.UsedOnce, B.Genuine;
    ReachableIsSound(chain, t);
    assert B.Exclusive(t.buying);
  }

  /** A user's balance is what they were credited, less what is on its way into it, what they
      spent on stacks, and what is deducted for purchases still open; it is never negative. */
  lemma BalanceIsConserved(chain: B.Chain, t: State, user: UserId)
    requires Reachable(chain, t)
    ensures B.RowOf(t.buying.balances, user)
         == SumSeq(t.buying.credits, B.CreditedTo(user)) - SumSeq(t.queue, B.ToppingUp(user))
            - SumSeq(t.buying.bought, B.SpentBy(user)) - SumMap(t.buying.purchases, B.PendingOf(user))
    ensures B.RowOf(t.buying.balances, user) >= 0
  {
    hide UnitsSound, FiatSound, StacksDelivered, B.Exclusive, B.UsedOnce, B.Genuine;
    ReachableIsSound(chain, t);
    var b := t.buying;
    assert B.Funded(b, t.queue) && B.Conserved(b, t.queue);
    assert SumSeq(b.credits, B.CreditedTo(user)) == B.Accounted(b.balances, b.purchases, b.bought, t.queue, user);
  }

  /** A payment is credited at most once, to one user, with the money it paid the proxy. */
  lemma CreditedOnce(chain: B.Chain, t: State)
    requires Reachable(chain, t)
    ensures forall i, j :: 0 <= i < j < |t.buying.credits| ==> t.buying.credits[i].digest != t.buying.credits[j].digest
    ensures forall c :: c in t.buying.credits ==> c.amount >= 0 && B.PaysProxy(chain, c.digest, c.amount)
  {
    hide UnitsSound, FiatSound, StacksDelivered, B.Exclusive, B.Conserved, B.Funded;
    ReachableIsSound(chain, t);
    assert B.UsedOnce(t.buying) && B.Genuine(chain, t.buying);
    forall i, j | 0 <= i < j < |t.buying.credits|
      ensures t.buying.credits[i].digest != t.buying.credits[j].digest
    {
      B.CreditsAreDistinct(t.buying, i, j);
    }
    forall c | c in t.buying.credits
      ensures c.amount >= 0 && B.PaysProxy(chain, c.digest, c.amount)
    {
      B.CreditableIsNonNegative(chain, c.digest);
      B.CreditableIff(chain, c.digest, c.amount);
    }
  }

  lemma StepKeepsDecision(chain: B.Chain, s: State, a: Action, digest: string, outcome: Option<B.Credit>)
    requires Can(s, a) && B.Decided(s.buying, digest, outcome)
    ensures B.Decided(Step(chain, s, a).buying, digest, outcome)
  {
    hide B.Decided;
    match a
    case Units(_) =>
    case Fiat(_) =>
    case Buying(buy) => B.StepKeepsDecision(chain, s.buying, buy, digest, outcome);
    case Record(pid) =>
      B.RecordKeepsDecision(s.buying, pid, true, digest, outcome);
      B.RecordKeepsDecision(s.buying, pid, false, digest, outcome);
    case Handle(_) => B.TopUpKeepsDecision(s.buying, s.queue[0], digest, outcome);
  }

  lemma {:induction false} RunKeepsDecision(chain: B.Chain, s: State, actions: seq<Action>, digest: string, outcome: Option<B.Credit>)
    requires Run(chain, s, actions).Some? && B.Decided(s.buying, digest, outcome)
    ensures B.Decided(Run(chain, s, actions).value.buying, digest, outcome)
  {
    hide Can, Step, B.Decided;
    if actions != [] {
      var n := |actions| - 1;
      RunKeepsDecision(chain, s, actions[..n], digest, outcome);
      StepKeepsDecision(chain, Run(chain, s, actions[..n]).value, actions[n], digest, outcome);
    }
  }

  /** The one claim on a payment decides for good.  Whatever happens afterwards, the payment is
      credited if and only if the call that finishes the claim found the transaction, was
      authorised, and the transaction pays the proxy; and then to the claimant, with the amount
      paid. */
  lemma ClaimDecidesForGood(chain: B.Chain, s: State, c: B.Claim, fetched: bool, authorised: bool, actions: seq<Action>, t: State, amount: int)
    requires Reachable(chain, s) && c in s.buying.claims
    requires Run(chain, Step(chain, s, Buying(B.FinishClaim(c, fetched, authorised))), actions) == Some(t)
    ensures B.Credit(c.user, c.digest, amount) in t.buying.credits <==> fetched && authorised && B.PaysProxy(chain, c.digest, amount)
    ensures forall x :: x in t.buying.credits && x.digest == c.digest ==> x.user == c.user
  {
    var v := Step(chain, s, Buying(B.FinishClaim(c, fetched, authorised)));
    var outcome := FinishDecides(chain, s, c, fetched, authorised);
    RunKeepsDecision(chain, v, actions, c.digest, outcome);
    B.CreditableIff(chain, c.digest, amount);
    hide Step, Can, Run, Reachable, B.Creditable, B.PaysProxy;
  }

  lemma FinishDecides(chain: B.Chain, s: State, c: B.Claim, fetched: bool, authorised: bool) returns (outcome: Option<B.Credit>)
    requires Reachable(chain, s) && c in s.buying.claims
    ensures outcome == if fetched && authorised && B.Creditable(chain, c.digest).Some?
                       then Some(B.Credit(c.user, c.digest, B.Creditable(chain, c.digest).value)) else None
    ensures B.Decided(Step(chain, s, Buying(B.FinishClaim(c, fetched, authorised))).buying, c.digest, outcome)
  {
    SoleClaim(chain, s, c);
    hide Reachable, B.Creditable;
    outcome := if fetched && authorised && B.Creditable(chain, c.digest).Some?
               then Some(B.Credit(c.user, c.digest, B.Creditable(chain, c.digest).value)) else None;
  }

  /** A claim on a payment is the only one, and there is no credit beside it. */
  lemma SoleClaim(chain: B.Chain, s: State, c: B.Claim)
    requires Reachable(chain, s) && c in s.buying.claims
    ensures c.digest in s.buying.digests && s.buying.claims[c] == 1
    ensures forall d :: d in s.buying.claims && d.digest == c.digest ==> d == c
    ensures forall x :: x in s.buying.credits ==> x.digest != c.digest
  {
    hide UnitsSound, FiatSound, StacksDelivered, B.Exclusive, B.Conserved, B.Funded, B.Genuine;
    ReachableIsSound(chain, s);
    B.ClaimIsSole(s.buying, c);
  }

  /** Whoever paid for a stack got one of their own. */
  lemma PurchasesDelivered(chain: B.Chain, t: State)
    requires Reachable(chain, t)
    ensures StacksDelivered(t.buying.bought, t.units.db.stacks.Keys)
  {
    hide UnitsSound, BuyingSound, FiatSound, StacksDelivered;
    ReachableIsSound(chain, t);
  }

  /** A user's debits and reservations exceed their funds by no more than their settlements
      exceeded the estimates. */
  lemma FiatNeverOverdrawn(chain: B.Chain, t: State, user: UserId)
    requires Reachable(chain, t)
    ensures F.RowOf(t.fiat, user).Taken() <= F.RowOf(t.fiat, user).usd + SumSeq(t.fiat.log, F.OverrunOf(user))
  {
    hide UnitsSound, BuyingSound, StacksDelivered, F.Known, F.Grouped, F.Shown, F.Counted;
    ReachableIsSound(chain, t);
    assert F.Within(F.RowOf(t.fiat, user), t.fiat.log, user);
  }

  /** The debits of a user are the sums over their usage rows plus the amounts of settlements
      without output tokens. */
  lemma DebitsAreShown(chain: B.Chain, t: State, user: UserId, kind: F.Kind)
    requires Reachable(chain, t)
    ensures F.DebitedIn(F.RowOf(t.fiat, user), kind)
         == SumMap(t.fiat.tables.usage, F.UsageOf(user, kind)) + SumSeq(t.fiat.log, F.UnrecordedOf(user, kind))
  {
    hide UnitsSound, BuyingSound, StacksDelivered, F.Known, F.Safe, F.Grouped, F.Counted;
    ReachableIsSound(chain, t);
    assert F.DebitedIn(F.RowOf(t.fiat, user), kind) == F.Used(t.fiat.tables.usage, t.fiat.log, user, kind);
  }

  /** Every usage row is the group-by sum of the settlements handled, and the number of
      requests of a user counts those that cost something on output. */
  lemma UsageIsGrouped(chain: B.Chain, t: State, user: UserId, key: F.UsageKey, field: F.Field)
    requires Reachable(chain, t)
    ensures F.UsageIn(F.UsageAt(t.fiat.tables.usage, key), field) == SumSeq(t.fiat.log, F.RecordedIn(key, field))
    ensures F.RowOf(t.fiat, user).requests == SumSeq(t.fiat.log, F.CountedFor(user))
  {
    hide UnitsSound, BuyingSound, StacksDelivered, F.Known, F.Safe, F.Shown;
    ReachableIsSound(chain, t);
    assert F.Grouped(t.fiat) && F.Counted(t.fiat);
  }

  // ---------------------------------------------------------------- whose stack a step may touch

  /** The locked units of a stack change only when an event for it is handled, or when a request
      reserves units on it.  The three statements that name a user reserve on stacks of that
      user that are neither claimed nor closed by `lock_stack`; the other two name the stack. */
  lemma OnlyItsUserReserves(chain: B.Chain, s: State, a: Action, id: StackId)
    requires Can(s, a) && id in s.units.db.stacks
    requires U.Locked(Step(chain, s, a).units, id) != U.Locked(s.units, id)
    ensures (a.Handle? && s.queue[0].UpdateStackNumTokens? && s.queue[0].stack == id)
            || (a.Units? && a.unit.Reserve? && a.unit.id == id)
    ensures a.Units? ==>
              var q, row := a.unit.q, s.units.db.stacks[id];
              && (q.ForModel? || q.ForTask? || q.ForEncryption? ==> row.user == q.user && !row.isClaimed && !row.isLocked)
              && (q.ForModel? || q.ForTask? || q.OwnedBy? ==> !row.inSettlePeriod)
              && (q.ForTask? ==> row.task == q.task)
              && (q.ForModel? || q.ForEncryption? ==> row.task in s.units.db.tasks && s.units.db.tasks[row.task].model == q.model)
              && (q.OwnedBy? ==> row.owner == q.owner && q.stack == id)
              && (q.LockUnits? ==> q.stack == id)
  {
    match a
    case Units(unit) =>
      U.StepLocks(s.units, unit, id);
      if unit.Reserve? {
        assert Matches(s.units.db, unit.q, unit.id);
      }
      hide U.Apply;
    case Record(pid) => hide B.Records;
    case Buying(_) =>
    case Fiat(_) =>
    case Handle(_) =>
  }

  /** A stack that was just bought is open: once it is recorded, its user can reserve what its
      buyer has left of it. */
  lemma BoughtStackIsOpen(chain: B.Chain, s: State, pid: B.Pid, units: int)
    requires Can(s, Record(pid))
    requires var p := s.buying.purchases[pid];
             p.phase.id !in s.units.db.stacks && p.units <= p.phase.created.size
    ensures var p, v := s.buying.purchases[pid], Step(chain, s, Record(pid));
            && v.buying.purchases[pid].phase.Over?
            && (units <= p.phase.created.size - p.units <==>
                  Can(v, Units(U.Reserve(ForTask(p.phase.created.task, units, p.user), p.phase.id))))
  {
  }

  // ---------------------------------------------------------------- runs without fiat overflow

  predicate ExactFiat(a: Action) {
    a.Fiat? && a.fiat.LockFiat? ==> a.fiat.r.Exact()
  }

  lemma StepKeepsReconciled(chain: B.Chain, s: State, a: Action)
    requires F.AllExact(s.fiat) && F.Reconciled(s.fiat, s.queue) && F.Known(s.fiat, s.queue) && Can(s, a) && ExactFiat(a)
    ensures F.AllExact(Step(chain, s, a).fiat) && F.Reconciled(Step(chain, s, a).fiat, Step(chain, s, a).queue)
  {
    match a
    case Units(unit) =>
      SentByUnits(s.units, unit);
      OthersKeepReconciled(s.fiat, s.queue, U.Apply(s.units, unit).sent);
      hide U.Apply, F.Reconciled, F.AllExact;
    case Buying(buy) =>
      SentByBuying(chain, s.buying, buy);
      OthersKeepReconciled(s.fiat, s.queue, B.ApplyBuy(chain, s.buying, buy).sent);
      hide B.ApplyBuy, F.Reconciled, F.AllExact;
    case Fiat(fiat) =>
      F.StepKeepsReconciled(s.fiat, s.queue, fiat);
      F.StepKeepsExact(s.fiat, fiat);
      hide F.ApplyFiat, F.Reconciled, F.AllExact;
    case Record(_) =>
      hide U.Buy, F.Reconciled, F.AllExact;
    case Handle(day) =>
      F.ConsumeKeepsReconciled(s.fiat, s.queue, day);
      hide U.Consume, B.ConsumeTopUp, F.Reconciled;
  }

  lemma OthersKeepReconciled(f: F.FiatState, queue: seq<Event>, sent: seq<Event>)
    requires F.Reconciled(f, queue) && |sent| <= 1 && forall e :: e in sent ==> !e.UpdateStackNumTokensFiat?
    ensures F.Reconciled(f, queue + sent)
  {
    if sent == [] {
      assert queue + sent == queue;
    } else {
      assert sent == [sent[0]];
      F.OtherEventsKeepReconciled(f, queue, sent[0]);
      hide F.Reconciled;
    }
  }

  lemma {:induction false} RunKeepsReconciled(chain: B.Chain, s: State, actions: seq<Action>)
    requires Start(s) && Run(chain, s, actions).Some? && forall a :: a in actions ==> ExactFiat(a)
    ensures F.AllExact(Run(chain, s, actions).value.fiat)
    ensures F.Reconciled(Run(chain, s, actions).value.fiat, Run(chain, s, actions).value.queue)
  {
    if actions == [] {
      StartIsReconciled(s);
    } else {
      var n := |actions| - 1;
      RunKeepsReconciled(chain, s, actions[..n]);
      EveryRunIsSound(chain, s, actions[..n]);
      assert F.Known(Run(chain, s, actions[..n]).value.fiat, Run(chain, s, actions[..n]).value.queue);
      hide ExactFiat, Start, Step, Can, Sound, F.AllExact, F.Reconciled, F.Known;
      StepKeepsReconciled(chain, Run(chain, s, actions[..n]).value, actions[n]);
    }
  }

  lemma StartIsReconciled(s: State)
    requires Start(s)
    ensures F.AllExact(s.fiat) && F.Reconciled(s.fiat, s.queue)
  {
    forall user: UserId, kind: F.Kind
      ensures F.ReservedIn(F.RowOf(s.fiat, user), kind) == F.Unsettled(s.fiat.inFlight, s.fiat.stranded, s.queue, user, kind)
    {
    }
  }

  /** When no reservation overflows, the reserved amounts of a user are the sums of the
      estimates that are not settled yet. */
  lemma ReservedIsUnsettled(chain: B.Chain, t: State, user: UserId, kind: F.Kind)
    requires ReachableBy(chain, t, ExactFiat)
    ensures F.ReservedIn(F.RowOf(t.fiat, user), kind)
         == SumBag(t.fiat.inFlight, F.EstimateOf(user, kind)) + SumSeq(t.fiat.stranded, F.EstimateOf(user, kind))
            + SumSeq(t.queue, F.EstimateIn(user, kind))
  {
    hide ExactFiat, Start, F.Reconciled, F.AllExact;
    var s, actions :| Start(s) && Run(chain, s, actions) == Some(t) && forall a :: a in actions ==> ExactFiat(a);
    RunKeepsReconciled(chain, s, actions);
    ReconciledFor(t.fiat, t.queue, user, kind);
  }

  lemma ReconciledFor(f: F.FiatState, queue: seq<Event>, user: UserId, kind: F.Kind)
    requires F.Reconciled(f, queue)
    ensures F.ReservedIn(F.RowOf(f, user), kind)
         == SumBag(f.inFlight, F.EstimateOf(user, kind)) + SumSeq(f.stranded, F.EstimateOf(user, kind)) + SumSeq(queue, F.EstimateIn(user, kind))
  {
    assert F.ReservedIn(F.RowOf(f, user), kind) == F.Unsettled(f.inFlight, f.stranded, queue, user, kind);
  }
}
