/** What requests bill is what the tables show: over every run, the counters of a stack and the
    debits of a user are the sums over the requests that finished. */
module Billing {
  import opened Base
  import opened Events
  import opened StackTable
  import opened Ledgers
  import opened LockedUnits
  import U = UnitProtocol
  import B = Purchase
  import F = Fiat

  /** Events that do not concern a sum leave it alone. */
  lemma ForeignEvents(queue: seq<Event>, sent: seq<Event>, f: Event -> int)
    requires forall e :: e in sent ==> f(e) == 0
    ensures SumSeq(queue + sent, f) == SumSeq(queue, f)
  {
    SumSeqConcat(queue, sent, f);
    SumSeqZeroIff(sent, f);
  }

  // ---------------------------------------------------------------- compute units

  function FinishedBy(id: StackId, c: U.Counter): Action -> int {
    (a: Action) => if a.Units? then U.FinishedOn(id, c)(a.unit) else 0
  }

  lemma StepBills(chain: B.Chain, s: State, a: Action, id: StackId, c: U.Counter)
    requires Can(s, a)
    ensures U.BilledOn(Step(chain, s, a).units, Step(chain, s, a).queue, id, c)
         == U.BilledOn(s.units, s.queue, id, c) + FinishedBy(id, c)(a)
  {
    match a
    case Units(unit) =>
      U.StepBills(s.units, s.queue, unit, id, c);
    case Buying(buy) =>
      SentByBuying(chain, s.buying, buy);
      ForeignEvents(s.queue, B.ApplyBuy(chain, s.buying, buy).sent, U.QueuedOn(id, c));
    case Fiat(fiat) =>
      SentByFiat(s.fiat, fiat);
      ForeignEvents(s.queue, F.ApplyFiat(s.fiat, fiat).sent, U.QueuedOn(id, c));
    case Record(pid) =>
      var p := s.buying.purchases[pid];
      if U.Buy(s.units, p.phase.id, p.phase.created, p.user, BuyersRequest(p)).Ok? {
        U.BuyBillsNothing(s.units, s.queue, p.phase.id, p.phase.created, p.user, BuyersRequest(p), id, c);
      }
      hide U.Buy, U.BilledOn;
    case Handle(_) =>
      U.ConsumeBillsOn(s.units, s.queue, id, c);
      hide U.Consume, U.BilledOn;
  }

  lemma {:induction false} RunBills(chain: B.Chain, s: State, actions: seq<Action>, id: StackId, c: U.Counter)
    requires Start(s) && Run(chain, s, actions).Some?
    ensures var t := Run(chain, s, actions).value;
            U.BilledOn(t.units, t.queue, id, c) == SumSeq(actions, FinishedBy(id, c))
  {
    if actions != [] {
      var n := |actions| - 1;
      RunBills(chain, s, actions[..n], id, c);
      hide Start, Step, Can, U.BilledOn;
      StepBills(chain, Run(chain, s, actions[..n]).value, actions[n], id, c);
    }
  }

  /** After any run, what a stack's counter shows, what is queued for it and what the table
      refused add up to what the requests that finished on it have billed. */
  lemma EveryBillArrives(chain: B.Chain, s: State, actions: seq<Action>, t: State, id: StackId, c: U.Counter)
    requires Start(s) && Run(chain, s, actions) == Some(t)
    ensures U.CounterOf(t.units, id, c) + SumSeq(t.queue, U.QueuedOn(id, c)) + SumSeq(t.units.losses, U.RefusedOn(id, c))
         == SumSeq(actions, FinishedBy(id, c))
  {
    hide Start;
    RunBills(chain, s, actions, id, c);
  }

  /** Without overruns, and once nothing is queued for the stack, it shows exactly that. */
  lemma QuietStackShowsBills(chain: B.Chain, s: State, actions: seq<Action>, t: State, id: StackId, c: U.Counter)
    requires Start(s) && Run(chain, s, actions) == Some(t) && forall a :: a in actions ==> Frugal(a)
    requires forall e :: e in t.queue && e.UpdateStackNumTokens? ==> e.stack != id
    ensures U.CounterOf(t.units, id, c) == SumSeq(actions, FinishedBy(id, c))
  {
    hide Start, Frugal;
    EveryBillArrives(chain, s, actions, t, id, c);
    RunKeepsWithinEstimates(chain, s, actions);
    SumSeqZeroIff(t.queue, U.QueuedOn(id, c));
    SumSeqZeroIff(t.units.losses, U.RefusedOn(id, c));
  }

  // ---------------------------------------------------------------- fiat

  function ChargedBy(user: UserId, kind: F.Kind): Action -> int {
    (a: Action) => if a.Fiat? then F.BilledTo(user, kind)(a.fiat) else 0
  }

  function FundedBy(user: UserId): Action -> int {
    (a: Action) => if a.Fiat? then F.FundsFor(user)(a.fiat) else 0
  }

  /** Token counts and prices of the settlements are non-negative i64s. */
  predicate Priced(a: Action) {
    a.Fiat? ==> F.Priced(a.fiat)
  }

  lemma StepCharges(chain: B.Chain, s: State, a: Action, user: UserId, kind: F.Kind)
    requires Can(s, a) && Priced(a) && F.Known(s.fiat, s.queue)
    ensures F.Charged(Step(chain, s, a).fiat, Step(chain, s, a).queue, user, kind)
         == F.Charged(s.fiat, s.queue, user, kind) + ChargedBy(user, kind)(a)
  {
    match a
    case Units(unit) =>
      SentByUnits(s.units, unit);
      ForeignEvents(s.queue, U.Apply(s.units, unit).sent, F.AmountIn(user, kind));
    case Buying(buy) =>
      SentByBuying(chain, s.buying, buy);
      ForeignEvents(s.queue, B.ApplyBuy(chain, s.buying, buy).sent, F.AmountIn(user, kind));
    case Fiat(fiat) =>
      F.StepCharges(s.fiat, s.queue, fiat, user, kind);
    case Record(_) =>
    case Handle(day) =>
      F.ConsumeCharges(s.fiat, s.queue, day, user, kind);
      hide F.ConsumeFiat, F.Charged;
  }

  lemma UsersAreKnown(chain: B.Chain, s: State, actions: seq<Action>)
    requires Start(s) && Run(chain, s, actions).Some?
    ensures F.Known(Run(chain, s, actions).value.fiat, Run(chain, s, actions).value.queue)
  {
    hide Start, Run, UnitsSound, BuyingSound, StacksDelivered, F.Known, F.Safe, F.Grouped, F.Shown, F.Counted;
    EveryRunIsSound(chain, s, actions);
  }

  lemma {:induction false} RunCharges(chain: B.Chain, s: State, actions: seq<Action>, user: UserId, kind: F.Kind)
    requires Start(s) && Run(chain, s, actions).Some? && forall a :: a in actions ==> Priced(a)
    ensures var t := Run(chain, s, actions).value;
            F.Charged(t.fiat, t.queue, user, kind) == SumSeq(actions, ChargedBy(user, kind))
  {
    if actions != [] {
      var n := |actions| - 1;
      RunCharges(chain, s, actions[..n], user, kind);
      hide Start, Step, Can, Priced, F.Known, F.Charged;
      UsersAreKnown(chain, s, actions[..n]);
      StepCharges(chain, Run(chain, s, actions[..n]).value, actions[n], user, kind);
    }
  }

  /** After any run, a user's debits and the queued amounts add up to the tokens their requests
      used, input at the input price and output at the output price, settlement by settlement. */
  lemma DebitsAreTokensUsed(chain: B.Chain, s: State, actions: seq<Action>, t: State, user: UserId, kind: F.Kind)
    requires Start(s) && Run(chain, s, actions) == Some(t) && forall a :: a in actions ==> Priced(a)
    ensures F.DebitedIn(F.RowOf(t.fiat, user), kind) + SumSeq(t.queue, F.AmountIn(user, kind))
         == SumSeq(actions, ChargedBy(user, kind))
  {
    hide Start, Priced;
    RunCharges(chain, s, actions, user, kind);
  }

  lemma StepFunds(chain: B.Chain, s: State, a: Action, user: UserId)
    requires Can(s, a)
    ensures F.RowOf(Step(chain, s, a).fiat, user).usd == F.RowOf(s.fiat, user).usd + FundedBy(user)(a)
  {
    match a
    case Units(_) =>
    case Buying(_) =>
    case Fiat(fiat) => F.StepFunds(s.fiat, fiat, user);
    case Record(_) =>
    case Handle(day) =>
      F.ConsumeKeepsFunds(s.fiat, day, s.queue[0], user);
  }

  /** A settlement with output tokens goes to the usage row of its user, its model and the day it
      is handled, and to no other. */
  lemma UsageIsFiledUnderDay(chain: B.Chain, t: State, day: F.Day, key: F.UsageKey)
    requires Reachable(chain, t) && t.queue != [] && t.queue[0].UpdateStackNumTokensFiat?
    ensures var e := t.queue[0];
            var before, after := F.UsageAt(t.fiat.tables.usage, key), F.UsageAt(Step(chain, t, Handle(day)).fiat.tables.usage, key);
            if e.outputTokens > 0 && key.user == e.user && key.model == e.model && key.day == day then
              after == F.Usage(before.input + e.input, before.inputTokens + e.inputTokens, before.output + e.output, before.outputTokens + e.outputTokens)
            else after == before
  {
    hide Reachable, UnitsSound, BuyingSound, StacksDelivered, F.Safe, F.Grouped, F.Shown, F.Counted;
    ReachableIsSound(chain, t);
    assert t.queue[0] in t.queue;
    hide U.Consume, B.ConsumeTopUp;
  }

  /** A user's funds are what was paid in: neither reservations nor settlements touch them. */
  lemma {:induction false} FundsArePaidIn(chain: B.Chain, s: State, actions: seq<Action>, user: UserId)
    requires Start(s) && Run(chain, s, actions).Some?
    ensures F.RowOf(Run(chain, s, actions).value.fiat, user).usd == SumSeq(actions, FundedBy(user))
  {
    if actions != [] {
      var n := |actions| - 1;
      FundsArePaidIn(chain, s, actions[..n], user);
      hide Start, Step, Can, F.RowOf;
      StepFunds(chain, Run(chain, s, actions[..n]).value, actions[n], user);
    }
  }

  /** A reservation is granted exactly when the user's funds cover its price on top of what they
      were debited and what their other requests may still cost. */
  lemma FiatGrantedIff(chain: B.Chain, t: State, r: F.FiatRequest)
    requires ReachableBy(chain, t, ExactFiat) && r.Exact()
    ensures var row := F.RowOf(t.fiat, r.user);
            Step(chain, t, Fiat(F.LockFiat(r))).fiat.inFlight == t.fiat.inFlight + multiset{r} <==>
              && r.user in t.fiat.tables.rows
              && row.debitedInput + row.debitedOutput
                 + F.Unsettled(t.fiat.inFlight, t.fiat.stranded, t.queue, r.user, F.Input)
                 + F.Unsettled(t.fiat.inFlight, t.fiat.stranded, t.queue, r.user, F.Output)
                 + r.inputTokens * r.inputPrice / F.ONE_MILLION + r.outputTokens * r.outputPrice / F.ONE_MILLION
                 <= row.usd
  {
    hide ExactFiat, Start, F.Reconciled, F.AllExact, F.Unsettled;
    var s, actions :| Start(s) && Run(chain, s, actions) == Some(t) && forall a :: a in actions ==> ExactFiat(a);
    RunKeepsReconciled(chain, s, actions);
    F.GrantedIff(t.fiat, t.queue, r);
    hide Run;
  }
}
