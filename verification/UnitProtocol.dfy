/** Compute units under interleaving: requests reserve units on stacks, confidential requests
    park them in expiry heaps, and settlements reach the table later through the event queue.

    A step is one atomic action of one component: one SQL statement, one operation on a heap
    entry, one send.  `Consume` is the state manager taking an event off the queue. */
module UnitProtocol {
  import opened Base
  import opened Events
  import opened StackTable
  import opened LockHeaps

  /** Units reserved for a lock when a stack has to be bought for it, whatever the caller asked. */
  const MAX_NUM_TOKENS_FOR_CONFIDENTIAL_COMPUTE := 8192

  /** Where a request that holds units stands.  `Parking` is a lock request between its
      reservation and its push; `bought` if its stack was bought for it. */
  datatype Stage = Direct | Confidential | Parking(maxNumTokens: int, bought: bool)

  datatype Request = Request(stack: StackId, units: int, stage: Stage)

  /** Units that stay locked in the table although nothing holds them any more (negative when
      more is going to be released than was reserved), and why. */
  datatype Loss = Loss(stack: StackId, units: int, cause: Cause)

  datatype Cause =
    | ParkedOtherAmount   // the lock pushed differs from the units reserved for it
    | TookLargerLock      // a confidential request consumed a lock larger than it needs
    | ReportedLess        // the settlement names a smaller estimate than was reserved
    | NeverParked         // a lock request failed after its stack was bought
    | SettlementRefused(total: int)   // the table refused a settlement of that total

  /** An entry of the expiry heap of a stack. */
  datatype Parked = Parked(stack: StackId, lock: Lock)

  datatype UnitState = UnitState(
    db: Db,
    parked: multiset<Parked>,
    inFlight: multiset<Request>,
    losses: seq<Loss>,
    settled: seq<Event>)

  datatype Action =
    | Reserve(q: Query, id: StackId)
    | Park(r: Request, expiresAt: Instant)
    | GiveUp(r: Request)
    | Prune(id: StackId, lock: Lock, now: Instant)
    | Take(id: StackId, lock: Lock, need: int, now: Instant)
    | Finish(r: Request, reported: int, total: int)
    | Administer(db: Db)

  predicate Enabled(u: UnitState, a: Action) {
    match a
    case Reserve(q, id) => Matches(u.db, q, id)
    case Park(r, _) => r in u.inFlight && r.stage.Parking?
    case GiveUp(r) => r in u.inFlight && r.stage.Parking? && r.stage.bought
    case Prune(id, lock, now) =>
      && Parked(id, lock) in u.parked && Expired(lock, now)
      && forall p :: p in u.parked && p.stack == id ==> Before(lock, p.lock)
    case Take(id, lock, need, now) =>
      && Parked(id, lock) in u.parked && lock.units >= need
      && forall p :: p in u.parked && p.stack == id ==> !Expired(p.lock, now)
    case Finish(r, reported, total) =>
      && r in u.inFlight && !r.stage.Parking?
      && (reported == r.units || (r.stage.Confidential? && reported == 0))
    case Administer(db) => SameUnits(u.db, db)
  }

  /** Flags, tasks, tickets and keys may change at any time; the unit counters do not. */
  predicate SameUnits(a: Db, b: Db) {
    && a.stacks.Keys == b.stacks.Keys
    && forall id :: id in a.stacks ==>
         && a.stacks[id].size == b.stacks[id].size
         && a.stacks[id].computed == b.stacks[id].computed
         && a.stacks[id].locked == b.stacks[id].locked
         && a.stacks[id].messages == b.stacks[id].messages
  }

  datatype Outcome = Outcome(state: UnitState, sent: seq<Event>)

  function Apply(u: UnitState, a: Action): Outcome
    requires Enabled(u, a)
  {
    match a
    case Reserve(q, id) => Reserving(u, q, id)
    case Park(r, expiresAt) => Parks(u, r, expiresAt)
    case GiveUp(r) => GivesUp(u, r)
    case Prune(id, lock, _) => Prunes(u, id, lock)
    case Take(id, lock, need, _) => Takes(u, id, lock, need)
    case Finish(r, reported, total) => Finishes(u, r, reported, total)
    case Administer(db) => Outcome(u.(db := db), [])
  }

  function Reserving(u: UnitState, q: Query, id: StackId): Outcome
    requires id in u.db.stacks
  {
    var stage := if q.ForEncryption? then Parking(q.units, false) else Direct;
    Outcome(u.(db := StackTable.Reserve(u.db, id, q.units),
               inFlight := u.inFlight + multiset{Request(id, q.units, stage)}), [])
  }

  function Parks(u: UnitState, r: Request, expiresAt: Instant): Outcome
    requires r.stage.Parking?
  {
    var lock := Lock(expiresAt, r.stage.maxNumTokens);
    Outcome(u.(parked := u.parked + multiset{Parked(r.stack, lock)},
               inFlight := u.inFlight - multiset{r},
               losses := u.losses + [Loss(r.stack, r.units - lock.units, ParkedOtherAmount)]), [])
  }

  function GivesUp(u: UnitState, r: Request): Outcome {
    Outcome(u.(inFlight := u.inFlight - multiset{r},
               losses := u.losses + [Loss(r.stack, r.units, NeverParked)]), [])
  }

  function Prunes(u: UnitState, id: StackId, lock: Lock): Outcome {
    Outcome(u.(parked := u.parked - multiset{Parked(id, lock)}),
            [UpdateStackNumTokens(id, lock.units, 0)])
  }

  function Takes(u: UnitState, id: StackId, lock: Lock, need: int): Outcome {
    Outcome(u.(parked := u.parked - multiset{Parked(id, lock)},
               inFlight := u.inFlight + multiset{Request(id, need, Confidential)},
               losses := u.losses + [Loss(id, lock.units - need, TookLargerLock)]), [])
  }

  function Finishes(u: UnitState, r: Request, reported: int, total: int): Outcome {
    Outcome(u.(inFlight := u.inFlight - multiset{r},
               losses := u.losses + [Loss(r.stack, r.units - reported, ReportedLess)]),
            [UpdateStackNumTokens(r.stack, reported, total)])
  }

  /** The state manager handles an event; a refused statement is logged and forgotten. */
  function Consume(u: UnitState, e: Event): UnitState {
    if e.UpdateStackNumTokens? then
      match StackTable.Settle(u.db, e.stack, e.estimated, e.total)
      case Ok(db) => u.(db := db, settled := u.settled + [e])
      case Err(_) => u.(losses := u.losses + [Loss(e.stack, e.estimated, SettlementRefused(e.total))])
    else u
  }

  /** A bought stack is recorded with the units of its buyer already locked. */
  function Buy(u: UnitState, id: StackId, created: Stack, user: UserId, r: Request): Result<UnitState, DbError>
  {
    match Insert(u.db, id, NewStack(created, user, r.units))
    case Ok(db) => Ok(u.(db := db, inFlight := u.inFlight + multiset{r}))
    case Err(e) => Err(e)
  }

  // ---------------------------------------------------------------- accounting

  function UnitsOn(id: StackId): Request -> int {
    (r: Request) => if r.stack == id then r.units else 0
  }

  function ParkedOn(id: StackId): Parked -> int {
    (p: Parked) => if p.stack == id then p.lock.units else 0
  }

  function EstimatedOn(id: StackId): Event -> int {
    (e: Event) => if e.UpdateStackNumTokens? && e.stack == id then e.estimated else 0
  }

  function LostOn(id: StackId): Loss -> int {
    (l: Loss) => if l.stack == id then l.units else 0
  }

  function Locked(u: UnitState, id: StackId): int {
    if id in u.db.stacks then u.db.stacks[id].locked else 0
  }

  /** Units in flight, parked, on their way to the table, and stranded. */
  ghost function Total(inFlight: multiset<Request>, parked: multiset<Parked>, queue: seq<Event>, losses: seq<Loss>, id: StackId): int {
    SumBag(inFlight, UnitsOn(id)) + SumBag(parked, ParkedOn(id)) + SumSeq(queue, EstimatedOn(id)) + SumSeq(losses, LostOn(id))
  }

  ghost function Held(u: UnitState, queue: seq<Event>, id: StackId): int {
    Total(u.inFlight, u.parked, queue, u.losses, id)
  }

  ghost predicate Balanced(u: UnitState, queue: seq<Event>) {
    forall id: StackId {:trigger Held(u, queue, id)} :: Locked(u, id) == Held(u, queue, id)
  }

  /** Every step moves units between the four places they can be in; none is made or lost. */
  lemma StepKeepsBalance(u: UnitState, queue: seq<Event>, a: Action)
    requires Balanced(u, queue) && Enabled(u, a)
    ensures Balanced(Apply(u, a).state, queue + Apply(u, a).sent)
  {
    var v, sent := Apply(u, a).state, Apply(u, a).sent;
    forall id: StackId
      ensures Locked(v, id) == Held(v, queue + sent, id)
    {
      assert Locked(u, id) == Held(u, queue, id);
      hide Apply, Enabled, Locked, Held;
      StepHolds(u, queue, a, id);
      StepLocks(u, a, id);
    }
  }

  /** A step changes what is held on a stack by what it adds to the locked units of its row. */
  lemma StepHolds(u: UnitState, queue: seq<Event>, a: Action, id: StackId)
    requires Enabled(u, a)
    ensures HoldsMore(u, queue, Apply(u, a), id, if a.Reserve? && a.id == id then a.q.units else 0)
  {
    match a
    case Reserve(q, k) =>
      assert Matches(u.db, q, k);
      ReserveHolds(u, queue, q, k, id);
    case Park(r, expiresAt) => ParkHolds(u, queue, r, expiresAt, id);
    case GiveUp(r) => GiveUpHolds(u, queue, r, id);
    case Prune(k, lock, _) => PruneHolds(u, queue, k, lock, id);
    case Take(k, lock, need, _) => TakeHolds(u, queue, k, lock, need, id);
    case Finish(r, reported, total) => FinishHolds(u, queue, r, reported, total, id);
    case Administer(_) => assert queue + [] == queue;
  }

  ghost predicate HoldsMore(u: UnitState, queue: seq<Event>, o: Outcome, id: StackId, units: int) {
    Held(o.state, queue + o.sent, id) == Held(u, queue, id) + units
  }

  lemma ReserveHolds(u: UnitState, queue: seq<Event>, q: Query, k: StackId, id: StackId)
    requires k in u.db.stacks
    ensures HoldsMore(u, queue, Reserving(u, q, k), id, if k == id then q.units else 0)
  {
    hide SumBag, SumSeq;
    var r := Request(k, q.units, if q.ForEncryption? then Parking(q.units, false) else Direct);
    SumBagAdd(u.inFlight, r, UnitsOn(id));
    assert queue + [] == queue;
  }

  lemma ParkHolds(u: UnitState, queue: seq<Event>, r: Request, expiresAt: Instant, id: StackId)
    requires r in u.inFlight && r.stage.Parking?
    ensures HoldsMore(u, queue, Parks(u, r, expiresAt), id, 0)
  {
    hide SumBag, SumSeq;
    var lock := Lock(expiresAt, r.stage.maxNumTokens);
    SumBagRemove(u.inFlight, r, UnitsOn(id));
    SumBagAdd(u.parked, Parked(r.stack, lock), ParkedOn(id));
    SumSeqPush(u.losses, Loss(r.stack, r.units - lock.units, ParkedOtherAmount), LostOn(id));
    assert queue + [] == queue;
  }

  lemma GiveUpHolds(u: UnitState, queue: seq<Event>, r: Request, id: StackId)
    requires r in u.inFlight
    ensures HoldsMore(u, queue, GivesUp(u, r), id, 0)
  {
    hide SumBag, SumSeq;
    SumBagRemove(u.inFlight, r, UnitsOn(id));
    SumSeqPush(u.losses, Loss(r.stack, r.units, NeverParked), LostOn(id));
    assert queue + [] == queue;
  }

  lemma PruneHolds(u: UnitState, queue: seq<Event>, k: StackId, lock: Lock, id: StackId)
    requires Parked(k, lock) in u.parked
    ensures HoldsMore(u, queue, Prunes(u, k, lock), id, 0)
  {
    hide SumBag, SumSeq;
    SumBagRemove(u.parked, Parked(k, lock), ParkedOn(id));
    SumSeqPush(queue, UpdateStackNumTokens(k, lock.units, 0), EstimatedOn(id));
  }

  lemma TakeHolds(u: UnitState, queue: seq<Event>, k: StackId, lock: Lock, need: int, id: StackId)
    requires Parked(k, lock) in u.parked
    ensures HoldsMore(u, queue, Takes(u, k, lock, need), id, 0)
  {
    hide SumBag, SumSeq;
    SumBagRemove(u.parked, Parked(k, lock), ParkedOn(id));
    SumBagAdd(u.inFlight, Request(k, need, Confidential), UnitsOn(id));
    SumSeqPush(u.losses, Loss(k, lock.units - need, TookLargerLock), LostOn(id));
    assert queue + [] == queue;
  }

  lemma FinishHolds(u: UnitState, queue: seq<Event>, r: Request, reported: int, total: int, id: StackId)
    requires r in u.inFlight
    ensures HoldsMore(u, queue, Finishes(u, r, reported, total), id, 0)
  {
    hide SumBag, SumSeq;
    SumBagRemove(u.inFlight, r, UnitsOn(id));
    SumSeqPush(u.losses, Loss(r.stack, r.units - reported, ReportedLess), LostOn(id));
    SumSeqPush(queue, UpdateStackNumTokens(r.stack, reported, total), EstimatedOn(id));
  }

  lemma StepLocks(u: UnitState, a: Action, id: StackId)
    requires Enabled(u, a)
    ensures Locked(Apply(u, a).state, id) == Locked(u, id) + if a.Reserve? && a.id == id then a.q.units else 0
  {
    if a.Reserve? {
      assert Matches(u.db, a.q, a.id);
    }
  }

  lemma ConsumeKeepsBalance(u: UnitState, queue: seq<Event>)
    requires queue != [] && Balanced(u, queue)
    ensures Balanced(Consume(u, queue[0]), queue[1..])
  {
    var e := queue[0];
    var v := Consume(u, e);
    forall id
      ensures Locked(v, id) == Held(v, queue[1..], id)
    {
      assert Locked(u, id) == Held(u, queue, id);
      hide SumBag, SumSeq;
      SumSeqHead(queue, EstimatedOn(id));
      if e.UpdateStackNumTokens? {
        SumSeqPush(u.losses, Loss(e.stack, e.estimated, SettlementRefused(e.total)), LostOn(id));
      }
    }
  }

  lemma BuyKeepsBalance(u: UnitState, queue: seq<Event>, id: StackId, created: Stack, user: UserId, r: Request)
    requires Balanced(u, queue) && r.stack == id && Buy(u, id, created, user, r).Ok?
    ensures Balanced(Buy(u, id, created, user, r).value, queue)
  {
    var v := Buy(u, id, created, user, r).value;
    forall k
      ensures Locked(v, k) == Held(v, queue, k)
    {
      assert Locked(u, k) == Held(u, queue, k);
      hide SumBag, SumSeq;
      SumBagAdd(u.inFlight, r, UnitsOn(k));
      assert Locked(v, k) == Locked(u, k) + UnitsOn(k)(r);
    }
  }

  /** Events of the other ledgers do not concern the units. */
  lemma OtherEventsKeepBalance(u: UnitState, queue: seq<Event>, e: Event)
    requires Balanced(u, queue) && !e.UpdateStackNumTokens?
    ensures Balanced(u, queue + [e])
  {
    forall id
      ensures Locked(u, id) == Held(u, queue + [e], id)
    {
      assert Locked(u, id) == Held(u, queue, id);
      SumSeqPush(queue, e, EstimatedOn(id));
    }
  }

  // ---------------------------------------------------------------- computed units

  function TotalOn(id: StackId): Event -> int {
    (e: Event) => if e.UpdateStackNumTokens? && e.stack == id then e.total else 0
  }

  function MessageOn(id: StackId): Event -> int {
    (e: Event) => if e.UpdateStackNumTokens? && e.stack == id && e.total > 0 then 1 else 0
  }

  function Computed(u: UnitState, id: StackId): int {
    if id in u.db.stacks then u.db.stacks[id].computed else 0
  }

  function Messages(u: UnitState, id: StackId): int {
    if id in u.db.stacks then u.db.stacks[id].messages else 0
  }

  /** The computed units of a stack are what the settlements accepted so far have billed, and
      its messages are those that billed something. */
  ghost predicate Billed(u: UnitState) {
    && (forall id: StackId {:trigger SumSeq(u.settled, TotalOn(id))} :: Computed(u, id) == SumSeq(u.settled, TotalOn(id)))
    && (forall id: StackId {:trigger SumSeq(u.settled, MessageOn(id))} :: Messages(u, id) == SumSeq(u.settled, MessageOn(id)))
  }

  lemma StepKeepsBilled(u: UnitState, a: Action)
    requires Billed(u) && Enabled(u, a)
    ensures Billed(Apply(u, a).state)
  {
    var v := Apply(u, a).state;
    StepKeepsCounters(u, a);
    hide Apply, Enabled, Computed, Messages;
    SameCountersKeepBilled(u, v);
  }

  lemma StepKeepsCounters(u: UnitState, a: Action)
    requires Enabled(u, a)
    ensures var v := Apply(u, a).state;
            v.settled == u.settled && forall id :: Computed(v, id) == Computed(u, id) && Messages(v, id) == Messages(u, id)
  {
    if a.Reserve? {
      assert Matches(u.db, a.q, a.id);
    }
  }

  lemma SameCountersKeepBilled(u: UnitState, v: UnitState)
    requires Billed(u) && v.settled == u.settled
    requires forall id :: Computed(v, id) == Computed(u, id) && Messages(v, id) == Messages(u, id)
    ensures Billed(v)
  {
    forall id
      ensures Computed(v, id) == SumSeq(v.settled, TotalOn(id)) && Messages(v, id) == SumSeq(v.settled, MessageOn(id))
    {
      assert Computed(u, id) == SumSeq(u.settled, TotalOn(id)) && Messages(u, id) == SumSeq(u.settled, MessageOn(id));
    }
  }

  lemma ConsumeKeepsBilled(u: UnitState, e: Event)
    requires Billed(u)
    ensures Billed(Consume(u, e))
  {
    var v := Consume(u, e);
    forall id
      ensures Computed(v, id) == SumSeq(v.settled, TotalOn(id)) && Messages(v, id) == SumSeq(v.settled, MessageOn(id))
    {
      assert Computed(u, id) == SumSeq(u.settled, TotalOn(id)) && Messages(u, id) == SumSeq(u.settled, MessageOn(id));
      ConsumeBills(u, e, id);
    }
  }

  lemma ConsumeBills(u: UnitState, e: Event, id: StackId)
    ensures var v := Consume(u, e);
            && Computed(v, id) - Computed(u, id) == SumSeq(v.settled, TotalOn(id)) - SumSeq(u.settled, TotalOn(id))
            && Messages(v, id) - Messages(u, id) == SumSeq(v.settled, MessageOn(id)) - SumSeq(u.settled, MessageOn(id))
  {
    hide SumSeq;
    SumSeqPush(u.settled, e, TotalOn(id));
    SumSeqPush(u.settled, e, MessageOn(id));
  }

  lemma BuyKeepsBilled(u: UnitState, id: StackId, created: Stack, user: UserId, r: Request)
    requires Billed(u) && Buy(u, id, created, user, r).Ok?
    ensures Billed(Buy(u, id, created, user, r).value)
  {
    SameCountersKeepBilled(u, Buy(u, id, created, user, r).value);
  }

  // ---------------------------------------------------------------- what requests bill arrives

  datatype Counter = ComputedUnits | MessageCount

  /** What a settlement of `total` units adds to a counter. */
  function Bills(total: int, c: Counter): int {
    match c
    case ComputedUnits => total
    case MessageCount => if total > 0 then 1 else 0
  }

  function CounterOf(u: UnitState, id: StackId, c: Counter): int {
    if c.ComputedUnits? then Computed(u, id) else Messages(u, id)
  }

  function QueuedOn(id: StackId, c: Counter): Event -> int {
    (e: Event) => if e.UpdateStackNumTokens? && e.stack == id then Bills(e.total, c) else 0
  }

  function RefusedOn(id: StackId, c: Counter): Loss -> int {
    (l: Loss) => if l.cause.SettlementRefused? && l.stack == id then Bills(l.cause.total, c) else 0
  }

  /** What an action bills: only a request that finishes bills anything. */
  function FinishedOn(id: StackId, c: Counter): Action -> int {
    (a: Action) => if a.Finish? && a.r.stack == id then Bills(a.total, c) else 0
  }

  ghost function BilledOn(u: UnitState, queue: seq<Event>, id: StackId, c: Counter): int {
    CounterOf(u, id, c) + SumSeq(queue, QueuedOn(id, c)) + SumSeq(u.losses, RefusedOn(id, c))
  }

  lemma StepBills(u: UnitState, queue: seq<Event>, a: Action, id: StackId, c: Counter)
    requires Enabled(u, a)
    ensures BilledOn(Apply(u, a).state, queue + Apply(u, a).sent, id, c) == BilledOn(u, queue, id, c) + FinishedOn(id, c)(a)
  {
    StepKeepsCounters(u, a);
    StepSends(u, a, id, c);
    StepLoses(u, a, id, c);
    hide SumSeq, Enabled, Apply, Computed, Messages;
    SumSeqConcat(queue, Apply(u, a).sent, QueuedOn(id, c));
  }

  lemma StepSends(u: UnitState, a: Action, id: StackId, c: Counter)
    requires Enabled(u, a)
    ensures SumSeq(Apply(u, a).sent, QueuedOn(id, c)) == FinishedOn(id, c)(a)
  {
    var sent := Apply(u, a).sent;
    if sent != [] {
      assert sent[..0] == [];
      assert SumSeq([], QueuedOn(id, c)) == 0;
    }
  }

  lemma StepLoses(u: UnitState, a: Action, id: StackId, c: Counter)
    requires Enabled(u, a)
    ensures SumSeq(Apply(u, a).state.losses, RefusedOn(id, c)) == SumSeq(u.losses, RefusedOn(id, c))
  {
    var losses := Apply(u, a).state.losses;
    StepLossIsNotRefusal(u, a);
    hide Apply, Enabled;
    if losses != u.losses {
      assert losses[..|losses| - 1] == u.losses;
    }
  }

  lemma StepLossIsNotRefusal(u: UnitState, a: Action)
    requires Enabled(u, a)
    ensures var losses := Apply(u, a).state.losses;
            losses == u.losses
            || (|losses| == |u.losses| + 1 && losses[..|u.losses|] == u.losses && !losses[|u.losses|].cause.SettlementRefused?)
  {
  }

  lemma ConsumeBillsOn(u: UnitState, queue: seq<Event>, id: StackId, c: Counter)
    requires queue != []
    ensures BilledOn(Consume(u, queue[0]), queue[1..], id, c) == BilledOn(u, queue, id, c)
  {
    var e := queue[0];
    hide SumSeq;
    SumSeqHead(queue, QueuedOn(id, c));
    if e.UpdateStackNumTokens? {
      SumSeqPush(u.losses, Loss(e.stack, e.estimated, SettlementRefused(e.total)), RefusedOn(id, c));
    }
  }

  lemma BuyBillsNothing(u: UnitState, queue: seq<Event>, k: StackId, created: Stack, user: UserId, r: Request, id: StackId, c: Counter)
    requires Buy(u, k, created, user, r).Ok?
    ensures BilledOn(Buy(u, k, created, user, r).value, queue, id, c) == BilledOn(u, queue, id, c)
  {
    hide SumSeq;
  }

  // ---------------------------------------------------------------- no stack over-committed

  lemma StepKeepsFit(u: UnitState, a: Action)
    requires AllFit(u.db) && Enabled(u, a)
    ensures AllFit(Apply(u, a).state.db)
  {
    if a.Reserve? {
      ReservationFits(u.db, a.q, a.id);
    }
  }

  lemma ConsumeKeepsFit(u: UnitState, e: Event)
    requires AllFit(u.db)
    ensures AllFit(Consume(u, e).db)
  {
  }

  lemma BuyKeepsFit(u: UnitState, id: StackId, created: Stack, user: UserId, r: Request)
    requires AllFit(u.db) && Buy(u, id, created, user, r).Ok?
    ensures AllFit(Buy(u, id, created, user, r).value.db)
  {
  }

  // ---------------------------------------------------------------- locked units never negative

  /** Nothing holds a negative number of units, and a lock about to be parked is covered by its
      reservation. */
  ghost predicate NonNegative(u: UnitState, queue: seq<Event>) {
    && (forall r :: r in u.inFlight ==> r.units >= 0 && Covered(r))
    && (forall p :: p in u.parked ==> p.lock.units >= 0)
    && (forall e :: e in queue && e.UpdateStackNumTokens? ==> e.estimated >= 0)
    && (forall l :: l in u.losses ==> l.units >= 0)
  }

  predicate Covered(r: Request) {
    r.stage.Parking? ==> 0 <= r.stage.maxNumTokens <= r.units
  }

  /** The unit count of a request arrives as a u64 and is cast to i64, so it is non-negative
      exactly when it is below 2^63. */
  lemma CastIsNonNegativeIff(tokens: int)
    requires IsU64(tokens)
    ensures ToI64(tokens) >= 0 <==> tokens < TWO_63
  {
  }

  predicate AsksNonNegative(a: Action) {
    && (a.Reserve? ==> a.q.units >= 0)
    && (a.Take? ==> a.need >= 0)
  }

  lemma StepKeepsNonNegative(u: UnitState, queue: seq<Event>, a: Action)
    requires NonNegative(u, queue) && Enabled(u, a) && AsksNonNegative(a)
    ensures NonNegative(Apply(u, a).state, queue + Apply(u, a).sent)
  {
    NewRequestsNonNegative(u, queue, a);
    NewEntriesNonNegative(u, queue, a);
    NewLossesNonNegative(u, queue, a);
    NewEventsNonNegative(u, queue, a);
    hide Apply, Enabled;
  }

  lemma NewRequestsNonNegative(u: UnitState, queue: seq<Event>, a: Action)
    requires NonNegative(u, queue) && Enabled(u, a) && AsksNonNegative(a)
    ensures forall r :: r in Apply(u, a).state.inFlight ==> r.units >= 0 && Covered(r)
  {
    if a.Reserve? {
      assert Matches(u.db, a.q, a.id);
    }
  }

  lemma NewEntriesNonNegative(u: UnitState, queue: seq<Event>, a: Action)
    requires NonNegative(u, queue) && Enabled(u, a)
    ensures forall p :: p in Apply(u, a).state.parked ==> p.lock.units >= 0
  {
    if a.Park? {
      assert Covered(a.r);
    }
  }

  lemma NewLossesNonNegative(u: UnitState, queue: seq<Event>, a: Action)
    requires NonNegative(u, queue) && Enabled(u, a)
    ensures forall l :: l in Apply(u, a).state.losses ==> l.units >= 0
  {
    if a.Park? {
      assert Covered(a.r);
    }
  }

  lemma NewEventsNonNegative(u: UnitState, queue: seq<Event>, a: Action)
    requires NonNegative(u, queue) && Enabled(u, a)
    ensures forall e :: e in Apply(u, a).sent && e.UpdateStackNumTokens? ==> e.estimated >= 0
  {
  }

  lemma ConsumeKeepsNonNegative(u: UnitState, queue: seq<Event>)
    requires NonNegative(u, queue) && queue != []
    ensures NonNegative(Consume(u, queue[0]), queue[1..])
  {
    assert queue[0] in queue;
    hide StackTable.Settle;
  }

  lemma BuyKeepsNonNegative(u: UnitState, queue: seq<Event>, id: StackId, created: Stack, user: UserId, r: Request)
    requires NonNegative(u, queue) && r.units >= 0 && Covered(r) && Buy(u, id, created, user, r).Ok?
    ensures NonNegative(Buy(u, id, created, user, r).value, queue)
  {
    hide Insert;
  }

  // ---------------------------------------------------------------- settlements within their estimates

  /** Everything that holds units holds them on a stack of the table. */
  ghost predicate KnownStacks(u: UnitState, queue: seq<Event>) {
    && (forall r :: r in u.inFlight ==> r.stack in u.db.stacks)
    && (forall p :: p in u.parked ==> p.stack in u.db.stacks)
    && (forall e :: e in queue && e.UpdateStackNumTokens? ==> e.stack in u.db.stacks)
  }

  lemma StepKeepsKnownStacks(u: UnitState, queue: seq<Event>, a: Action)
    requires KnownStacks(u, queue) && Enabled(u, a)
    ensures Apply(u, a).state.db.stacks.Keys == u.db.stacks.Keys
    ensures KnownStacks(Apply(u, a).state, queue + Apply(u, a).sent)
  {
    StepKeepsRows(u, a);
    NewRequestsKnown(u, queue, a);
    NewEntriesKnown(u, queue, a);
    NewEventsKnown(u, queue, a);
    hide Apply, Enabled;
  }

  lemma StepKeepsRows(u: UnitState, a: Action)
    requires Enabled(u, a)
    ensures Apply(u, a).state.db.stacks.Keys == u.db.stacks.Keys
  {
    if a.Reserve? {
      assert Matches(u.db, a.q, a.id);
    }
  }

  lemma NewRequestsKnown(u: UnitState, queue: seq<Event>, a: Action)
    requires KnownStacks(u, queue) && Enabled(u, a)
    ensures forall r :: r in Apply(u, a).state.inFlight ==> r.stack in u.db.stacks
  {
    if a.Reserve? {
      assert Matches(u.db, a.q, a.id);
    }
  }

  lemma NewEntriesKnown(u: UnitState, queue: seq<Event>, a: Action)
    requires KnownStacks(u, queue) && Enabled(u, a)
    ensures forall p :: p in Apply(u, a).state.parked ==> p.stack in u.db.stacks
  {
  }

  lemma NewEventsKnown(u: UnitState, queue: seq<Event>, a: Action)
    requires KnownStacks(u, queue) && Enabled(u, a)
    ensures forall e :: e in Apply(u, a).sent && e.UpdateStackNumTokens? ==> e.stack in u.db.stacks
  {
  }

  lemma ConsumeKeepsKnownStacks(u: UnitState, queue: seq<Event>)
    requires KnownStacks(u, queue) && queue != []
    ensures Consume(u, queue[0]).db.stacks.Keys == u.db.stacks.Keys
    ensures KnownStacks(Consume(u, queue[0]), queue[1..])
  {
    assert queue[0] in queue;
  }

  lemma BuyKeepsKnownStacks(u: UnitState, queue: seq<Event>, id: StackId, created: Stack, user: UserId, r: Request)
    requires KnownStacks(u, queue) && r.stack == id && Buy(u, id, created, user, r).Ok?
    ensures id !in u.db.stacks && Buy(u, id, created, user, r).value.db.stacks.Keys == u.db.stacks.Keys + {id}
    ensures KnownStacks(Buy(u, id, created, user, r).value, queue)
  {
  }

  /** Nothing bills more than it had reserved, so far: neither a settlement on its way nor one
      refused before. */
  ghost predicate WithinEstimates(u: UnitState, queue: seq<Event>) {
    && (forall e :: e in queue && e.UpdateStackNumTokens? ==> e.total <= e.estimated)
    && (forall l :: l in u.losses ==> !l.cause.SettlementRefused?)
  }

  predicate BillsWithinEstimate(a: Action) {
    a.Finish? ==> a.total <= a.reported
  }

  lemma StepKeepsWithinEstimates(u: UnitState, queue: seq<Event>, a: Action)
    requires WithinEstimates(u, queue) && NonNegative(u, queue) && Enabled(u, a) && BillsWithinEstimate(a)
    ensures WithinEstimates(Apply(u, a).state, queue + Apply(u, a).sent)
  {
    NewLossesNotRefused(u, queue, a);
    NewEventsWithinEstimates(u, queue, a);
    hide Apply, Enabled;
  }

  lemma NewLossesNotRefused(u: UnitState, queue: seq<Event>, a: Action)
    requires WithinEstimates(u, queue) && Enabled(u, a)
    ensures forall l :: l in Apply(u, a).state.losses ==> !l.cause.SettlementRefused?
  {
  }

  lemma NewEventsWithinEstimates(u: UnitState, queue: seq<Event>, a: Action)
    requires NonNegative(u, queue) && Enabled(u, a) && BillsWithinEstimate(a)
    ensures forall e :: e in Apply(u, a).sent && e.UpdateStackNumTokens? ==> e.total <= e.estimated
  {
  }

  /** As long as nothing overran its estimate, the table refuses no settlement. */
  lemma ConsumeKeepsWithinEstimates(u: UnitState, queue: seq<Event>)
    requires WithinEstimates(u, queue) && KnownStacks(u, queue) && AllFit(u.db) && queue != []
    ensures WithinEstimates(Consume(u, queue[0]), queue[1..])
    ensures Consume(u, queue[0]).losses == u.losses
  {
    var e := queue[0];
    assert e in queue;
    if e.UpdateStackNumTokens? {
      SettlementRefusedIff(u.db, e.stack, e.estimated, e.total);
    }
  }

  // ---------------------------------------------------------------- what holds units is locked

  lemma LockedNotNegative(u: UnitState, queue: seq<Event>, id: StackId)
    requires Balanced(u, queue) && NonNegative(u, queue)
    ensures Locked(u, id) >= 0
    ensures forall r :: r in u.inFlight && r.stack == id ==> r.units <= Locked(u, id)
    ensures forall p :: p in u.parked && p.stack == id ==> p.lock.units <= Locked(u, id)
  {
    assert Locked(u, id) == Held(u, queue, id);
    SumBagNonNegative(u.inFlight, UnitsOn(id));
    SumBagNonNegative(u.parked, ParkedOn(id));
    SumSeqNonNegative(queue, EstimatedOn(id));
    SumSeqNonNegative(u.losses, LostOn(id));
    forall r | r in u.inFlight && r.stack == id
      ensures r.units <= Locked(u, id)
    {
      SumBagRemove(u.inFlight, r, UnitsOn(id));
      SumBagNonNegative(u.inFlight - multiset{r}, UnitsOn(id));
    }
    forall p | p in u.parked && p.stack == id
      ensures p.lock.units <= Locked(u, id)
    {
      SumBagRemove(u.parked, p, ParkedOn(id));
      SumBagNonNegative(u.parked - multiset{p}, ParkedOn(id));
    }
  }

  // ---------------------------------------------------------------- the heap loop refines the steps

  /** Several actions in a row, with all they send. */
  function RunUnits(u: UnitState, actions: seq<Action>): Option<Outcome> {
    if actions == [] then Some(Outcome(u, []))
    else
      match RunUnits(u, actions[..|actions| - 1])
      case None => None
      case Some(o) =>
        var a := actions[|actions| - 1];
        if Enabled(o.state, a) then
          var next := Apply(o.state, a);
          Some(Outcome(next.state, o.sent + next.sent))
        else None
  }

  function PruneSteps(id: StackId, released: seq<Lock>, now: Instant): seq<Action> {
    seq(|released|, i requires 0 <= i < |released| => Prune(id, released[i], now))
  }

  /** The entries of `u` for stack `id` are exactly the locks of `heap`. */
  ghost predicate HoldsHeap(u: UnitState, id: StackId, heap: seq<Lock>) {
    forall l :: u.parked[Parked(id, l)] == multiset(heap)[l]
  }

  function Entries(id: StackId, locks: seq<Lock>): multiset<Parked> {
    if locks == [] then multiset{} else Entries(id, locks[..|locks| - 1]) + multiset{Parked(id, locks[|locks| - 1])}
  }

  function WithoutEntries(u: UnitState, entries: multiset<Parked>): UnitState {
    u.(parked := u.parked - entries)
  }

  lemma HeapEntry(u: UnitState, id: StackId, heap: seq<Lock>)
    requires HoldsHeap(u, id, heap)
    ensures forall p :: p in u.parked && p.stack == id ==> p.lock in heap
  {
    forall p | p in u.parked && p.stack == id
      ensures p.lock in heap
    {
      assert p == Parked(id, p.lock);
      assert p.lock in multiset(heap);
    }
  }

  lemma PruneStep(u: UnitState, id: StackId, last: Lock, after: seq<Lock>, now: Instant)
    requires HoldsHeap(u, id, [last] + after)
    requires Expired(last, now) && forall l :: l in after ==> Before(last, l)
    ensures Enabled(u, Prune(id, last, now))
    ensures Apply(u, Prune(id, last, now))
         == Outcome(WithoutEntries(u, multiset{Parked(id, last)}), [UpdateStackNumTokens(id, last.units, 0)])
    ensures HoldsHeap(WithoutEntries(u, multiset{Parked(id, last)}), id, after)
  {
    HeapEntry(u, id, [last] + after);
    assert multiset([last] + after) == multiset{last} + multiset(after);
    assert u.parked[Parked(id, last)] == multiset([last] + after)[last];
  }

  lemma RunUnitsPush(u: UnitState, actions: seq<Action>, a: Action)
    requires RunUnits(u, actions).Some? && Enabled(RunUnits(u, actions).value.state, a)
    ensures var o := RunUnits(u, actions).value;
            RunUnits(u, actions + [a]) == Some(Outcome(Apply(o.state, a).state, o.sent + Apply(o.state, a).sent))
  {
    hide Apply, Enabled;
    assert (actions + [a])[..|actions|] == actions;
  }

  lemma LastOfPruning(before: seq<Lock>, released: seq<Lock>, after: seq<Lock>, now: Instant)
    requires released != [] && Pruning(before, released, after, now)
    ensures var n := |released| - 1;
            && Pruning(before, released[..n], [released[n]] + after, now)
            && Expired(released[n], now) && forall l :: l in after ==> Before(released[n], l)
  {
    var n := |released| - 1;
    assert released == released[..n] + [released[n]];
  }

  /** What a pruning pass of the proxy does to a heap and to the channel is what the same
      number of single prune steps do. */
  lemma {:induction false} PruningIsSteps(u: UnitState, id: StackId, before: seq<Lock>, released: seq<Lock>, after: seq<Lock>, now: Instant)
    requires HoldsHeap(u, id, before) && Pruning(before, released, after, now)
    ensures RunUnits(u, PruneSteps(id, released, now)) == Some(Outcome(WithoutEntries(u, Entries(id, released)), Releases(id, released)))
    ensures HoldsHeap(WithoutEntries(u, Entries(id, released)), id, after)
    decreases |released|
  {
    if released == [] {
      assert PruneSteps(id, released, now) == [] && Releases(id, released) == [];
      assert multiset(before) == multiset(after);
      assert u.parked - multiset{} == u.parked;
    } else {
      var n := |released| - 1;
      var last, init := released[n], released[..n];
      LastOfPruning(before, released, after, now);
      assert released == init + [last];
      assert PruneSteps(id, released, now) == PruneSteps(id, init, now) + [Prune(id, last, now)];
      hide Pruning, RunUnits, Apply, Enabled, HoldsHeap, Releases, PruneSteps;
      PruningIsSteps(u, id, before, init, [last] + after, now);
      var v := WithoutEntries(u, Entries(id, init));
      PruneStep(v, id, last, after, now);
      RunUnitsPush(u, PruneSteps(id, init, now), Prune(id, last, now));
      ReleasesGrow(id, init, last);
      WithoutOneMore(u, id, init, last);
      hide Entries, WithoutEntries;
    }
  }

  lemma WithoutOneMore(u: UnitState, id: StackId, init: seq<Lock>, last: Lock)
    ensures WithoutEntries(WithoutEntries(u, Entries(id, init)), multiset{Parked(id, last)}) == WithoutEntries(u, Entries(id, init + [last]))
  {
    assert (init + [last])[..|init|] == init;
  }

  /** The same for a search that found a lock: its steps end with taking that lock, for a
      request that needs `need` units; what the lock holds beyond that stays behind. */
  lemma SearchIsSteps(u: UnitState, id: StackId, before: seq<Lock>, released: seq<Lock>, live: seq<Lock>, lock: Lock, after: seq<Lock>,
                      now: Instant, need: int)
    requires HoldsHeap(u, id, before) && Pruned(before, released, live, now, true)
    requires multiset(live) == multiset{lock} + multiset(after) && lock.units >= need
    ensures var o := RunUnits(u, PruneSteps(id, released, now) + [Take(id, lock, need, now)]);
            && o.Some? && o.value.sent == Releases(id, released)
            && HoldsHeap(o.value.state, id, after)
            && o.value.state.db == u.db
            && o.value.state.inFlight == u.inFlight + multiset{Request(id, need, Confidential)}
            && o.value.state.losses == u.losses + [Loss(id, lock.units - need, TookLargerLock)]
  {
    var steps, take := PruneSteps(id, released, now), Take(id, lock, need, now);
    assert Pruning(before, released, live, now) && NoneExpired(live, now);
    hide Enabled, Apply, RunUnits, Pruned, Pruning, PruneSteps, HoldsHeap, Entries, NoneExpired, Releases, WithoutEntries, Takes;
    PruningIsSteps(u, id, before, released, live, now);
    var pruned := WithoutEntries(u, Entries(id, released));
    TakeStep(pruned, id, live, lock, after, now, need);
    TakeIs(pruned, id, lock, need, now);
    TakenIs(u, Entries(id, released), id, lock, need);
    RunUnitsPush(u, steps, take);
    assert Releases(id, released) + [] == Releases(id, released);
  }

  lemma TakenIs(u: UnitState, entries: multiset<Parked>, id: StackId, lock: Lock, need: int)
    ensures var v := Takes(WithoutEntries(u, entries), id, lock, need).state;
            && v.db == u.db && v.inFlight == u.inFlight + multiset{Request(id, need, Confidential)}
            && v.losses == u.losses + [Loss(id, lock.units - need, TookLargerLock)]
  {
  }

  lemma TakeIs(u: UnitState, id: StackId, lock: Lock, need: int, now: Instant)
    requires Enabled(u, Take(id, lock, need, now))
    ensures Apply(u, Take(id, lock, need, now)) == Takes(u, id, lock, need) && Takes(u, id, lock, need).sent == []
  {
  }

  lemma TakeStep(u: UnitState, id: StackId, live: seq<Lock>, lock: Lock, after: seq<Lock>, now: Instant, need: int)
    requires HoldsHeap(u, id, live) && NoneExpired(live, now)
    requires multiset(live) == multiset{lock} + multiset(after) && lock.units >= need
    ensures Enabled(u, Take(id, lock, need, now))
    ensures HoldsHeap(Takes(u, id, lock, need).state, id, after)
  {
    HeapEntry(u, id, live);
    assert u.parked[Parked(id, lock)] == multiset(live)[lock];
  }

  /** Pushing a lock on the heap of a stack is the step that parks its reservation. */
  lemma PushIsPark(u: UnitState, r: Request, expiresAt: Instant, before: seq<Lock>, after: seq<Lock>)
    requires Enabled(u, Park(r, expiresAt)) && HoldsHeap(u, r.stack, before)
    requires multiset(after) == multiset(before) + multiset{Lock(expiresAt, r.stage.maxNumTokens)}
    ensures var v := Apply(u, Park(r, expiresAt)).state;
            && HoldsHeap(v, r.stack, after)
            && forall k, heap :: k != r.stack && HoldsHeap(u, k, heap) ==> HoldsHeap(v, k, heap)
  {
    assert Apply(u, Park(r, expiresAt)) == Parks(u, r, expiresAt);
    hide Enabled, Apply;
  }

  // ---------------------------------------------------------------- the sweep over all heaps

  function SweepSteps(order: seq<StackId>, released: map<StackId, seq<Lock>>, now: Instant): seq<Action> {
    if order == [] then []
    else
      var id := order[|order| - 1];
      SweepSteps(order[..|order| - 1], released, now) + (if id in released then PruneSteps(id, released[id], now) else [])
  }

  /** `b` follows `a` when it differs in the entries of the heaps in `order` alone. */
  ghost predicate OnlyHeapsChanged(u: UnitState, v: UnitState, order: seq<StackId>) {
    && v == u.(parked := v.parked)
    && forall k, l :: k !in order ==> v.parked[Parked(k, l)] == u.parked[Parked(k, l)]
  }

  lemma {:induction false} RunUnitsConcat(u: UnitState, first: seq<Action>, second: seq<Action>, o: Outcome, p: Outcome)
    requires RunUnits(u, first) == Some(o) && RunUnits(o.state, second) == Some(p)
    ensures RunUnits(u, first + second) == Some(Outcome(p.state, o.sent + p.sent))
    decreases |second|
  {
    if second == [] {
      assert first + second == first && o.sent + [] == o.sent;
    } else {
      var init, a := second[..|second| - 1], second[|second| - 1];
      assert RunUnits(o.state, init).Some?;
      var q := RunUnits(o.state, init).value;
      RunUnitsLast(o.state, init, a, second, p, q);
      hide RunUnits, Enabled, Apply;
      RunUnitsConcat(u, first, init, o, q);
      ConcatAssociates(first, init, [a]);
      RunUnitsAppend(u, first + init, a, first + second, o.sent, q, p);
    }
  }

  lemma ConcatAssociates<T>(a: seq<T>, b: seq<T>, c: seq<T>)
    ensures a + b + c == a + (b + c)
  {
  }

  lemma RunUnitsLast(u: UnitState, init: seq<Action>, a: Action, actions: seq<Action>, p: Outcome, q: Outcome)
    requires actions != [] && init == actions[..|actions| - 1] && a == actions[|actions| - 1]
    requires RunUnits(u, actions) == Some(p) && RunUnits(u, init) == Some(q)
    ensures actions == init + [a]
    ensures Enabled(q.state, a) && p == Outcome(Apply(q.state, a).state, q.sent + Apply(q.state, a).sent)
  {
    hide Enabled, Apply;
  }

  lemma RunUnitsAppend(u: UnitState, init: seq<Action>, a: Action, actions: seq<Action>, sent: seq<Event>, q: Outcome, p: Outcome)
    requires RunUnits(u, init) == Some(Outcome(q.state, sent + q.sent)) && actions == init + [a]
    requires Enabled(q.state, a) && p == Outcome(Apply(q.state, a).state, q.sent + Apply(q.state, a).sent)
    ensures RunUnits(u, actions) == Some(Outcome(p.state, sent + p.sent))
  {
    ConcatAssociates(sent, q.sent, Apply(q.state, a).sent);
    RunUnitsPush(u, init, a);
    hide RunUnits, Enabled, Apply;
  }

  lemma {:induction false} EntriesOfOthers(id: StackId, locks: seq<Lock>, k: StackId, l: Lock)
    requires k != id
    ensures Entries(id, locks)[Parked(k, l)] == 0
  {
    if locks != [] {
      EntriesOfOthers(id, locks[..|locks| - 1], k, l);
    }
  }

  lemma WithoutEntriesKeepsOthers(u: UnitState, id: StackId, locks: seq<Lock>)
    ensures OnlyHeapsChanged(u, WithoutEntries(u, Entries(id, locks)), [id])
  {
    forall k, l | k != id
      ensures WithoutEntries(u, Entries(id, locks)).parked[Parked(k, l)] == u.parked[Parked(k, l)]
    {
      EntriesOfOthers(id, locks, k, l);
    }
  }

  lemma OtherHeapHolds(u: UnitState, v: UnitState, order: seq<StackId>, id: StackId, heap: seq<Lock>)
    requires OnlyHeapsChanged(u, v, order) && id !in order && HoldsHeap(u, id, heap)
    ensures HoldsHeap(v, id, heap)
  {
  }

  lemma OnlyHeapsChangedGrows(u: UnitState, v: UnitState, w: UnitState, order: seq<StackId>, id: StackId)
    requires OnlyHeapsChanged(u, v, order) && OnlyHeapsChanged(v, w, [id])
    ensures OnlyHeapsChanged(u, w, order + [id])
  {
  }

  /** A sweep over the heaps, complete or stopped, is the prune steps of the heaps it reached. */
  lemma {:induction false} SweepIsSteps(u: UnitState, before: map<StackId, seq<Lock>>, heaps: map<StackId, seq<Lock>>, order: seq<StackId>,
                                        released: map<StackId, seq<Lock>>, now: Instant)
    requires forall id :: id in order ==> id in before && id in heaps && id in released
    requires forall id :: id in order ==> HoldsHeap(u, id, before[id]) && Pruning(before[id], released[id], heaps[id], now)
    requires forall i, j :: 0 <= i < j < |order| ==> order[i] != order[j]
    ensures var o := RunUnits(u, SweepSteps(order, released, now));
            && o.Some? && o.value.sent == AllReleases(order, released)
            && OnlyHeapsChanged(u, o.value.state, order)
            && forall id :: id in order ==> HoldsHeap(o.value.state, id, heaps[id])
  {
    hide HoldsHeap, Pruning, PruneSteps, Enabled, Apply, Releases;
    if order != [] {
      var n := |order| - 1;
      var init, id := order[..n], order[n];
      assert order == init + [id];
      SweepIsSteps(u, before, heaps, init, released, now);
      var o := RunUnits(u, SweepSteps(init, released, now)).value;
      var v := o.state;
      OtherHeapHolds(u, v, init, id, before[id]);
      PruningIsSteps(v, id, before[id], released[id], heaps[id], now);
      var w := WithoutEntries(v, Entries(id, released[id]));
      RunUnitsConcat(u, SweepSteps(init, released, now), PruneSteps(id, released[id], now), o, Outcome(w, Releases(id, released[id])));
      WithoutEntriesKeepsOthers(v, id, released[id]);
      OnlyHeapsChangedGrows(u, v, w, init, id);
      forall k | k in init
        ensures HoldsHeap(w, k, heaps[k])
      {
        OtherHeapHolds(v, w, [id], k, heaps[k]);
      }
    }
  }

  /** What the proxy's sweep leaves behind is what these steps leave behind, in all its heaps;
      after a complete sweep over all of them no expired lock is left. */
  lemma SweptIsSteps(u: UnitState, before: map<StackId, seq<Lock>>, heaps: map<StackId, seq<Lock>>, order: seq<StackId>,
                     released: map<StackId, seq<Lock>>, now: Instant, complete: bool)
    requires Swept(before, heaps, order, released, now, complete)
    requires forall id :: id in before ==> HoldsHeap(u, id, before[id])
    requires complete ==> forall id :: id in before ==> id in order
    ensures var o := RunUnits(u, SweepSteps(order, released, now));
            && o.Some? && o.value.sent == AllReleases(order, released)
            && o.value.state == u.(parked := o.value.state.parked)
            && heaps.Keys == before.Keys && forall id :: id in before ==> HoldsHeap(o.value.state, id, heaps[id])
    ensures complete ==> forall id, l :: id in before && l in heaps[id] ==> l.expiresAt >= now
  {
    hide HoldsHeap, Pruning, PruneSteps, SweepSteps, RunUnits, AllReleases;
    SweepIsSteps(u, before, heaps, order, released, now);
    var v := RunUnits(u, SweepSteps(order, released, now)).value.state;
    forall id | id in before
      ensures HoldsHeap(v, id, heaps[id])
    {
      if id !in order {
        OtherHeapHolds(u, v, order, id, before[id]);
      }
    }
  }

  /** A lock leaves its heap in two ways only: released after it has expired, or taken, unexpired
      and large enough, by a request. */
  lemma LocksLeaveOnlyWhen(u: UnitState, a: Action, id: StackId, lock: Lock)
    requires Enabled(u, a) && Apply(u, a).state.parked[Parked(id, lock)] < u.parked[Parked(id, lock)]
    ensures (a.Prune? && a.id == id && a.lock == lock && lock.expiresAt < a.now)
            || (a.Take? && a.id == id && a.lock == lock && lock.expiresAt >= a.now && lock.units >= a.need)
    ensures a.Prune? ==> forall p :: p in u.parked && p.stack == id ==> lock.expiresAt <= p.lock.expiresAt
  {
  }
}
