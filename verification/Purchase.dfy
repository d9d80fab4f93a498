/** Buying stacks with USDC and crediting USDC payments.

    A user's balance is lowered by the deduction that precedes a purchase, raised by a refund
    when the purchase fails, and raised by top-ups that travel through the event queue.  A lock
    per user and task keeps two purchases for the same stack apart. */
module Purchase {
  import opened Base
  import opened Events
  import opened StackTable
  import opened UnitProtocol
  import P = Payment

  const STACK_SIZE_TO_BUY := 1_000_000
  const ONE_MILLION := 1_000_000

  type LockKey = (UserId, TaskId)

  // ---------------------------------------------------------------- the price of a stack

  /** What is deducted from and refunded to the buyer: u64 arithmetic, then `as i64`. */
  function Deducted(price: int): int {
    ToI64(ToU64(price * STACK_SIZE_TO_BUY) / ONE_MILLION)
  }

  /** What `acquire_new_stack_entry` asks the coin selection for. */
  function ValueRequired(units: int, price: int): int {
    ToU64(units * price) / ONE_MILLION
  }

  /** The three computations of the price of one purchase agree on every price; they are the
      exact price as long as the product fits a u64, and too little otherwise. */
  lemma PriceOfPurchase(price: int)
    requires IsU64(price)
    ensures Deducted(price) == ValueRequired(STACK_SIZE_TO_BUY, price) >= 0
    ensures Deducted(price) == price <==> IsU64(price * STACK_SIZE_TO_BUY)
    ensures Deducted(price) <= price
  {
    var x := ToU64(price * STACK_SIZE_TO_BUY);
    assert 0 <= x / ONE_MILLION < TWO_63;
    assert x <= price * STACK_SIZE_TO_BUY;
    if !IsU64(price * STACK_SIZE_TO_BUY) {
      assert x / ONE_MILLION <= TWO_64 / ONE_MILLION < price;
    }
  }

  // ---------------------------------------------------------------- the lock map

  class LockMap {
    var entries: map<LockKey, bool>

    constructor ()
      ensures entries == map[]
    {
      entries := map[];
    }
  }

  class LockGuard {
    const map_: LockMap
    const key: LockKey
    const locked: bool

    constructor (m: LockMap, key: LockKey)
      ensures map_ == m && this.key == key && locked
    {
      this.map_ := m;
      this.key := key;
      this.locked := true;
    }

    static method TryLock(m: LockMap, key: LockKey) returns (guard: LockGuard?)
      modifies m
      ensures guard == null <==> key in old(m.entries)
      ensures guard == null ==> m.entries == old(m.entries)
      ensures guard != null ==> fresh(guard) && guard.map_ == m && guard.key == key && guard.locked
      ensures guard != null ==> m.entries == old(m.entries)[key := true]
    {
      if key in m.entries {
        return null;
      }
      m.entries := m.entries[key := true];
      guard := new LockGuard(m, key);
    }

    method Drop()
      modifies map_
      ensures map_.entries == if locked then old(map_.entries) - {key} else old(map_.entries)
    {
      if locked {
        map_.entries := map_.entries - {key};
      }
    }
  }

  // ---------------------------------------------------------------- the balances

  function RowOf(balances: map<UserId, int>, user: UserId): int {
    if user in balances then balances[user] else 0
  }

  /** The CHECK constraint applies to the proposed row as well as to the updated one. */
  function TopUp(balances: map<UserId, int>, user: UserId, amount: int): Result<map<UserId, int>, DbError> {
    var row := RowOf(balances, user) + amount;
    if amount < 0 || row < 0 then Err(ConstraintViolated) else Ok(balances[user := row])
  }

  function Deduct(balances: map<UserId, int>, user: UserId, amount: int): Option<map<UserId, int>> {
    if user in balances && balances[user] >= amount then Some(balances[user := balances[user] - amount]) else None
  }

  function Refund(balances: map<UserId, int>, user: UserId, amount: int): map<UserId, int> {
    if user in balances then balances[user := balances[user] + amount] else balances
  }

  /** A refund undoes the deduction before it, whatever happened to the balance in between. */
  lemma RefundUndoesDeduct(balances: map<UserId, int>, user: UserId, amount: int, later: map<UserId, int>)
    requires Deduct(balances, user, amount).Some? && user in later
    ensures Refund(Deduct(balances, user, amount).value, user, amount) == balances
    ensures RowOf(Refund(later, user, amount), user) - RowOf(later, user)
         == RowOf(balances, user) - RowOf(Deduct(balances, user, amount).value, user)
  {
  }

  /** The `crypto_balances` table. */
  class CryptoBalances {
    var rows: map<UserId, int>

    constructor ()
      ensures rows == map[]
    {
      rows := map[];
    }

    predicate Valid()
      reads this
    {
      forall user :: user in rows ==> rows[user] >= 0
    }

    method TopUpCryptoBalance(user: UserId, amount: int) returns (error: Option<DbError>)
      requires Valid()
      modifies this
      ensures Valid()
      ensures match TopUp(old(rows), user, amount)
              case Ok(m) => error == None && rows == m
              case Err(e) => error == Some(e) && rows == old(rows)
      ensures amount >= 0 ==> error == None && rows == old(rows)[user := if user in old(rows) then old(rows)[user] + amount else amount]
      ensures amount < 0 ==> error == Some(ConstraintViolated) && rows == old(rows)
    {
      if amount < 0 {
        return Some(ConstraintViolated);
      }
      if user !in rows {
        rows := rows[user := amount];
      } else {
        rows := rows[user := rows[user] + amount];
      }
      return None;
    }

    method DeductFromUsdc(user: UserId, amount: int) returns (ok: bool)
      requires Valid()
      modifies this
      ensures Valid()
      ensures ok <==> Deduct(old(rows), user, amount).Some?
      ensures rows == if ok then Deduct(old(rows), user, amount).value else old(rows)
      ensures ok <==> user in old(rows) && old(rows)[user] >= amount
      ensures ok ==> rows == old(rows)[user := old(rows)[user] - amount]
    {
      ok := user in rows && rows[user] >= amount;
      if ok {
        rows := rows[user := rows[user] - amount];
      }
    }

    method RefundUsdc(user: UserId, amount: int)
      requires Valid() && amount >= 0
      modifies this
      ensures Valid()
      ensures rows == Refund(old(rows), user, amount)
      ensures rows == if user in old(rows) then old(rows)[user := old(rows)[user] + amount] else old(rows)
    {
      if user in rows {
        rows := rows[user := rows[user] + amount];
      }
    }
  }

  // ---------------------------------------------------------------- the protocol

  /** Where a purchase stands: it holds the lock; it has paid; it has a
      stack on chain that is not recorded yet; it owes a refund; it is over and about to drop
      its guard. */
  datatype Phase = Holding | Paid | Bought(id: StackId, created: Stack) | Owed | Over

  datatype Purchase = Purchase(user: UserId, task: TaskId, price: int, units: int, stage: Stage, phase: Phase)
  {
    function Key(): LockKey {
      (user, task)
    }

    predicate Pending() {
      phase.Paid? || phase.Bought? || phase.Owed?
    }

    function Cost(): int {
      Deducted(price)
    }
  }

  type Pid = nat

  /** A payment call that has inserted its digest, and one that has sent its top-up. */
  datatype Claim = Claim(user: UserId, digest: string)
  datatype Credit = Credit(user: UserId, digest: string, amount: int)

  /** What the proxy reads from the chain about a payment. */
  datatype Chain = Chain(changes: map<string, seq<P.Change>>, usdc: P.Address, own: P.Address)

  datatype BuyState = BuyState(
    lockMap: map<LockKey, bool>,
    purchases: map<Pid, Purchase>,
    balances: map<UserId, int>,
    bought: seq<Purchase>,
    digests: set<string>,
    claims: multiset<Claim>,
    credits: seq<Credit>)

  datatype BuyAction =
    | TryLock(pid: Pid, p: Purchase)
    | DeductUsdc(pid: Pid)
    | BuyOnChain(pid: Pid, result: Option<(StackId, Stack)>)
    | RefundUsdc(pid: Pid)
    | DropGuard(pid: Pid)
    | InsertDigest(c: Claim)
    | FinishClaim(c: Claim, fetched: bool, authorised: bool)

  /** A purchase starts for a node found in the table, with a u64 price.  It locks the units
      of the request it is made for; for a lock request these are a constant, whatever the
      request asked for. */
  predicate CanBuy(b: BuyState, a: BuyAction) {
    match a
    case TryLock(pid, p) =>
      && pid !in b.purchases && p.phase.Holding? && IsU64(p.price)
      && (p.stage.Direct? || (p.stage.Parking? && p.stage.bought && p.units == MAX_NUM_TOKENS_FOR_CONFIDENTIAL_COMPUTE))
    case DeductUsdc(pid) => pid in b.purchases && b.purchases[pid].phase.Holding?
    case BuyOnChain(pid, _) => pid in b.purchases && b.purchases[pid].phase.Paid?
    case RefundUsdc(pid) => pid in b.purchases && b.purchases[pid].phase.Owed?
    case DropGuard(pid) => pid in b.purchases && b.purchases[pid].phase.Over?
    case InsertDigest(_) => true
    case FinishClaim(c, _, _) => c in b.claims
  }

  datatype BuyOutcome = BuyOutcome(state: BuyState, sent: seq<Event>)

  function ApplyBuy(chain: Chain, b: BuyState, a: BuyAction): BuyOutcome
    requires CanBuy(b, a)
  {
    match a
    case TryLock(pid, p) => BuyOutcome(Locks(b, pid, p), [])
    case DeductUsdc(pid) => BuyOutcome(Pays(b, pid), [])
    case BuyOnChain(pid, Some((id, created))) => BuyOutcome(Moves(b, pid, Bought(id, created)), [])
    case BuyOnChain(pid, None) => BuyOutcome(Moves(b, pid, Owed), [])
    case RefundUsdc(pid) => BuyOutcome(Refunds(b, pid), [])
    case DropGuard(pid) => BuyOutcome(Drops(b, pid), [])
    case InsertDigest(c) => BuyOutcome(Inserts(b, c), [])
    case FinishClaim(c, fetched, authorised) =>
      var money := if fetched && authorised then Creditable(chain, c.digest) else None;
      if money.Some? then BuyOutcome(Credits(b, c, money.value), [TopUpBalance(c.user, money.value)])
      else BuyOutcome(b.(claims := b.claims - multiset{c}), [])
  }

  function Locks(b: BuyState, pid: Pid, p: Purchase): BuyState {
    if p.Key() in b.lockMap then b
    else b.(lockMap := b.lockMap[p.Key() := true], purchases := b.purchases[pid := p])
  }

  function Moves(b: BuyState, pid: Pid, phase: Phase): BuyState
    requires pid in b.purchases
  {
    b.(purchases := b.purchases[pid := b.purchases[pid].(phase := phase)])
  }

  function Pays(b: BuyState, pid: Pid): BuyState
    requires pid in b.purchases
  {
    var p := b.purchases[pid];
    match Deduct(b.balances, p.user, p.Cost())
    case Some(balances) => Moves(b.(balances := balances), pid, Paid)
    case None => Moves(b, pid, Over)
  }

  function Refunds(b: BuyState, pid: Pid): BuyState
    requires pid in b.purchases
  {
    var p := b.purchases[pid];
    Moves(b.(balances := Refund(b.balances, p.user, p.Cost())), pid, Over)
  }

  function Drops(b: BuyState, pid: Pid): BuyState
    requires pid in b.purchases
  {
    b.(purchases := b.purchases - {pid}, lockMap := b.lockMap - {b.purchases[pid].Key()})
  }

  /** The stack is in the table: the purchase is over.  If the table refused it, the buyer is
      owed a refund although the stack exists on chain. */
  function Records(b: BuyState, pid: Pid, recorded: bool): BuyState
    requires pid in b.purchases
  {
    if recorded then Moves(b.(bought := b.bought + [b.purchases[pid]]), pid, Over) else Moves(b, pid, Owed)
  }

  function Inserts(b: BuyState, c: Claim): BuyState {
    if c.digest in b.digests then b
    else b.(digests := b.digests + {c.digest}, claims := b.claims + multiset{c})
  }

  function Credits(b: BuyState, c: Claim, amount: int): BuyState {
    b.(claims := b.claims - multiset{c}, credits := b.credits + [Credit(c.user, c.digest, amount)])
  }

  /** The amount a payment is worth: paid to the proxy's own address, and within an i64. */
  function Creditable(chain: Chain, digest: string): Option<int> {
    if digest !in chain.changes then None
    else
      match P.TransferOf(chain.changes[digest], chain.usdc)
      case Err(_) => None
      case Ok(t) => if t.receiver == chain.own && IsI64(t.moneyIn) then Some(t.moneyIn) else None
  }

  /** The state manager applies a top-up. */
  function ConsumeTopUp(b: BuyState, e: Event): BuyState {
    if e.TopUpBalance? then
      match TopUp(b.balances, e.user, e.amount)
      case Ok(balances) => b.(balances := balances)
      case Err(_) => b
    else b
  }

  /** Whoever has the price of a stack pays exactly that, and nobody else is touched; whoever
      has not pays nothing and does not buy. */
  lemma PaysIffAffordable(chain: Chain, b: BuyState, pid: Pid)
    requires CanBuy(b, DeductUsdc(pid)) && IsU64(b.purchases[pid].price * STACK_SIZE_TO_BUY)
    ensures var p, v := b.purchases[pid], ApplyBuy(chain, b, DeductUsdc(pid)).state;
            var pays := p.user in b.balances && b.balances[p.user] >= p.price;
            && v.purchases == b.purchases[pid := p.(phase := if pays then Paid else Over)]
            && v.balances == if pays then b.balances[p.user := b.balances[p.user] - p.price] else b.balances
  {
    var p := b.purchases[pid];
    if p.price >= 0 {
      PriceOfPurchase(p.price);
    }
    hide Deducted;
  }

  // ---------------------------------------------------------------- exclusion

  /** The keys of the lock map are the keys of the purchases in flight, one each. */
  ghost predicate Exclusive(b: BuyState) {
    && (forall pid :: pid in b.purchases ==> b.purchases[pid].Key() in b.lockMap)
    && (forall k :: k in b.lockMap ==> b.lockMap[k] && exists pid :: pid in b.purchases && b.purchases[pid].Key() == k)
    && (forall i, j :: i in b.purchases && j in b.purchases && b.purchases[i].Key() == b.purchases[j].Key() ==> i == j)
  }

  lemma MoveKeepsExclusive(b: BuyState, v: BuyState, pid: Pid, phase: Phase)
    requires Exclusive(b) && pid in b.purchases
    requires v.lockMap == b.lockMap && v.purchases == b.purchases[pid := b.purchases[pid].(phase := phase)]
    ensures Exclusive(v)
  {
    assert forall i :: i in v.purchases ==> i in b.purchases && v.purchases[i].Key() == b.purchases[i].Key();
    forall k | k in v.lockMap
      ensures exists i :: i in v.purchases && v.purchases[i].Key() == k
    {
      var i :| i in b.purchases && b.purchases[i].Key() == k;
      assert v.purchases[i].Key() == k;
    }
  }

  lemma LockKeepsExclusive(b: BuyState, pid: Pid, p: Purchase)
    requires Exclusive(b) && pid !in b.purchases
    ensures Exclusive(Locks(b, pid, p))
  {
    var v := Locks(b, pid, p);
    forall k | k in v.lockMap
      ensures v.lockMap[k] && exists i :: i in v.purchases && v.purchases[i].Key() == k
    {
      if k in b.lockMap {
        var i :| i in b.purchases && b.purchases[i].Key() == k;
        assert v.purchases[i].Key() == k;
      } else {
        assert v.purchases[pid].Key() == k;
      }
    }
  }

  lemma DropKeepsExclusive(b: BuyState, pid: Pid)
    requires Exclusive(b) && pid in b.purchases
    ensures Exclusive(Drops(b, pid))
  {
    var v := Drops(b, pid);
    forall k | k in v.lockMap
      ensures v.lockMap[k] && exists i :: i in v.purchases && v.purchases[i].Key() == k
    {
      var i :| i in b.purchases && b.purchases[i].Key() == k;
      assert v.purchases[i].Key() == k;
    }
  }

  lemma StepKeepsExclusive(chain: Chain, b: BuyState, a: BuyAction)
    requires Exclusive(b) && CanBuy(b, a)
    ensures Exclusive(ApplyBuy(chain, b, a).state)
  {
    hide Exclusive, Deduct, Creditable, Deducted;
    var v := ApplyBuy(chain, b, a).state;
    match a
    case TryLock(pid, p) => LockKeepsExclusive(b, pid, p);
    case DropGuard(pid) => DropKeepsExclusive(b, pid);
    case DeductUsdc(pid) => MoveKeepsExclusive(b, Pays(b, pid), pid, Pays(b, pid).purchases[pid].phase);
    case BuyOnChain(pid, Some((id, created))) => MoveKeepsExclusive(b, Moves(b, pid, Bought(id, created)), pid, Bought(id, created));
    case BuyOnChain(pid, None) => MoveKeepsExclusive(b, Moves(b, pid, Owed), pid, Owed);
    case RefundUsdc(pid) => MoveKeepsExclusive(b, Refunds(b, pid), pid, Over);
    case InsertDigest(_) => OtherFieldsKeepExclusive(b, v);
    case FinishClaim(_, _, _) => OtherFieldsKeepExclusive(b, v);
  }

  lemma OtherFieldsKeepExclusive(b: BuyState, v: BuyState)
    requires Exclusive(b) && v.lockMap == b.lockMap && v.purchases == b.purchases
    ensures Exclusive(v)
  {
  }

  // ---------------------------------------------------------------- conservation

  function PendingOf(user: UserId): (Pid, Purchase) -> int {
    (_: Pid, p: Purchase) => if p.user == user && p.Pending() then p.Cost() else 0
  }

  function SpentBy(user: UserId): Purchase -> int {
    (p: Purchase) => if p.user == user then p.Cost() else 0
  }

  function CreditedTo(user: UserId): Credit -> int {
    (c: Credit) => if c.user == user then c.amount else 0
  }

  function ToppingUp(user: UserId): Event -> int {
    (e: Event) => if e.TopUpBalance? && e.user == user then e.amount else 0
  }

  ghost function Accounted(balances: map<UserId, int>, purchases: map<Pid, Purchase>, bought: seq<Purchase>, queue: seq<Event>, user: UserId): int {
    RowOf(balances, user) + SumMap(purchases, PendingOf(user)) + SumSeq(bought, SpentBy(user)) + SumSeq(queue, ToppingUp(user))
  }

  /** Every credit is in the balance, in the queue, on its way to buy a stack, or spent. */
  ghost predicate Conserved(b: BuyState, queue: seq<Event>) {
    forall user: UserId {:trigger SumSeq(b.credits, CreditedTo(user))} ::
      SumSeq(b.credits, CreditedTo(user)) == Accounted(b.balances, b.purchases, b.bought, queue, user)
  }

  /** No balance is negative, and whoever has paid has a balance to be refunded to. */
  ghost predicate Funded(b: BuyState, queue: seq<Event>) {
    && (forall user :: user in b.balances ==> b.balances[user] >= 0)
    && (forall pid :: pid in b.purchases ==>
          && IsU64(b.purchases[pid].price)
          && (b.purchases[pid].Pending() ==> b.purchases[pid].user in b.balances))
    && (forall e :: e in queue && e.TopUpBalance? ==> e.amount >= 0)
  }

  lemma UpsertAccounted(balances: map<UserId, int>, after: map<UserId, int>, purchases: map<Pid, Purchase>, bought: seq<Purchase>, queue: seq<Event>,
                        pid: Pid, p: Purchase, user: UserId)
    ensures Accounted(after, purchases[pid := p], bought, queue, user)
         == Accounted(balances, purchases, bought, queue, user) + RowOf(after, user) - RowOf(balances, user)
            + PendingOf(user)(pid, p) - (if pid in purchases then PendingOf(user)(pid, purchases[pid]) else 0)
  {
    hide SumMap, SumSeq, RowOf;
    SumMapUpsert(purchases, pid, p, PendingOf(user));
  }

  lemma StepConserves(chain: Chain, b: BuyState, queue: seq<Event>, a: BuyAction)
    requires Conserved(b, queue) && Funded(b, queue) && CanBuy(b, a)
    ensures Conserved(ApplyBuy(chain, b, a).state, queue + ApplyBuy(chain, b, a).sent)
  {
    var v, sent := ApplyBuy(chain, b, a).state, ApplyBuy(chain, b, a).sent;
    forall user: UserId
      ensures SumSeq(v.credits, CreditedTo(user)) == Accounted(v.balances, v.purchases, v.bought, queue + sent, user)
    {
      assert SumSeq(b.credits, CreditedTo(user)) == Accounted(b.balances, b.purchases, b.bought, queue, user);
      hide ApplyBuy;
      StepAccounts(chain, b, queue, a, user);
    }
  }

  /** A step changes what is accounted for a user by what it credits to them. */
  lemma StepAccounts(chain: Chain, b: BuyState, queue: seq<Event>, a: BuyAction, user: UserId)
    requires Funded(b, queue) && CanBuy(b, a)
    ensures Grown(b, queue, ApplyBuy(chain, b, a), user)
  {
    assert queue + [] == queue;
    match a
    case TryLock(pid, p) => LockAccounts(b, queue, pid, p, user);
    case DeductUsdc(pid) => PayAccounts(b, queue, pid, user);
    case BuyOnChain(pid, Some((id, created))) => MoveAccounts(b, queue, pid, Bought(id, created), user);
    case BuyOnChain(pid, None) => MoveAccounts(b, queue, pid, Owed, user);
    case RefundUsdc(pid) => RefundAccounts(b, queue, pid, user);
    case DropGuard(pid) => DropAccounts(b, queue, pid, user);
    case InsertDigest(_) =>
    case FinishClaim(c, fetched, authorised) =>
      var money := if fetched && authorised then Creditable(chain, c.digest) else None;
      if money.Some? {
        CreditAccounts(b, queue, c, money.value, user);
      }
  }

  ghost predicate Grown(b: BuyState, queue: seq<Event>, o: BuyOutcome, user: UserId) {
    var v := o.state;
    Accounted(v.balances, v.purchases, v.bought, queue + o.sent, user) - SumSeq(v.credits, CreditedTo(user))
    == Accounted(b.balances, b.purchases, b.bought, queue, user) - SumSeq(b.credits, CreditedTo(user))
  }

  lemma LockAccounts(b: BuyState, queue: seq<Event>, pid: Pid, p: Purchase, user: UserId)
    requires pid !in b.purchases && p.phase.Holding?
    ensures Grown(b, queue, BuyOutcome(Locks(b, pid, p), []), user)
  {
    hide Accounted, SumSeq;
    assert queue + [] == queue;
    UpsertAccounted(b.balances, b.balances, b.purchases, b.bought, queue, pid, p, user);
  }

  lemma MoveAccounts(b: BuyState, queue: seq<Event>, pid: Pid, phase: Phase, user: UserId)
    requires pid in b.purchases && b.purchases[pid].phase.Paid? && (phase.Bought? || phase.Owed?)
    ensures Grown(b, queue, BuyOutcome(Moves(b, pid, phase), []), user)
  {
    hide Accounted, SumSeq;
    assert queue + [] == queue;
    UpsertAccounted(b.balances, b.balances, b.purchases, b.bought, queue, pid, b.purchases[pid].(phase := phase), user);
  }

  lemma PayAccounts(b: BuyState, queue: seq<Event>, pid: Pid, user: UserId)
    requires pid in b.purchases && b.purchases[pid].phase.Holding?
    ensures Grown(b, queue, BuyOutcome(Pays(b, pid), []), user)
  {
    hide Accounted, SumSeq, Deducted;
    assert queue + [] == queue;
    var p, v := b.purchases[pid], Pays(b, pid);
    UpsertAccounted(b.balances, v.balances, b.purchases, b.bought, queue, pid, v.purchases[pid], user);
  }

  lemma RefundAccounts(b: BuyState, queue: seq<Event>, pid: Pid, user: UserId)
    requires pid in b.purchases && b.purchases[pid].phase.Owed? && b.purchases[pid].user in b.balances
    ensures Grown(b, queue, BuyOutcome(Refunds(b, pid), []), user)
  {
    hide Accounted, SumSeq, Deducted;
    assert queue + [] == queue;
    var v := Refunds(b, pid);
    UpsertAccounted(b.balances, v.balances, b.purchases, b.bought, queue, pid, v.purchases[pid], user);
  }

  lemma DropAccounts(b: BuyState, queue: seq<Event>, pid: Pid, user: UserId)
    requires pid in b.purchases && b.purchases[pid].phase.Over?
    ensures Grown(b, queue, BuyOutcome(Drops(b, pid), []), user)
  {
    hide SumSeq, SumMap, Deducted, RowOf;
    assert queue + [] == queue;
    SumMapRemove(b.purchases, pid, PendingOf(user));
  }

  lemma CreditAccounts(b: BuyState, queue: seq<Event>, c: Claim, amount: int, user: UserId)
    ensures Grown(b, queue, BuyOutcome(Credits(b, c, amount), [TopUpBalance(c.user, amount)]), user)
  {
    hide SumSeq, SumMap, RowOf;
    SumSeqPush(b.credits, Credit(c.user, c.digest, amount), CreditedTo(user));
    SumSeqPush(queue, TopUpBalance(c.user, amount), ToppingUp(user));
  }

  lemma RecordConserves(b: BuyState, queue: seq<Event>, pid: Pid, recorded: bool)
    requires Conserved(b, queue) && pid in b.purchases && b.purchases[pid].phase.Bought?
    ensures Conserved(Records(b, pid, recorded), queue)
  {
    var v := Records(b, pid, recorded);
    forall user: UserId
      ensures SumSeq(v.credits, CreditedTo(user)) == Accounted(v.balances, v.purchases, v.bought, queue, user)
    {
      assert SumSeq(b.credits, CreditedTo(user)) == Accounted(b.balances, b.purchases, b.bought, queue, user);
      hide SumSeq, SumMap, RowOf, Deducted;
      SumMapUpsert(b.purchases, pid, v.purchases[pid], PendingOf(user));
      SumSeqPush(b.bought, b.purchases[pid], SpentBy(user));
    }
  }

  lemma TopUpConserves(b: BuyState, queue: seq<Event>)
    requires Conserved(b, queue) && Funded(b, queue) && queue != []
    ensures Conserved(ConsumeTopUp(b, queue[0]), queue[1..])
  {
    var e := queue[0];
    var v := ConsumeTopUp(b, e);
    forall user: UserId
      ensures SumSeq(v.credits, CreditedTo(user)) == Accounted(v.balances, v.purchases, v.bought, queue[1..], user)
    {
      assert SumSeq(b.credits, CreditedTo(user)) == Accounted(b.balances, b.purchases, b.bought, queue, user);
      hide SumSeq, SumMap, Conserved;
      SumSeqHead(queue, ToppingUp(user));
      if e.TopUpBalance? && e.user in b.balances {
        assert b.balances[e.user] >= 0;
      }
    }
  }

  lemma OtherEventsConserve(b: BuyState, queue: seq<Event>, e: Event)
    requires Conserved(b, queue) && !e.TopUpBalance?
    ensures Conserved(b, queue + [e])
  {
    forall user: UserId
      ensures SumSeq(b.credits, CreditedTo(user)) == Accounted(b.balances, b.purchases, b.bought, queue + [e], user)
    {
      assert SumSeq(b.credits, CreditedTo(user)) == Accounted(b.balances, b.purchases, b.bought, queue, user);
      SumSeqPush(queue, e, ToppingUp(user));
    }
  }

  /** The transaction names a sender and a receiver of USDC, the receiver is the proxy itself,
      and `amount` is the receiver's own change, within an i64. */
  ghost predicate PaysProxy(chain: Chain, digest: string, amount: int) {
    && digest in chain.changes
    && amount < TWO_63
    && exists i, j ::
         && P.Names(chain.changes[digest], chain.usdc, P.Outgoing, i)
         && P.Names(chain.changes[digest], chain.usdc, P.Incoming, j)
         && chain.changes[digest][j].owner == P.AddressOwner(chain.own)
         && chain.changes[digest][j].amount == amount
  }

  /** A payment is credited with exactly what it pays the proxy. */
  lemma CreditableIff(chain: Chain, digest: string, amount: int)
    ensures Creditable(chain, digest) == Some(amount) <==> PaysProxy(chain, digest, amount)
  {
    if digest in chain.changes {
      var changes := chain.changes[digest];
      var r := P.TransferOf(changes, chain.usdc);
      if r.Ok? {
        P.AcceptedIffNamed(changes, chain.usdc, r.value);
        P.AcceptedMoney(changes, chain.usdc);
        var i, j :| P.Names(changes, chain.usdc, P.Outgoing, i) && P.Names(changes, chain.usdc, P.Incoming, j)
          && r.value == P.Transfer(changes[i].owner.address, changes[j].owner.address, changes[j].amount);
        P.NamedNotRepeated(changes, chain.usdc, P.Incoming, j);
      }
      if PaysProxy(chain, digest, amount) {
        var i, j :| P.Names(changes, chain.usdc, P.Outgoing, i) && P.Names(changes, chain.usdc, P.Incoming, j)
          && changes[j].owner == P.AddressOwner(chain.own) && changes[j].amount == amount;
        P.AcceptedIffNamed(changes, chain.usdc, P.Transfer(changes[i].owner.address, chain.own, amount));
      }
    }
  }

  lemma CreditableIsNonNegative(chain: Chain, digest: string)
    requires Creditable(chain, digest).Some?
    ensures Creditable(chain, digest).value >= 0
  {
    P.AcceptedMoney(chain.changes[digest], chain.usdc);
  }

  lemma StepKeepsFunded(chain: Chain, b: BuyState, queue: seq<Event>, a: BuyAction)
    requires Funded(b, queue) && CanBuy(b, a)
    ensures Funded(ApplyBuy(chain, b, a).state, queue + ApplyBuy(chain, b, a).sent)
  {
    assert queue + [] == queue;
    match a
    case TryLock(_, _) =>
    case DeductUsdc(pid) =>
      PriceOfPurchase(b.purchases[pid].price);
      hide Deducted;
    case BuyOnChain(pid, _) =>
      hide Deducted;
    case RefundUsdc(pid) =>
      PriceOfPurchase(b.purchases[pid].price);
      hide Deducted;
    case DropGuard(_) =>
    case InsertDigest(_) =>
    case FinishClaim(c, fetched, authorised) =>
      if Creditable(chain, c.digest).Some? {
        CreditableIsNonNegative(chain, c.digest);
      }
  }

  lemma RecordAndTopUpKeepFunded(b: BuyState, queue: seq<Event>, pid: Pid, recorded: bool)
    requires Funded(b, queue)
    ensures queue != [] ==> Funded(ConsumeTopUp(b, queue[0]), queue[1..])
    ensures pid in b.purchases && b.purchases[pid].phase.Bought? ==> Funded(Records(b, pid, recorded), queue)
  {
  }

  // ---------------------------------------------------------------- at most one credit per payment

  function ClaimOn(digest: string): Claim -> int {
    (c: Claim) => if c.digest == digest then 1 else 0
  }

  function CreditOn(digest: string): Credit -> int {
    (c: Credit) => if c.digest == digest then 1 else 0
  }

  ghost function Uses(claims: multiset<Claim>, credits: seq<Credit>, digest: string): int {
    SumBag(claims, ClaimOn(digest)) + SumSeq(credits, CreditOn(digest))
  }

  /** A digest in the table backs at most one claim or credit, any other digest none. */
  ghost predicate UsedOnce(b: BuyState) {
    forall digest: string {:trigger Uses(b.claims, b.credits, digest)} ::
      Uses(b.claims, b.credits, digest) <= if digest in b.digests then 1 else 0
  }

  /** Every credit is the money of its payment. */
  predicate Genuine(chain: Chain, b: BuyState) {
    forall c :: c in b.credits ==> Creditable(chain, c.digest) == Some(c.amount)
  }

  lemma StepKeepsUsedOnce(chain: Chain, b: BuyState, a: BuyAction)
    requires UsedOnce(b) && CanBuy(b, a)
    ensures UsedOnce(ApplyBuy(chain, b, a).state)
  {
    var v := ApplyBuy(chain, b, a).state;
    hide UsedOnce, Creditable;
    if a.InsertDigest? {
      InsertKeepsUsedOnce(b, a.c);
    } else if a.FinishClaim? {
      FinishKeepsUsedOnce(b, v, a.c, if v.credits == b.credits then 0 else v.credits[|b.credits|].amount);
    } else {
      OtherFieldsKeepUsedOnce(b, v);
    }
  }

  lemma InsertKeepsUsedOnce(b: BuyState, c: Claim)
    requires UsedOnce(b)
    ensures UsedOnce(Inserts(b, c))
  {
    var v := Inserts(b, c);
    forall digest: string
      ensures Uses(v.claims, v.credits, digest) <= if digest in v.digests then 1 else 0
    {
      assert Uses(b.claims, b.credits, digest) <= if digest in b.digests then 1 else 0;
      hide SumSeq, SumBag;
      SumBagAdd(b.claims, c, ClaimOn(digest));
    }
  }

  lemma FinishKeepsUsedOnce(b: BuyState, v: BuyState, c: Claim, amount: int)
    requires UsedOnce(b) && c in b.claims && v.digests == b.digests && v.claims == b.claims - multiset{c}
    requires v.credits == b.credits || v.credits == b.credits + [Credit(c.user, c.digest, amount)]
    ensures UsedOnce(v)
  {
    forall digest: string
      ensures Uses(v.claims, v.credits, digest) <= if digest in v.digests then 1 else 0
    {
      assert Uses(b.claims, b.credits, digest) <= if digest in b.digests then 1 else 0;
      hide SumSeq, SumBag;
      SumBagRemove(b.claims, c, ClaimOn(digest));
      SumSeqPush(b.credits, Credit(c.user, c.digest, amount), CreditOn(digest));
    }
  }

  lemma OtherFieldsKeepUsedOnce(b: BuyState, v: BuyState)
    requires UsedOnce(b) && v.digests == b.digests && v.claims == b.claims && v.credits == b.credits
    ensures UsedOnce(v)
  {
    forall digest: string
      ensures Uses(v.claims, v.credits, digest) <= if digest in v.digests then 1 else 0
    {
      assert Uses(b.claims, b.credits, digest) <= if digest in b.digests then 1 else 0;
    }
  }

  lemma StepKeepsGenuine(chain: Chain, b: BuyState, a: BuyAction)
    requires Genuine(chain, b) && CanBuy(b, a)
    ensures Genuine(chain, ApplyBuy(chain, b, a).state)
  {
    hide Creditable;
  }

  /** Two credits never come from one payment. */
  lemma CreditsAreDistinct(b: BuyState, i: nat, j: nat)
    requires UsedOnce(b) && i < j < |b.credits|
    ensures b.credits[i].digest != b.credits[j].digest
  {
    var digest := b.credits[i].digest;
    assert Uses(b.claims, b.credits, digest) <= if digest in b.digests then 1 else 0;
    SumBagNonNegative(b.claims, ClaimOn(digest));
    if b.credits[j].digest == digest {
      var f := CreditOn(digest);
      var rest := RemoveAt(b.credits, j);
      SumSeqRemove(b.credits, j, f);
      SumSeqRemove(rest, i, f);
      SumSeqNonNegative(RemoveAt(rest, i), f);
    }
  }

  /** A claim on a payment is the only one, and there is no credit beside it. */
  lemma ClaimIsSole(b: BuyState, c: Claim)
    requires UsedOnce(b) && c in b.claims
    ensures c.digest in b.digests && b.claims[c] == 1
    ensures forall d :: d in b.claims && d.digest == c.digest ==> d == c
    ensures forall x :: x in b.credits ==> x.digest != c.digest
  {
    var f := ClaimOn(c.digest);
    var rest := b.claims - multiset{c};
    assert Uses(b.claims, b.credits, c.digest) <= if c.digest in b.digests then 1 else 0;
    SumBagRemove(b.claims, c, f);
    SumBagNonNegative(rest, f);
    SumSeqNonNegative(b.credits, CreditOn(c.digest));
    hide SumBag, SumSeq;
    forall d | d in rest
      ensures d.digest != c.digest
    {
      SumBagRemove(rest, d, f);
      SumBagNonNegative(rest - multiset{d}, f);
    }
    assert c !in rest;
    SumSeqZeroIff(b.credits, CreditOn(c.digest));
    forall x | x in b.credits
      ensures x.digest != c.digest
    {
      assert CreditOn(c.digest)(x) == 0;
    }
  }

  /** The fate of a payment is decided: its digest is in the table, no claim names it, and the
      only credit that names it, if any, is the outcome. */
  ghost predicate Decided(b: BuyState, digest: string, outcome: Option<Credit>) {
    && digest in b.digests
    && (forall c :: c in b.claims ==> c.digest != digest)
    && (forall x :: x in b.credits && x.digest == digest ==> outcome == Some(x))
    && (outcome.Some? ==> outcome.value in b.credits)
  }

  /** It stays decided: the table refuses to insert the digest again. */
  lemma StepKeepsDecision(chain: Chain, b: BuyState, a: BuyAction, digest: string, outcome: Option<Credit>)
    requires CanBuy(b, a) && Decided(b, digest, outcome)
    ensures Decided(ApplyBuy(chain, b, a).state, digest, outcome)
  {
    NewClaims(chain, b, a);
    NewCredits(chain, b, a);
    hide ApplyBuy, CanBuy;
  }

  lemma NewClaims(chain: Chain, b: BuyState, a: BuyAction)
    requires CanBuy(b, a)
    ensures b.digests <= ApplyBuy(chain, b, a).state.digests
    ensures forall c :: c in ApplyBuy(chain, b, a).state.claims ==> c in b.claims || c.digest !in b.digests
  {
    hide Creditable, Deduct, Refund, Deducted;
  }

  lemma NewCredits(chain: Chain, b: BuyState, a: BuyAction)
    requires CanBuy(b, a)
    ensures var credits := ApplyBuy(chain, b, a).state.credits;
            credits == b.credits
            || exists c, amount :: c in b.claims && credits == b.credits + [Credit(c.user, c.digest, amount)]
  {
    hide Creditable, Deduct, Refund, Deducted;
    if a.FinishClaim? && a.fetched && a.authorised && Creditable(chain, a.c.digest).Some? {
      assert a.c in b.claims && ApplyBuy(chain, b, a).state == Credits(b, a.c, Creditable(chain, a.c.digest).value);
    }
  }

  lemma TopUpKeepsDecision(b: BuyState, e: Event, digest: string, outcome: Option<Credit>)
    requires Decided(b, digest, outcome)
    ensures Decided(ConsumeTopUp(b, e), digest, outcome)
  {
  }

  lemma RecordKeepsDecision(b: BuyState, pid: Pid, recorded: bool, digest: string, outcome: Option<Credit>)
    requires Decided(b, digest, outcome) && pid in b.purchases
    ensures Decided(Records(b, pid, recorded), digest, outcome)
  {
  }

  // ---------------------------------------------------------------- losing the race for the lock

  const MAX_STACK_WAIT_ATTEMPTS: nat := 10

  /** The state manager as a lookup meets it: gone, or with the rows that other requests have
      left in the table by then. */
  datatype Lookup = Failed | Finds(stacks: map<StackId, Stack>)

  datatype WaitError = LookupFailed | PleaseRetry

  predicate Serves(l: Lookup, task: TaskId, units: int, user: UserId, id: StackId) {
    l.Finds? && id in l.stacks && OpenFor(l.stacks[id], task, units, user)
  }

  /** A lookup that ends the wait: the state manager failed, or a stack was there. */
  predicate Decides(l: Lookup, task: TaskId, units: int, user: UserId) {
    l.Failed? || exists id :: id in l.stacks && Serves(l, task, units, user, id)
  }

  /** Some lookup finds a stack, and none before it failed. */
  ghost predicate Reservable(lookups: seq<Lookup>, task: TaskId, units: int, user: UserId) {
    exists i :: 0 <= i < |lookups| && lookups[i].Finds? && Decides(lookups[i], task, units, user)
             && forall k :: 0 <= k < i ==> !lookups[k].Failed?
  }

  /** `get_stack_if_locked_with_request_model`.  `effects[i]` is the table right after the i-th
      lookup, which is as others had left it unless that lookup reserved units on a row. */
  method GetStackIfLocked(locks: LockMap, table: Table, user: UserId, task: TaskId, units: int, lookups: seq<Lookup>)
      returns (r: Result<StackId, WaitError>, ghost effects: seq<map<StackId, Stack>>)
    requires |lookups| == MAX_STACK_WAIT_ATTEMPTS
    modifies table`stacks
    ensures |effects| <= MAX_STACK_WAIT_ATTEMPTS && (effects != [] ==> (user, task) in locks.entries)
    ensures table.stacks == if effects == [] then old(table.stacks) else effects[|effects| - 1]
    ensures forall i :: 0 <= i < |effects| && lookups[i].Finds? ==>
              effects[i] == if r.Ok? && i == |effects| - 1 then Reserved(lookups[i].stacks, r.value, units) else lookups[i].stacks
    ensures forall i :: 0 <= i < |effects| - 1 ==> !Decides(lookups[i], task, units, user)
    ensures r.Ok? ==> effects != [] && Serves(lookups[|effects| - 1], task, units, user, r.value)
    ensures r == Err(LookupFailed) ==> effects != [] && lookups[|effects| - 1].Failed?
    ensures r == Err(PleaseRetry) && effects != [] ==>
              |effects| == MAX_STACK_WAIT_ATTEMPTS && !Decides(lookups[|effects| - 1], task, units, user)
    ensures effects == [] <==> !((user, task) in locks.entries && locks.entries[(user, task)])
    ensures r.Ok? <==> effects != [] && Reservable(lookups, task, units, user)
  {
    effects := [];
    if (user, task) in locks.entries && locks.entries[(user, task)] {
      for i := 0 to MAX_STACK_WAIT_ATTEMPTS
        invariant |effects| == i
        invariant table.stacks == if effects == [] then old(table.stacks) else effects[i - 1]
        invariant forall k :: 0 <= k < i ==> lookups[k].Finds? && effects[k] == lookups[k].stacks
        invariant forall k :: 0 <= k < i ==> !Decides(lookups[k], task, units, user)
      {
        if lookups[i].Failed? {
          effects := effects + [table.stacks];
          assert Decides(lookups[i], task, units, user);
          return Err(LookupFailed), effects;
        }
        table.stacks := lookups[i].stacks;
        var found := table.GetStacksForTask(task, units, user);
        effects := effects + [table.stacks];
        if found.Some? {
          assert Serves(lookups[i], task, units, user, found.value);
          assert Decides(lookups[i], task, units, user);
          return Ok(found.value), effects;
        }
      }
    }
    return Err(PleaseRetry), effects;
  }

  /** The rows with the units of one request locked on one of them. */
  function Reserved(stacks: map<StackId, Stack>, id: StackId, units: int): map<StackId, Stack> {
    map k | k in stacks :: if k == id then stacks[k].(locked := stacks[k].locked + units) else stacks[k]
  }
}
