/** The fiat ledger: a request reserves the amount it may cost, and settles the amount it did
    cost through the event queue; the settlements also feed the usage tables. */
module Fiat {
  import opened Base
  import opened Events

  const ONE_MILLION := 1_000_000
  const TWO_128: int := 0x1_0000_0000_0000_0000_0000_0000_0000_0000

  // ---------------------------------------------------------------- amounts

  /** What the middleware reserves: an i64 product, then a division. */
  function Reserved(tokens: int, price: int): int {
    TruncDiv(ToI64(tokens * price), ONE_MILLION)
  }

  /** What a settlement reports: a u128 product of the operands `as u128`, then a division and
      a checked conversion. */
  function Reported(tokens: int, price: int): Option<int> {
    var amount := (tokens % TWO_128) * (price % TWO_128) % TWO_128 / ONE_MILLION;
    if IsI64(amount) then Some(amount) else None
  }

  lemma ReportedIs(tokens: int, price: int)
    requires 0 <= tokens < TWO_63 && 0 <= price < TWO_63
    ensures Reported(tokens, price) == if tokens * price / ONE_MILLION < TWO_63 then Some(tokens * price / ONE_MILLION) else None
  {
    ProductBound(tokens, price);
    SmallRemainder(tokens, TWO_128);
    SmallRemainder(price, TWO_128);
    SmallRemainder(tokens * price, TWO_128);
  }

  lemma SmallRemainder(x: int, m: int)
    requires 0 <= x < m
    ensures x % m == x
  {
  }

  lemma ProductBound(a: int, b: int)
    requires 0 <= a < TWO_63 && 0 <= b < TWO_63
    ensures 0 <= a * b <= (TWO_63 - 1) * (TWO_63 - 1)
  {
    ProductMonotone(a, b, TWO_63 - 1);
  }

  lemma ProductMonotone(a: int, b: int, c: int)
    requires 0 <= a <= c && 0 <= b <= c
    ensures 0 <= a * b <= c * c
  {
    assert a * b <= a * c <= c * c;
  }

  /** The settlement names the amount that was reserved exactly when the reservation's product
      did not overflow. */
  lemma ReserveMatchesEstimate(tokens: int, price: int)
    requires 0 <= tokens < TWO_63 && 0 <= price < TWO_63
    ensures Reported(tokens, price) == Some(Reserved(tokens, price)) <==> tokens * price < TWO_63
  {
    ReportedIs(tokens, price);
    ProductBound(tokens, price);
    var p := tokens * price;
    WrappedQuotient(p);
  }

  lemma WrappedQuotient(p: int)
    requires p >= 0
    ensures TruncDiv(ToI64(p), ONE_MILLION) == p / ONE_MILLION <==> p < TWO_63
  {
    if p >= TWO_63 {
      var w := ToI64(p);
      assert w < TWO_63;
      if w >= 0 {
        assert p == w + TWO_64 * ((p + TWO_63) / TWO_64);
        assert (p + TWO_63) / TWO_64 >= 1;
        assert p >= w + TWO_64;
        assert p / ONE_MILLION >= (w + TWO_64) / ONE_MILLION > w / ONE_MILLION;
      }
    }
  }

  /** The amount reserved grows with the tokens. */
  lemma ReservedMonotone(fewer: int, more: int, price: int)
    requires 0 <= fewer <= more && 0 <= price && more * price < TWO_63
    ensures 0 <= Reserved(fewer, price) <= Reserved(more, price)
  {
    assert 0 <= fewer * price <= more * price;
  }

  datatype FiatRequest = FiatRequest(user: UserId, model: Model, inputTokens: int, inputPrice: int, outputTokens: int, outputPrice: int)
  {
    function Input(): int {
      Reserved(inputTokens, inputPrice)
    }

    function Output(): int {
      Reserved(outputTokens, outputPrice)
    }

    /** Neither product overflows. */
    predicate Exact() {
      && 0 <= inputTokens < TWO_63 && 0 <= inputPrice < TWO_63 && inputTokens * inputPrice < TWO_63
      && 0 <= outputTokens < TWO_63 && 0 <= outputPrice < TWO_63 && outputTokens * outputPrice < TWO_63
    }

    /** The exact cost in millionths of a unit. */
    function Cost(): int {
      inputTokens * inputPrice + outputTokens * outputPrice
    }

    /** `update_state_manager_fiat`: nothing is sent when an amount does not fit. */
    function Settlement(input: int, output: int): Option<Event> {
      var estimatedInput, estimatedOutput := Reported(inputTokens, inputPrice), Reported(outputTokens, outputPrice);
      var realInput, realOutput := Reported(input, inputPrice), Reported(output, outputPrice);
      if estimatedInput.Some? && estimatedOutput.Some? && realInput.Some? && realOutput.Some? then
        Some(UpdateStackNumTokensFiat(user, model, estimatedInput.value, realInput.value, input, estimatedOutput.value, realOutput.value, output))
      else None
    }
  }

  /** What the middleware reserves for a request, without overflow: each side at its own price. */
  lemma ReservationIs(r: FiatRequest)
    requires r.Exact()
    ensures r.Input() == r.inputTokens * r.inputPrice / ONE_MILLION
    ensures r.Output() == r.outputTokens * r.outputPrice / ONE_MILLION
  {
    ProductBound(r.inputTokens, r.inputPrice);
    ProductBound(r.outputTokens, r.outputPrice);
  }

  /** The token counts and prices of a settlement are non-negative i64s. */
  predicate InRange(r: FiatRequest, input: int, output: int) {
    && 0 <= r.inputTokens < TWO_63 && 0 <= r.outputTokens < TWO_63 && 0 <= r.inputPrice < TWO_63 && 0 <= r.outputPrice < TWO_63
    && 0 <= input < TWO_63 && 0 <= output < TWO_63
  }

  /** The four amounts of a settlement fit an i64. */
  predicate AmountsFit(r: FiatRequest, input: int, output: int) {
    && r.inputTokens * r.inputPrice / ONE_MILLION < TWO_63 && r.outputTokens * r.outputPrice / ONE_MILLION < TWO_63
    && input * r.inputPrice / ONE_MILLION < TWO_63 && output * r.outputPrice / ONE_MILLION < TWO_63
  }

  /** A settlement is sent exactly when its four amounts fit; it bills the tokens used, each
      side at its own price, and takes back what was estimated. */
  lemma SettlementBills(r: FiatRequest, input: int, output: int)
    requires InRange(r, input, output)
    ensures r.Settlement(input, output).Some? <==> AmountsFit(r, input, output)
    ensures r.Settlement(input, output).Some? ==>
              r.Settlement(input, output).value == UpdateStackNumTokensFiat(
                r.user, r.model,
                r.inputTokens * r.inputPrice / ONE_MILLION, input * r.inputPrice / ONE_MILLION, input,
                r.outputTokens * r.outputPrice / ONE_MILLION, output * r.outputPrice / ONE_MILLION, output)
  {
    ReportedIs(r.inputTokens, r.inputPrice);
    ReportedIs(r.outputTokens, r.outputPrice);
    ReportedIs(input, r.inputPrice);
    ReportedIs(output, r.outputPrice);
    hide Reported;
  }

  /** `update_state_manager_fiat`.  The first amount that does not fit ends it without an event. */
  method UpdateStateManagerFiat(ch: Channel, r: FiatRequest, input: int, output: int) returns (ok: bool)
    requires InRange(r, input, output)
    modifies ch
    ensures ok <==> AmountsFit(r, input, output) && old(ch.accepts) > 0
    ensures ch.sent == if ok then old(ch.sent) + [UpdateStackNumTokensFiat(
                r.user, r.model,
                r.inputTokens * r.inputPrice / ONE_MILLION, input * r.inputPrice / ONE_MILLION, input,
                r.outputTokens * r.outputPrice / ONE_MILLION, output * r.outputPrice / ONE_MILLION, output)] else old(ch.sent)
  {
    var estimatedInput := ToAmount(r.inputTokens, r.inputPrice);
    if estimatedInput.None? {
      return false;
    }
    var estimatedOutput := ToAmount(r.outputTokens, r.outputPrice);
    if estimatedOutput.None? {
      return false;
    }
    var inputAmount := ToAmount(input, r.inputPrice);
    if inputAmount.None? {
      return false;
    }
    var outputAmount := ToAmount(output, r.outputPrice);
    if outputAmount.None? {
      return false;
    }
    ok := ch.Send(UpdateStackNumTokensFiat(r.user, r.model, estimatedInput.value, inputAmount.value, input,
                                           estimatedOutput.value, outputAmount.value, output));
  }

  /** The product as a u128, the division, and the checked conversion. */
  method ToAmount(tokens: int, price: int) returns (amount: Option<int>)
    requires 0 <= tokens < TWO_63 && 0 <= price < TWO_63
    ensures amount == if tokens * price / ONE_MILLION < TWO_63 then Some(tokens * price / ONE_MILLION) else None
  {
    ProductBound(tokens, price);
    SmallRemainder(tokens * price, TWO_128);
    var quotient := tokens * price % TWO_128 / ONE_MILLION;
    if IsI64(quotient) {
      return Some(quotient);
    }
    return None;
  }

  /** The rounding of any number of reservations never favours the proxy, and costs it less
      than two units each. */
  lemma {:induction false} RoundingBound(requests: seq<FiatRequest>)
    requires forall r :: r in requests ==> r.Exact()
    ensures var reserved := SumSeq(requests, (r: FiatRequest) => r.Input() + r.Output());
            var cost := SumSeq(requests, (r: FiatRequest) => r.Cost());
            ONE_MILLION * reserved <= cost && (requests != [] ==> cost < ONE_MILLION * (reserved + 2 * |requests|))
  {
    if requests != [] {
      var r := requests[|requests| - 1];
      RoundingBound(requests[..|requests| - 1]);
      assert r.Exact();
      assert 0 <= r.inputTokens * r.inputPrice && 0 <= r.outputTokens * r.outputPrice;
    }
  }

  // ---------------------------------------------------------------- the tables

  datatype FiatRow = FiatRow(usd: int, reservedInput: int, debitedInput: int, reservedOutput: int, debitedOutput: int, requests: int)
  {
    function Taken(): int {
      debitedOutput + debitedInput + reservedOutput + reservedInput
    }

    /** `lock_user_fiat_balance`. */
    predicate Affords(input: int, output: int) {
      usd >= Taken() + input + output
    }

    function Locking(input: int, output: int): FiatRow {
      this.(reservedInput := reservedInput + input, reservedOutput := reservedOutput + output)
    }

    /** `update_real_amount_fiat_balance`. */
    function Settling(e: Event): FiatRow
      requires e.UpdateStackNumTokensFiat?
    {
      this.(reservedInput := reservedInput - e.estimatedInput, debitedInput := debitedInput + e.input,
            reservedOutput := reservedOutput - e.estimatedOutput, debitedOutput := debitedOutput + e.output,
            requests := requests + if e.output > 0 then 1 else 0)
    }
  }

  /** When the middleware fails after reserving, it settles the estimates with nothing used.
      That gives back what was reserved, and changes nothing else, exactly when neither
      product overflowed. */
  lemma RollbackRestoresIff(row: FiatRow, r: FiatRequest)
    requires 0 <= r.inputTokens < TWO_63 && 0 <= r.inputPrice < TWO_63
    requires 0 <= r.outputTokens < TWO_63 && 0 <= r.outputPrice < TWO_63
    ensures r.Exact() <==> r.Settlement(0, 0).Some? && row.Locking(r.Input(), r.Output()).Settling(r.Settlement(0, 0).value) == row
  {
    ReserveMatchesEstimate(r.inputTokens, r.inputPrice);
    ReserveMatchesEstimate(r.outputTokens, r.outputPrice);
    ReportedIs(0, r.inputPrice);
    ReportedIs(0, r.outputPrice);
    hide Reserved, Reported;
  }

  type Day = int

  datatype UsageKey = UsageKey(user: UserId, model: Model, day: Day)

  datatype Usage = Usage(input: int, inputTokens: int, output: int, outputTokens: int)

  /** `update_per_day_table`. */
  function Upsert(usage: map<UsageKey, Usage>, day: Day, e: Event): map<UsageKey, Usage>
    requires e.UpdateStackNumTokensFiat?
  {
    var key := UsageKey(e.user, e.model, day);
    var old_ := if key in usage then usage[key] else Usage(0, 0, 0, 0);
    usage[key := Usage(old_.input + e.input, old_.inputTokens + e.inputTokens,
                       old_.output + e.output, old_.outputTokens + e.outputTokens)]
  }

  datatype Tables = Tables(rows: map<UserId, FiatRow>, usage: map<UsageKey, Usage>)

  /** The handler of `UpdateStackNumTokensFiat`; it stops when the user has no row. */
  function Handle(t: Tables, day: Day, e: Event): Tables
    requires e.UpdateStackNumTokensFiat?
  {
    if e.user !in t.rows then t
    else Tables(t.rows[e.user := t.rows[e.user].Settling(e)],
                if e.outputTokens > 0 then Upsert(t.usage, day, e) else t.usage)
  }

  class FiatTables {
    var rows: map<UserId, FiatRow>
    var usage: map<UsageKey, Usage>

    function View(): Tables
      reads this
    {
      Tables(rows, usage)
    }

    constructor (rows: map<UserId, FiatRow>)
      ensures View() == Tables(rows, map[])
    {
      this.rows := rows;
      this.usage := map[];
    }

    method LockUserFiatBalance(user: UserId, input: int, output: int) returns (ok: bool)
      modifies this`rows
      ensures ok <==> user in old(rows) && old(rows)[user].Affords(input, output)
      ensures rows == if ok then old(rows)[user := old(rows)[user].Locking(input, output)] else old(rows)
      ensures ok <==> user in old(rows) && var row := old(rows)[user];
                row.debitedInput + row.debitedOutput + row.reservedInput + row.reservedOutput + input + output <= row.usd
      ensures ok ==> rows[user].Taken() <= rows[user].usd
    {
      if user !in rows {
        return false;
      }
      var row := rows[user];
      ok := row.usd >= row.debitedOutput + row.debitedInput + row.reservedOutput + row.reservedInput + input + output;
      if ok {
        rows := rows[user := row.(reservedInput := row.reservedInput + input,
                                  reservedOutput := row.reservedOutput + output)];
      }
    }

    method UpdateRealAmountFiatBalance(e: Event) returns (ok: bool)
      requires e.UpdateStackNumTokensFiat?
      modifies this`rows
      ensures ok <==> e.user in old(rows)
      ensures rows == if ok then old(rows)[e.user := old(rows)[e.user].Settling(e)] else old(rows)
    {
      ok := e.user in rows;
      if ok {
        var row := rows[e.user];
        row := row.(reservedInput := row.reservedInput - e.estimatedInput, debitedInput := row.debitedInput + e.input);
        row := row.(reservedOutput := row.reservedOutput - e.estimatedOutput, debitedOutput := row.debitedOutput + e.output);
        if e.output > 0 {
          row := row.(requests := row.requests + 1);
        }
        rows := rows[e.user := row];
      }
    }

    method UpdatePerDayTable(day: Day, e: Event)
      requires e.UpdateStackNumTokensFiat?
      modifies this`usage
      ensures usage == Upsert(old(usage), day, e)
    {
      var key := UsageKey(e.user, e.model, day);
      if key !in usage {
        usage := usage[key := Usage(e.input, e.inputTokens, e.output, e.outputTokens)];
      } else {
        var row := usage[key];
        usage := usage[key := Usage(row.input + e.input, row.inputTokens + e.inputTokens,
                                    row.output + e.output, row.outputTokens + e.outputTokens)];
      }
    }

    /** `handle_state_manager_event` on `UpdateStackNumTokensFiat`. */
    method HandleUpdateStackNumTokensFiat(day: Day, e: Event) returns (ok: bool)
      requires e.UpdateStackNumTokensFiat?
      modifies this
      ensures ok <==> e.user in old(rows)
      ensures View() == Handle(old(View()), day, e)
    {
      ok := UpdateRealAmountFiatBalance(e);
      if ok && e.outputTokens > 0 {
        UpdatePerDayTable(day, e);
      }
    }
  }

  // ---------------------------------------------------------------- the protocol

  datatype Logged = Logged(day: Day, e: Event)

  datatype FiatState = FiatState(tables: Tables, inFlight: multiset<FiatRequest>, stranded: seq<FiatRequest>, log: seq<Logged>)

  datatype FiatAction =
    | LockFiat(r: FiatRequest)
    | SettleFiat(r: FiatRequest, input: int, output: int)
    | AddFunds(user: UserId, amount: nat)

  predicate CanFiat(f: FiatState, a: FiatAction) {
    a.SettleFiat? ==> a.r in f.inFlight
  }

  datatype FiatOutcome = FiatOutcome(state: FiatState, sent: seq<Event>)

  function ApplyFiat(f: FiatState, a: FiatAction): FiatOutcome
  {
    match a
    case LockFiat(r) => FiatOutcome(Locks(f, r), [])
    case SettleFiat(r, input, output) =>
      var rest := f.inFlight - multiset{r};
      (match r.Settlement(input, output)
       case Some(e) => FiatOutcome(f.(inFlight := rest), [e])
       case None => FiatOutcome(f.(inFlight := rest, stranded := f.stranded + [r]), []))
    case AddFunds(user, amount) => FiatOutcome(Funds(f, user, amount), [])
  }

  function Locks(f: FiatState, r: FiatRequest): FiatState {
    var rows := f.tables.rows;
    if r.user in rows && rows[r.user].Affords(r.Input(), r.Output()) then
      f.(tables := f.tables.(rows := rows[r.user := rows[r.user].Locking(r.Input(), r.Output())]),
         inFlight := f.inFlight + multiset{r})
    else f
  }

  function Funds(f: FiatState, user: UserId, amount: nat): FiatState {
    var row := RowOf(f, user);
    f.(tables := f.tables.(rows := f.tables.rows[user := row.(usd := row.usd + amount)]))
  }

  function ConsumeFiat(f: FiatState, day: Day, e: Event): FiatState {
    if e.UpdateStackNumTokensFiat? && e.user in f.tables.rows then
      f.(tables := Handle(f.tables, day, e), log := f.log + [Logged(day, e)])
    else f
  }

  function RowOf(f: FiatState, user: UserId): FiatRow {
    if user in f.tables.rows then f.tables.rows[user] else FiatRow(0, 0, 0, 0, 0, 0)
  }

  // ---------------------------------------------------------------- reserved amounts

  datatype Kind = Input | Output

  function ReservedIn(row: FiatRow, kind: Kind): int {
    if kind.Input? then row.reservedInput else row.reservedOutput
  }

  function DebitedIn(row: FiatRow, kind: Kind): int {
    if kind.Input? then row.debitedInput else row.debitedOutput
  }

  function EstimateOf(user: UserId, kind: Kind): FiatRequest -> int {
    (r: FiatRequest) => if r.user != user then 0 else if kind.Input? then r.Input() else r.Output()
  }

  function EstimateIn(user: UserId, kind: Kind): Event -> int {
    (e: Event) =>
      if !(e.UpdateStackNumTokensFiat? && e.user == user) then 0
      else if kind.Input? then e.estimatedInput else e.estimatedOutput
  }

  ghost function Unsettled(inFlight: multiset<FiatRequest>, stranded: seq<FiatRequest>, queue: seq<Event>, user: UserId, kind: Kind): int {
    SumBag(inFlight, EstimateOf(user, kind)) + SumSeq(stranded, EstimateOf(user, kind)) + SumSeq(queue, EstimateIn(user, kind))
  }

  /** Every request in flight, and every settlement on its way, belongs to a user with a row. */
  ghost predicate Known(f: FiatState, queue: seq<Event>) {
    && (forall r :: r in f.inFlight ==> r.user in f.tables.rows)
    && (forall e :: e in queue && e.UpdateStackNumTokensFiat? ==> e.user in f.tables.rows)
  }

  predicate AllExact(f: FiatState) {
    forall r :: r in f.inFlight ==> r.Exact()
  }

  /** The reserved amounts are the sums of the unsettled estimates. */
  ghost predicate Reconciled(f: FiatState, queue: seq<Event>) {
    forall user: UserId, kind: Kind {:trigger Unsettled(f.inFlight, f.stranded, queue, user, kind)} ::
      ReservedIn(RowOf(f, user), kind) == Unsettled(f.inFlight, f.stranded, queue, user, kind)
  }

  /** The settlement of an exact request names its estimates. */
  lemma SettlementEstimates(r: FiatRequest, input: int, output: int)
    requires r.Exact() && r.Settlement(input, output).Some?
    ensures var e := r.Settlement(input, output).value;
            e.UpdateStackNumTokensFiat? && e.user == r.user && e.estimatedInput == r.Input() && e.estimatedOutput == r.Output()
  {
    ReserveMatchesEstimate(r.inputTokens, r.inputPrice);
    ReserveMatchesEstimate(r.outputTokens, r.outputPrice);
    hide Reserved, Reported;
  }

  lemma StepKeepsReconciled(f: FiatState, queue: seq<Event>, a: FiatAction)
    requires AllExact(f) && Reconciled(f, queue) && CanFiat(f, a)
    ensures Reconciled(ApplyFiat(f, a).state, queue + ApplyFiat(f, a).sent)
  {
    var v, sent := ApplyFiat(f, a).state, ApplyFiat(f, a).sent;
    forall user: UserId, kind: Kind
      ensures ReservedIn(RowOf(v, user), kind) == Unsettled(v.inFlight, v.stranded, queue + sent, user, kind)
    {
      assert ReservedIn(RowOf(f, user), kind) == Unsettled(f.inFlight, f.stranded, queue, user, kind);
      StepReserves(f, queue, a, user, kind);
    }
  }

  lemma StepReserves(f: FiatState, queue: seq<Event>, a: FiatAction, user: UserId, kind: Kind)
    requires AllExact(f) && CanFiat(f, a)
    ensures var o := ApplyFiat(f, a);
            ReservedIn(RowOf(o.state, user), kind) - ReservedIn(RowOf(f, user), kind)
            == Unsettled(o.state.inFlight, o.state.stranded, queue + o.sent, user, kind) - Unsettled(f.inFlight, f.stranded, queue, user, kind)
  {
    hide Unsettled, FiatRow.Affords, FiatRequest.Settlement, FiatRequest.Exact, FiatRequest.Input, FiatRequest.Output;
    assert queue + [] == queue;
    match a
    case LockFiat(r) => LockUnsettled(f.inFlight, f.stranded, queue, r, user, kind);
    case SettleFiat(r, input, output) => SettleUnsettled(f.inFlight, f.stranded, queue, r, input, output, user, kind);
    case AddFunds(_, _) =>
  }

  lemma LockUnsettled(inFlight: multiset<FiatRequest>, stranded: seq<FiatRequest>, queue: seq<Event>, r: FiatRequest, user: UserId, kind: Kind)
    ensures Unsettled(inFlight + multiset{r}, stranded, queue, user, kind)
         == Unsettled(inFlight, stranded, queue, user, kind) + (if r.user != user then 0 else if kind.Input? then r.Input() else r.Output())
  {
    hide SumBag, SumSeq, FiatRequest.Input, FiatRequest.Output;
    SumBagAdd(inFlight, r, EstimateOf(user, kind));
  }

  lemma SettleUnsettled(inFlight: multiset<FiatRequest>, stranded: seq<FiatRequest>, queue: seq<Event>, r: FiatRequest, input: int, output: int,
                        user: UserId, kind: Kind)
    requires r in inFlight && r.Exact()
    ensures var rest := inFlight - multiset{r};
            Unsettled(inFlight, stranded, queue, user, kind)
            == match r.Settlement(input, output)
               case Some(e) => Unsettled(rest, stranded, queue + [e], user, kind)
               case None => Unsettled(rest, stranded + [r], queue, user, kind)
  {
    SumBagRemove(inFlight, r, EstimateOf(user, kind));
    SumSeqPush(stranded, r, EstimateOf(user, kind));
    if r.Settlement(input, output).Some? {
      SettlementEstimates(r, input, output);
      SumSeqPush(queue, r.Settlement(input, output).value, EstimateIn(user, kind));
    }
    hide SumBag, SumSeq, FiatRequest.Input, FiatRequest.Output, FiatRequest.Settlement, FiatRequest.Exact;
  }

  lemma ConsumeKeepsReconciled(f: FiatState, queue: seq<Event>, day: Day)
    requires Known(f, queue) && Reconciled(f, queue) && queue != []
    ensures Reconciled(ConsumeFiat(f, day, queue[0]), queue[1..])
  {
    var v, e := ConsumeFiat(f, day, queue[0]), queue[0];
    assert e in queue;
    forall user: UserId, kind: Kind
      ensures ReservedIn(RowOf(v, user), kind) == Unsettled(v.inFlight, v.stranded, queue[1..], user, kind)
    {
      assert ReservedIn(RowOf(f, user), kind) == Unsettled(f.inFlight, f.stranded, queue, user, kind);
      hide SumBag, SumSeq, Reconciled, Upsert;
      SumSeqHead(queue, EstimateIn(user, kind));
    }
  }

  lemma OtherEventsKeepReconciled(f: FiatState, queue: seq<Event>, e: Event)
    requires Reconciled(f, queue) && !e.UpdateStackNumTokensFiat?
    ensures Reconciled(f, queue + [e])
  {
    forall user: UserId, kind: Kind
      ensures ReservedIn(RowOf(f, user), kind) == Unsettled(f.inFlight, f.stranded, queue + [e], user, kind)
    {
      assert ReservedIn(RowOf(f, user), kind) == Unsettled(f.inFlight, f.stranded, queue, user, kind);
      SumSeqPush(queue, e, EstimateIn(user, kind));
    }
  }

  lemma StepKeepsKnown(f: FiatState, queue: seq<Event>, a: FiatAction)
    requires Known(f, queue) && CanFiat(f, a)
    ensures Known(ApplyFiat(f, a).state, queue + ApplyFiat(f, a).sent)
  {
    hide Reserved, Reported, FiatRow.Affords, FiatRequest.Exact, FiatRequest.Input, FiatRequest.Output;
    if a.SettleFiat? {
      assert a.r in f.inFlight;
    }
  }

  lemma StepKeepsExact(f: FiatState, a: FiatAction)
    requires AllExact(f) && CanFiat(f, a) && (a.LockFiat? ==> a.r.Exact())
    ensures AllExact(ApplyFiat(f, a).state)
  {
    hide FiatRow.Affords, FiatRequest.Settlement, FiatRequest.Exact, FiatRequest.Input, FiatRequest.Output;
  }

  lemma ConsumeKeepsKnown(f: FiatState, queue: seq<Event>, day: Day)
    requires Known(f, queue) && queue != []
    ensures Known(ConsumeFiat(f, day, queue[0]), queue[1..])
  {
    hide Upsert;
  }

  // ---------------------------------------------------------------- no one overdraws

  function OverrunOf(user: UserId): Logged -> int {
    (l: Logged) =>
      if l.e.UpdateStackNumTokensFiat? && l.e.user == user
      then Max(0, l.e.input + l.e.output - l.e.estimatedInput - l.e.estimatedOutput) else 0
  }

  ghost predicate Within(row: FiatRow, log: seq<Logged>, user: UserId) {
    row.Taken() <= row.usd + SumSeq(log, OverrunOf(user))
  }

  /** Debited and reserved amounts together stay within the user's funds, but for what
      settlements cost more than they had estimated. */
  ghost predicate Safe(f: FiatState) {
    forall user: UserId :: Within(RowOf(f, user), f.log, user)
  }

  lemma StepKeepsSafe(f: FiatState, a: FiatAction)
    requires Safe(f) && CanFiat(f, a)
    ensures Safe(ApplyFiat(f, a).state)
  {
    var v := ApplyFiat(f, a).state;
    forall user: UserId
      ensures Within(RowOf(v, user), v.log, user)
    {
      assert Within(RowOf(f, user), f.log, user);
      StepWithin(f, a, user);
    }
  }

  lemma StepWithin(f: FiatState, a: FiatAction, user: UserId)
    requires Within(RowOf(f, user), f.log, user)
    ensures var v := ApplyFiat(f, a).state; Within(RowOf(v, user), v.log, user)
  {
    hide Within, FiatRequest.Settlement, FiatRequest.Input, FiatRequest.Output, FiatRow.Affords;
    if a.LockFiat? {
      LockWithin(RowOf(f, user), f.log, user, a.r.Input(), a.r.Output());
    } else if a.AddFunds? {
      FundsWithin(RowOf(f, user), f.log, user, a.amount);
    }
  }

  lemma LockWithin(row: FiatRow, log: seq<Logged>, user: UserId, input: int, output: int)
    ensures row.Affords(input, output) ==> Within(row.Locking(input, output), log, user)
  {
    SumSeqNonNegative(log, OverrunOf(user));
  }

  lemma FundsWithin(row: FiatRow, log: seq<Logged>, user: UserId, amount: nat)
    requires Within(row, log, user)
    ensures Within(row.(usd := row.usd + amount), log, user)
  {
  }

  lemma ConsumeKeepsSafe(f: FiatState, day: Day, e: Event)
    requires Safe(f)
    ensures Safe(ConsumeFiat(f, day, e))
  {
    var v := ConsumeFiat(f, day, e);
    forall user: UserId
      ensures Within(RowOf(v, user), v.log, user)
    {
      assert Within(RowOf(f, user), f.log, user);
      ConsumeWithin(f, day, e, user);
    }
  }

  lemma ConsumeWithin(f: FiatState, day: Day, e: Event, user: UserId)
    requires Within(RowOf(f, user), f.log, user)
    ensures var v := ConsumeFiat(f, day, e); Within(RowOf(v, user), v.log, user)
  {
    hide Within, Upsert;
    if e.UpdateStackNumTokensFiat? {
      SettleWithin(RowOf(f, user), f.log, day, e, user);
    }
  }

  lemma SettleWithin(row: FiatRow, log: seq<Logged>, day: Day, e: Event, user: UserId)
    requires e.UpdateStackNumTokensFiat? && Within(row, log, user)
    ensures Within(if e.user == user then row.Settling(e) else row, log + [Logged(day, e)], user)
  {
    hide SumSeq;
    SumSeqPush(log, Logged(day, e), OverrunOf(user));
  }

  // ---------------------------------------------------------------- usage

  datatype Field = InputAmount | InputTokens | OutputAmount | OutputTokens

  function UsageIn(u: Usage, field: Field): int {
    match field
    case InputAmount => u.input
    case InputTokens => u.inputTokens
    case OutputAmount => u.output
    case OutputTokens => u.outputTokens
  }

  function EventIn(e: Event, field: Field): int {
    if !e.UpdateStackNumTokensFiat? then 0
    else
      match field
      case InputAmount => e.input
      case InputTokens => e.inputTokens
      case OutputAmount => e.output
      case OutputTokens => e.outputTokens
  }

  predicate Recorded(l: Logged, key: UsageKey) {
    l.e.UpdateStackNumTokensFiat? && l.e.outputTokens > 0 && key == UsageKey(l.e.user, l.e.model, l.day)
  }

  function RecordedIn(key: UsageKey, field: Field): Logged -> int {
    (l: Logged) => if Recorded(l, key) then EventIn(l.e, field) else 0
  }

  function UsageAt(usage: map<UsageKey, Usage>, key: UsageKey): Usage {
    if key in usage then usage[key] else Usage(0, 0, 0, 0)
  }

  /** Every row of the per-day table is the group-by sum of the settlements handled. */
  ghost predicate Grouped(f: FiatState) {
    forall key: UsageKey, field: Field {:trigger SumSeq(f.log, RecordedIn(key, field))} ::
      UsageIn(UsageAt(f.tables.usage, key), field) == SumSeq(f.log, RecordedIn(key, field))
  }

  lemma ConsumeKeepsGrouped(f: FiatState, day: Day, e: Event)
    requires Grouped(f)
    ensures Grouped(ConsumeFiat(f, day, e))
  {
    var v := ConsumeFiat(f, day, e);
    forall key: UsageKey, field: Field
      ensures UsageIn(UsageAt(v.tables.usage, key), field) == SumSeq(v.log, RecordedIn(key, field))
    {
      assert UsageIn(UsageAt(f.tables.usage, key), field) == SumSeq(f.log, RecordedIn(key, field));
      hide SumSeq, Grouped;
      SumSeqPush(f.log, Logged(day, e), RecordedIn(key, field));
    }
  }

  function UsageOf(user: UserId, kind: Kind): (UsageKey, Usage) -> int {
    (key: UsageKey, u: Usage) => if key.user != user then 0 else if kind.Input? then u.input else u.output
  }

  /** Amounts of settlements without output tokens, which no usage row shows. */
  function UnrecordedOf(user: UserId, kind: Kind): Logged -> int {
    (l: Logged) =>
      if !(l.e.UpdateStackNumTokensFiat? && l.e.user == user && l.e.outputTokens <= 0) then 0
      else if kind.Input? then l.e.input else l.e.output
  }

  ghost function Used(usage: map<UsageKey, Usage>, log: seq<Logged>, user: UserId, kind: Kind): int {
    SumMap(usage, UsageOf(user, kind)) + SumSeq(log, UnrecordedOf(user, kind))
  }

  /** What a user was debited is what their usage rows show, plus what no row shows. */
  ghost predicate Shown(f: FiatState) {
    forall user: UserId, kind: Kind {:trigger Used(f.tables.usage, f.log, user, kind)} ::
      DebitedIn(RowOf(f, user), kind) == Used(f.tables.usage, f.log, user, kind)
  }

  lemma ConsumeKeepsShown(f: FiatState, day: Day, e: Event)
    requires Shown(f)
    ensures Shown(ConsumeFiat(f, day, e))
  {
    var v := ConsumeFiat(f, day, e);
    forall user: UserId, kind: Kind
      ensures DebitedIn(RowOf(v, user), kind) == Used(v.tables.usage, v.log, user, kind)
    {
      assert DebitedIn(RowOf(f, user), kind) == Used(f.tables.usage, f.log, user, kind);
      hide SumSeq, SumMap, Shown;
      if v != f {
        SumSeqPush(f.log, Logged(day, e), UnrecordedOf(user, kind));
        var key := UsageKey(e.user, e.model, day);
        SumMapUpsert(f.tables.usage, key, Upsert(f.tables.usage, day, e)[key], UsageOf(user, kind));
      }
    }
  }

  /** Requests counted are the settlements handled that cost something on output. */
  function CountedFor(user: UserId): Logged -> int {
    (l: Logged) => if l.e.UpdateStackNumTokensFiat? && l.e.user == user && l.e.output > 0 then 1 else 0
  }

  ghost predicate Counted(f: FiatState) {
    forall user: UserId {:trigger SumSeq(f.log, CountedFor(user))} ::
      RowOf(f, user).requests == SumSeq(f.log, CountedFor(user))
  }

  lemma ConsumeKeepsCounted(f: FiatState, day: Day, e: Event)
    requires Counted(f)
    ensures Counted(ConsumeFiat(f, day, e))
  {
    var v := ConsumeFiat(f, day, e);
    forall user: UserId
      ensures RowOf(v, user).requests == SumSeq(v.log, CountedFor(user))
    {
      assert RowOf(f, user).requests == SumSeq(f.log, CountedFor(user));
      hide SumSeq, Counted, Upsert;
      SumSeqPush(f.log, Logged(day, e), CountedFor(user));
    }
  }

  /** Reserving, settling and funding leave the debits and the usage alone. */
  lemma StepKeepsUsage(f: FiatState, a: FiatAction)
    requires Grouped(f) && Shown(f) && Counted(f)
    ensures var v := ApplyFiat(f, a).state; Grouped(v) && Shown(v) && Counted(v)
  {
    var v := ApplyFiat(f, a).state;
    StepKeepsDebits(f, a);
    hide ApplyFiat, RowOf;
    forall user: UserId, kind: Kind
      ensures DebitedIn(RowOf(v, user), kind) == Used(v.tables.usage, v.log, user, kind)
    {
      assert DebitedIn(RowOf(f, user), kind) == Used(f.tables.usage, f.log, user, kind);
    }
    forall user: UserId
      ensures RowOf(v, user).requests == SumSeq(v.log, CountedFor(user))
    {
      assert RowOf(f, user).requests == SumSeq(f.log, CountedFor(user));
    }
    forall key: UsageKey, field: Field
      ensures UsageIn(UsageAt(v.tables.usage, key), field) == SumSeq(v.log, RecordedIn(key, field))
    {
      assert UsageIn(UsageAt(f.tables.usage, key), field) == SumSeq(f.log, RecordedIn(key, field));
    }
  }

  lemma StepKeepsDebits(f: FiatState, a: FiatAction)
    ensures var v := ApplyFiat(f, a).state;
            && v.tables.usage == f.tables.usage && v.log == f.log
            && (forall user, kind :: DebitedIn(RowOf(v, user), kind) == DebitedIn(RowOf(f, user), kind))
            && (forall user :: RowOf(v, user).requests == RowOf(f, user).requests)
  {
    hide FiatRow.Affords, FiatRequest.Settlement, FiatRequest.Exact, FiatRequest.Input, FiatRequest.Output;
  }

  // ---------------------------------------------------------------- what requests bill arrives

  function AmountIn(user: UserId, kind: Kind): Event -> int {
    (e: Event) =>
      if !(e.UpdateStackNumTokensFiat? && e.user == user) then 0
      else if kind.Input? then e.input else e.output
  }

  /** What an action bills a user: a settlement whose amounts fit, the tokens used at their
      price. */
  function BilledTo(user: UserId, kind: Kind): FiatAction -> int {
    (a: FiatAction) =>
      if !(a.SettleFiat? && a.r.user == user && AmountsFit(a.r, a.input, a.output)) then 0
      else if kind.Input? then a.input * a.r.inputPrice / ONE_MILLION
      else a.output * a.r.outputPrice / ONE_MILLION
  }

  predicate Priced(a: FiatAction) {
    a.SettleFiat? ==> InRange(a.r, a.input, a.output)
  }

  function FundsFor(user: UserId): FiatAction -> int {
    (a: FiatAction) => if a.AddFunds? && a.user == user then a.amount else 0
  }

  ghost function Charged(f: FiatState, queue: seq<Event>, user: UserId, kind: Kind): int {
    DebitedIn(RowOf(f, user), kind) + SumSeq(queue, AmountIn(user, kind))
  }

  lemma StepCharges(f: FiatState, queue: seq<Event>, a: FiatAction, user: UserId, kind: Kind)
    requires CanFiat(f, a) && Priced(a)
    ensures Charged(ApplyFiat(f, a).state, queue + ApplyFiat(f, a).sent, user, kind) == Charged(f, queue, user, kind) + BilledTo(user, kind)(a)
  {
    StepKeepsDebits(f, a);
    StepSendsBill(f, a, user, kind);
    hide SumSeq, ApplyFiat, RowOf;
    SumSeqConcat(queue, ApplyFiat(f, a).sent, AmountIn(user, kind));
  }

  lemma StepSendsBill(f: FiatState, a: FiatAction, user: UserId, kind: Kind)
    requires Priced(a)
    ensures SumSeq(ApplyFiat(f, a).sent, AmountIn(user, kind)) == BilledTo(user, kind)(a)
  {
    if a.SettleFiat? {
      SettlementBills(a.r, a.input, a.output);
      hide FiatRequest.Settlement, AmountsFit;
      assert ApplyFiat(f, a).sent == match a.r.Settlement(a.input, a.output) case Some(e) => [e] case None => [];
      if a.r.Settlement(a.input, a.output).Some? {
        SumSeqPush([], a.r.Settlement(a.input, a.output).value, AmountIn(user, kind));
        assert [] + ApplyFiat(f, a).sent == ApplyFiat(f, a).sent;
      }
    }
  }

  lemma ConsumeCharges(f: FiatState, queue: seq<Event>, day: Day, user: UserId, kind: Kind)
    requires queue != [] && Known(f, queue)
    ensures Charged(ConsumeFiat(f, day, queue[0]), queue[1..], user, kind) == Charged(f, queue, user, kind)
  {
    assert queue[0] in queue;
    hide SumSeq, Upsert;
    SumSeqHead(queue, AmountIn(user, kind));
  }

  lemma StepFunds(f: FiatState, a: FiatAction, user: UserId)
    ensures RowOf(ApplyFiat(f, a).state, user).usd == RowOf(f, user).usd + FundsFor(user)(a)
  {
    hide FiatRow.Affords, FiatRequest.Settlement, FiatRequest.Input, FiatRequest.Output;
  }

  lemma ConsumeKeepsFunds(f: FiatState, day: Day, e: Event, user: UserId)
    ensures RowOf(ConsumeFiat(f, day, e), user).usd == RowOf(f, user).usd
  {
    hide Upsert;
  }

  /** A reservation is granted exactly when the user's funds cover it on top of what they were
      debited and what is not settled yet. */
  lemma GrantedIff(f: FiatState, queue: seq<Event>, r: FiatRequest)
    requires Reconciled(f, queue) && r.Exact()
    ensures ApplyFiat(f, LockFiat(r)).state.inFlight == f.inFlight + multiset{r} <==>
              && r.user in f.tables.rows
              && DebitedIn(RowOf(f, r.user), Input) + DebitedIn(RowOf(f, r.user), Output)
                 + Unsettled(f.inFlight, f.stranded, queue, r.user, Input) + Unsettled(f.inFlight, f.stranded, queue, r.user, Output)
                 + r.inputTokens * r.inputPrice / ONE_MILLION + r.outputTokens * r.outputPrice / ONE_MILLION
                 <= RowOf(f, r.user).usd
  {
    ReservationIs(r);
    hide FiatRequest.Input, FiatRequest.Output, FiatRequest.Exact;
    assert ReservedIn(RowOf(f, r.user), Input) == Unsettled(f.inFlight, f.stranded, queue, r.user, Input);
    assert ReservedIn(RowOf(f, r.user), Output) == Unsettled(f.inFlight, f.stranded, queue, r.user, Output);
    hide Unsettled, Reconciled;
    assert f.inFlight[r] + 1 == (f.inFlight + multiset{r})[r];
  }
}
