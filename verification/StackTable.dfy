/** The `stacks` table: the five statements that reserve compute units, the statement that
    settles them, and the insertion of a bought stack. */
module StackTable {
  import opened Base
  import opened Events

  datatype Stack = Stack(
    owner: string, user: UserId, task: TaskId, node: NodeId,
    size: int, price: int, computed: int, locked: int, messages: int,
    inSettlePeriod: bool, isClaimed: bool, isLocked: bool)
  {
    /** `check_compute_units_constraint`: a statement that would break it fails as a whole. */
    predicate Fits() {
      computed + locked <= size
    }

    function Slack(): int {
      size - computed - locked
    }

    function Reserving(units: int): Stack {
      this.(locked := locked + units)
    }

    function Settling(estimated: int, total: int): Stack {
      this.(computed := computed + total, locked := locked - estimated,
            messages := messages + if total > 0 then 1 else 0)
    }
  }

  datatype Task = Task(model: Model, securityLevel: int, deprecated: bool)

  /** The tables the reserving statements read. */
  datatype Db = Db(
    stacks: map<StackId, Stack>,
    tasks: map<TaskId, Task>,
    claimedTickets: set<StackId>,
    keyedNodes: set<NodeId>)

  datatype DbError = StackNotFound | DuplicateKey | ConstraintViolated

  /** The five reserving statements with their parameters. */
  datatype Query =
    | ForModel(model: Model, units: int, user: UserId)
    | ForTask(task: TaskId, units: int, user: UserId)
    | ForEncryption(model: Model, units: int, user: UserId)
    | OwnedBy(stack: StackId, owner: string, units: int)
    | LockUnits(stack: StackId, units: int)

  /** The WHERE clause of each statement, on row `id`. */
  predicate Matches(db: Db, q: Query, id: StackId) {
    id in db.stacks &&
    var s := db.stacks[id];
    match q
    case ForModel(model, units, user) =>
      && s.task in db.tasks && db.tasks[s.task].model == model
      && s.size - s.computed - s.locked >= units
      && s.user == user
      && !s.isClaimed && !s.isLocked && !s.inSettlePeriod
      && id !in db.claimedTickets
    case ForTask(task, units, user) =>
      && s.task == task
      && s.size - s.computed - s.locked >= units
      && s.user == user
      && !s.isClaimed && !s.isLocked && !s.inSettlePeriod
    case ForEncryption(model, units, user) =>
      && s.node in db.keyedNodes
      && s.task in db.tasks && db.tasks[s.task].model == model
      && db.tasks[s.task].securityLevel == 1 && !db.tasks[s.task].deprecated
      && s.size - s.computed - s.locked >= units
      && !s.isClaimed && !s.isLocked
      && s.user == user
    case OwnedBy(stack, owner, units) =>
      && id == stack && s.owner == owner
      && s.size - s.computed - s.locked >= units
      && !s.inSettlePeriod
    case LockUnits(stack, units) =>
      && id == stack
      && s.computed + s.locked + units <= s.size
  }

  /** A stack of the user for the task, open and with room. */
  predicate OpenFor(s: Stack, task: TaskId, units: int, user: UserId) {
    && s.task == task && s.user == user && s.computed + s.locked + units <= s.size
    && !s.isClaimed && !s.isLocked && !s.inSettlePeriod
  }

  /** `ORDER BY price` among the rows that match. */
  predicate Cheapest(db: Db, q: Query, id: StackId)
    requires id in db.stacks
  {
    forall k :: k in db.stacks && Matches(db, q, k) ==> db.stacks[id].price <= db.stacks[k].price
  }

  lemma CheapestExists(db: Db, q: Query)
    requires exists id :: id in db.stacks && Matches(db, q, id)
    ensures exists id :: id in db.stacks && Matches(db, q, id) && Cheapest(db, q, id)
  {
    var id :| id in db.stacks && Matches(db, q, id);
    CheapestBelow(db, q, id, set k | k in db.stacks && Matches(db, q, k) && db.stacks[k].price < db.stacks[id].price);
  }

  lemma {:induction false} CheapestBelow(db: Db, q: Query, id: StackId, cheaper: set<StackId>)
    requires id in db.stacks && Matches(db, q, id)
    requires cheaper == set k | k in db.stacks && Matches(db, q, k) && db.stacks[k].price < db.stacks[id].price
    ensures exists k :: k in db.stacks && Matches(db, q, k) && Cheapest(db, q, k)
    decreases cheaper
  {
    if cheaper == {} {
      forall k | k in db.stacks && Matches(db, q, k)
        ensures db.stacks[id].price <= db.stacks[k].price
      {
        assert k !in cheaper;
      }
      assert Cheapest(db, q, id);
    } else {
      var k :| k in cheaper;
      var below := set j | j in db.stacks && Matches(db, q, j) && db.stacks[j].price < db.stacks[k].price;
      assert below <= cheaper && k !in below;
      CheapestBelow(db, q, k, below);
    }
  }

  function Reserve(db: Db, id: StackId, units: int): Db
    requires id in db.stacks
  {
    db.(stacks := db.stacks[id := db.stacks[id].Reserving(units)])
  }

  /** `update_stack_num_tokens`. */
  function Settle(db: Db, id: StackId, estimated: int, total: int): Result<Db, DbError> {
    if id !in db.stacks then Err(StackNotFound)
    else
      var s := db.stacks[id].Settling(estimated, total);
      if s.Fits() then Ok(db.(stacks := db.stacks[id := s])) else Err(ConstraintViolated)
  }

  /** `insert_new_stack`. */
  function Insert(db: Db, id: StackId, s: Stack): Result<Db, DbError> {
    if id in db.stacks then Err(DuplicateKey)
    else if s.Fits() then Ok(db.(stacks := db.stacks[id := s]))
    else Err(ConstraintViolated)
  }

  /** The row of a bought stack: unused, except for the units locked for its buyer. */
  function NewStack(created: Stack, user: UserId, lockedUnits: int): Stack {
    created.(user := user, computed := 0, locked := lockedUnits, messages := 0, inSettlePeriod := false, isClaimed := false, isLocked := false)
  }

  ghost predicate AllFit(db: Db) {
    forall id :: id in db.stacks ==> db.stacks[id].Fits()
  }

  /** Every WHERE clause leaves room for the units it reserves, so a reservation never trips
      the constraint. */
  lemma ReservationFits(db: Db, q: Query, id: StackId)
    requires Matches(db, q, id)
    ensures db.stacks[id].Slack() >= q.units
    ensures db.stacks[id].Reserving(q.units).Fits()
  {
  }

  /** A settlement of an existing stack is refused exactly when it overruns its estimate by
      more than the stack has left. */
  lemma SettlementRefusedIff(db: Db, id: StackId, estimated: int, total: int)
    requires id in db.stacks
    ensures Settle(db, id, estimated, total).Err? <==> total - estimated > db.stacks[id].Slack()
  {
  }

  /** The table.  A method fails without effect where the statement does. */
  class Table {
    var stacks: map<StackId, Stack>
    var tasks: map<TaskId, Task>
    var claimedTickets: set<StackId>
    var keyedNodes: set<NodeId>

    function View(): Db
      reads this
    {
      Db(stacks, tasks, claimedTickets, keyedNodes)
    }

    constructor (tasks: map<TaskId, Task>, keyedNodes: set<NodeId>)
      ensures View() == Db(map[], tasks, {}, keyedNodes)
    {
      this.stacks := map[];
      this.tasks := tasks;
      this.claimedTickets := {};
      this.keyedNodes := keyedNodes;
    }

    /** What the reserving statements share.  Which row `LIMIT 1` returns is unspecified, except
        that the statement for encryption orders the rows by price. */
    method ReserveUnits(q: Query) returns (r: Option<StackId>)
      modifies this`stacks
      ensures r.None? ==> stacks == old(stacks)
      ensures r.None? <==> forall id :: id in old(stacks) ==> !Matches(old(View()), q, id)
      ensures r.Some? ==> Matches(old(View()), q, r.value) && View() == Reserve(old(View()), r.value, q.units)
      ensures r.Some? ==> stacks == old(stacks)[r.value := old(stacks)[r.value].(locked := old(stacks)[r.value].locked + q.units)]
      ensures r.Some? && q.ForEncryption? ==> Cheapest(old(View()), q, r.value)
      ensures r.Some? && old(AllFit(View())) ==> AllFit(View())
    {
      r := None;
      if exists id :: id in stacks && Matches(View(), q, id) {
        CheapestExists(View(), q);
        var id :| id in stacks && Matches(View(), q, id) && (q.ForEncryption? ==> Cheapest(View(), q, id));
        ReservationFits(View(), q, id);
        stacks := stacks[id := stacks[id].Reserving(q.units)];
        r := Some(id);
      }
    }

    /** An open stack of the user for the model, without a claimed settlement ticket. */
    method GetStacksForModel(model: Model, units: int, user: UserId) returns (r: Option<StackId>)
      modifies this`stacks
      ensures r.None? <==> forall id :: id in old(stacks) ==>
                var s := old(stacks)[id];
                !(s.user == user && s.task in tasks && tasks[s.task].model == model
                  && s.computed + s.locked + units <= s.size
                  && !s.isClaimed && !s.isLocked && !s.inSettlePeriod && id !in claimedTickets)
      ensures r.None? ==> stacks == old(stacks)
      ensures r.Some? ==>
                && r.value in old(stacks) && var s := old(stacks)[r.value];
                && s.user == user && s.task in tasks && tasks[s.task].model == model
                && s.computed + s.locked + units <= s.size
                && !s.isClaimed && !s.isLocked && !s.inSettlePeriod && r.value !in claimedTickets
                && stacks == old(stacks)[r.value := s.(locked := s.locked + units)]
    {
      r := ReserveUnits(ForModel(model, units, user));
    }

    /** An open stack of the user for the task. */
    method GetStacksForTask(task: TaskId, units: int, user: UserId) returns (r: Option<StackId>)
      modifies this`stacks
      ensures r.None? <==> forall id :: id in old(stacks) ==> !OpenFor(old(stacks)[id], task, units, user)
      ensures r.None? ==> stacks == old(stacks)
      ensures r.Some? ==>
                && r.value in old(stacks) && var s := old(stacks)[r.value];
                OpenFor(s, task, units, user) && stacks == old(stacks)[r.value := s.(locked := s.locked + units)]
    {
      r := ReserveUnits(ForTask(task, units, user));
    }

    /** A cheapest stack of the user for a confidential task of the model, on a node with keys.
        The statement does not ask whether the stack is in its settle period. */
    method SelectNodePublicKeyForEncryption(model: Model, units: int, user: UserId) returns (r: Option<StackId>)
      modifies this`stacks
      ensures r.None? <==> forall id :: id in old(stacks) ==> !Confidential(old(stacks)[id], model, units, user)
      ensures r.None? ==> stacks == old(stacks)
      ensures r.Some? ==>
                && r.value in old(stacks) && var s := old(stacks)[r.value];
                && Confidential(s, model, units, user) && stacks == old(stacks)[r.value := s.(locked := s.locked + units)]
                && forall id :: id in old(stacks) && Confidential(old(stacks)[id], model, units, user) ==> s.price <= old(stacks)[id].price
    {
      r := ReserveUnits(ForEncryption(model, units, user));
    }

    predicate Confidential(s: Stack, model: Model, units: int, user: UserId)
      reads this`tasks, this`keyedNodes
    {
      && s.user == user && s.node in keyedNodes
      && s.task in tasks && tasks[s.task].model == model && tasks[s.task].securityLevel == 1 && !tasks[s.task].deprecated
      && s.computed + s.locked + units <= s.size && !s.isClaimed && !s.isLocked
    }

    /** The stack itself, if it belongs to the owner and is not in its settle period. */
    method GetAvailableStackWithComputeUnits(id: StackId, owner: string, units: int) returns (r: Option<StackId>)
      modifies this`stacks
      ensures r == if id in old(stacks) && old(stacks)[id].owner == owner && !old(stacks)[id].inSettlePeriod
                      && old(stacks)[id].computed + old(stacks)[id].locked + units <= old(stacks)[id].size
                   then Some(id) else None
      ensures stacks == if r.Some? then old(stacks)[id := old(stacks)[id].(locked := old(stacks)[id].locked + units)] else old(stacks)
    {
      r := ReserveUnits(OwnedBy(id, owner, units));
    }

    /** The stack itself, if it has room. */
    method LockComputeUnits(id: StackId, units: int) returns (error: Option<DbError>)
      modifies this`stacks
      ensures error == if id in old(stacks) && old(stacks)[id].computed + old(stacks)[id].locked + units <= old(stacks)[id].size
                       then None else Some(StackNotFound)
      ensures stacks == if error.None? then old(stacks)[id := old(stacks)[id].(locked := old(stacks)[id].locked + units)] else old(stacks)
    {
      var r := ReserveUnits(LockUnits(id, units));
      error := if r.None? then Some(StackNotFound) else None;
    }

    /** A settlement touches three counters of one row, or nothing. */
    method UpdateStackNumTokens(id: StackId, estimated: int, total: int) returns (error: Option<DbError>)
      modifies this`stacks
      ensures match Settle(old(View()), id, estimated, total)
              case Ok(db) => error == None && View() == db
              case Err(e) => error == Some(e) && View() == old(View())
      ensures error.None? <==> id in old(stacks) && old(stacks)[id].computed + total + old(stacks)[id].locked - estimated <= old(stacks)[id].size
      ensures error.None? ==>
                var s := old(stacks)[id];
                stacks == old(stacks)[id := s.(computed := s.computed + total, locked := s.locked - estimated,
                                              messages := if total > 0 then s.messages + 1 else s.messages)]
      ensures old(AllFit(View())) ==> AllFit(View())
    {
      if id !in stacks {
        return Some(StackNotFound);
      }
      var s := stacks[id].Settling(estimated, total);
      if !s.Fits() {
        return Some(ConstraintViolated);
      }
      stacks := stacks[id := s];
      return None;
    }

    /** `handle_stack_created_event`: the stack of a purchase enters the table with the units
        of the request that bought it already locked. */
    method InsertNewStack(id: StackId, created: Stack, user: UserId, lockedUnits: int) returns (error: Option<DbError>)
      modifies this`stacks
      ensures match Insert(old(View()), id, NewStack(created, user, lockedUnits))
              case Ok(db) => error == None && View() == db
              case Err(e) => error == Some(e) && View() == old(View())
      ensures error.None? <==> id !in old(stacks) && lockedUnits <= created.size
      ensures error.None? ==>
                stacks == old(stacks)[id := Stack(created.owner, user, created.task, created.node, created.size, created.price,
                                                  0, lockedUnits, 0, false, false, false)]
      ensures old(AllFit(View())) ==> AllFit(View())
    {
      var s := created.(computed := 0, locked := 0, messages := 0, inSettlePeriod := false);
      s := s.(locked := lockedUnits);
      if id in stacks {
        return Some(DuplicateKey);
      }
      s := s.(user := user, isClaimed := false, isLocked := false);
      if !s.Fits() {
        return Some(ConstraintViolated);
      }
      stacks := stacks[id := s];
      return None;
    }

    /** `lock_stack`: closes the stack to three of the reserving statements. */
    method LockStack(id: StackId)
      modifies this`stacks
      ensures stacks.Keys == old(stacks.Keys)
      ensures forall k :: k in stacks ==> stacks[k] == if k == id then old(stacks)[k].(isLocked := true) else old(stacks)[k]
    {
      if id in stacks {
        stacks := stacks[id := stacks[id].(isLocked := true)];
      }
    }
  }
}
