/** Which nodes may serve confidential requests: those whose keys were committed at the latest
    key rotation and are valid. */
module KeyRotation {
  import opened Base
  import opened Events
  import opened StackTable

  type Epoch = int
  type Device = int
  type PublicKey = seq<int>

  datatype Rotation = Rotation(counter: int, nonce: int)

  datatype NodeKey = NodeKey(epoch: Epoch, counter: int, publicKey: PublicKey, isValid: bool)

  /** `key_rotations` and `node_public_keys`. */
  datatype Keys = Keys(rotations: map<Epoch, Rotation>, keys: map<(NodeId, Device), NodeKey>)

  // ---------------------------------------------------------------- the upserts

  datatype Update =
    | Rotate(epoch: Epoch, counter: int, nonce: int)
    | Commit(node: NodeId, device: Device, key: NodeKey)

  function Apply(k: Keys, u: Update): Keys {
    match u
    case Rotate(epoch, counter, nonce) => k.(rotations := k.rotations[epoch := Rotation(counter, nonce)])
    case Commit(node, device, key) => k.(keys := k.keys[(node, device) := key])
  }

  function Run(k: Keys, us: seq<Update>): Keys {
    if us == [] then k else Apply(Run(k, us[..|us| - 1]), us[|us| - 1])
  }

  class KeyTables {
    var rotations: map<Epoch, Rotation>
    var keys: map<(NodeId, Device), NodeKey>

    function View(): Keys
      reads this
    {
      Keys(rotations, keys)
    }

    constructor ()
      ensures View() == Keys(map[], map[])
    {
      rotations := map[];
      keys := map[];
    }

    method InsertNewKeyRotation(epoch: Epoch, counter: int, nonce: int)
      modifies this`rotations
      ensures View() == Apply(old(View()), Rotate(epoch, counter, nonce))
    {
      rotations := rotations[epoch := Rotation(counter, nonce)];
    }

    method UpdateNodePublicKey(node: NodeId, device: Device, key: NodeKey)
      modifies this`keys
      ensures View() == Apply(old(View()), Commit(node, device, key))
    {
      keys := keys[(node, device) := key];
    }
  }

  // ---------------------------------------------------------------- eligibility

  /** `c` is the counter of the latest rotation. */
  predicate IsLatest(k: Keys, c: int) {
    && (exists e :: e in k.rotations && k.rotations[e].counter == c)
    && (forall e :: e in k.rotations ==> k.rotations[e].counter <= c)
  }

  lemma LatestIsUnique(k: Keys, c: int, d: int)
    requires IsLatest(k, c) && IsLatest(k, d)
    ensures c == d
  {
  }

  predicate Current(k: Keys, node: NodeId, device: Device, c: int) {
    (node, device) in k.keys && k.keys[(node, device)].counter == c
  }

  /** `valid_nodes` of `get_cheapest_node_for_model`, grouped by node. */
  ghost predicate Eligible(k: Keys, node: NodeId) {
    exists c :: IsLatest(k, c) && EligibleAt(k, node, c)
  }

  ghost predicate EligibleAt(k: Keys, node: NodeId, c: int) {
    && (exists device :: Current(k, node, device, c))
    && (forall device :: Current(k, node, device, c) ==> k.keys[(node, device)].isValid)
  }

  /** `valid_nodes` of `select_node_public_key_for_encryption`, grouped by node and key. */
  ghost predicate Encrypts(k: Keys, node: NodeId, publicKey: PublicKey) {
    exists c :: IsLatest(k, c) && EncryptsAt(k, node, publicKey, c)
  }

  ghost predicate EncryptsAt(k: Keys, node: NodeId, publicKey: PublicKey, c: int) {
    && (exists device :: Current(k, node, device, c) && k.keys[(node, device)].publicKey == publicKey)
    && (forall device :: Current(k, node, device, c) && k.keys[(node, device)].publicKey == publicKey ==> k.keys[(node, device)].isValid)
  }

  /** A node is eligible exactly when each of the keys it holds at the latest rotation may be
      used for encryption, and it holds one. */
  lemma EligibleIffAllKeysEncrypt(k: Keys, node: NodeId, c: int)
    requires IsLatest(k, c)
    ensures Eligible(k, node) <==>
              && (exists device :: Current(k, node, device, c))
              && (forall device :: Current(k, node, device, c) ==> Encrypts(k, node, k.keys[(node, device)].publicKey))
  {
    if Eligible(k, node) {
      assert EligibleAt(k, node, c) by {
        var d :| IsLatest(k, d) && EligibleAt(k, node, d);
        LatestIsUnique(k, c, d);
      }
      forall device | Current(k, node, device, c)
        ensures Encrypts(k, node, k.keys[(node, device)].publicKey)
      {
        assert EncryptsAt(k, node, k.keys[(node, device)].publicKey, c);
      }
    }
    if (exists device :: Current(k, node, device, c))
       && (forall device :: Current(k, node, device, c) ==> Encrypts(k, node, k.keys[(node, device)].publicKey)) {
      forall device | Current(k, node, device, c)
        ensures k.keys[(node, device)].isValid
      {
        var d :| IsLatest(k, d) && EncryptsAt(k, node, k.keys[(node, device)].publicKey, d);
        LatestIsUnique(k, c, d);
      }
      assert EligibleAt(k, node, c);
    }
  }

  /** The two queries disagree on a node one of whose devices has an invalid key: no stack is
      bought from it for confidential requests, yet its other key is handed out. */
  lemma QueriesDisagree(node: NodeId, good: PublicKey, bad: PublicKey)
    requires good != bad
    ensures var k := Keys(map[0 := Rotation(1, 0)], map[(node, 0) := NodeKey(0, 1, good, true), (node, 1) := NodeKey(0, 1, bad, false)]);
            Encrypts(k, node, good) && !Eligible(k, node)
  {
    var k := Keys(map[0 := Rotation(1, 0)], map[(node, 0) := NodeKey(0, 1, good, true), (node, 1) := NodeKey(0, 1, bad, false)]);
    assert k.rotations[0].counter == 1;
    assert IsLatest(k, 1);
    assert Current(k, node, 0, 1) && Current(k, node, 1, 1);
    assert EncryptsAt(k, node, good, 1);
    forall c | IsLatest(k, c)
      ensures !EligibleAt(k, node, c)
    {
      LatestIsUnique(k, c, 1);
    }
  }

  // ---------------------------------------------------------------- runs after a rotation

  /** The last key committed for a device. */
  function LastCommit(us: seq<Update>, node: NodeId, device: Device): Option<NodeKey> {
    if us == [] then None
    else
      var u := us[|us| - 1];
      if u.Commit? && u.node == node && u.device == device then Some(u.key)
      else LastCommit(us[..|us| - 1], node, device)
  }

  lemma {:induction false} RunKeepsLastCommit(k: Keys, us: seq<Update>, node: NodeId, device: Device)
    ensures (node, device) in Run(k, us).keys <==> (node, device) in k.keys || LastCommit(us, node, device).Some?
    ensures (node, device) in Run(k, us).keys ==>
              Run(k, us).keys[(node, device)]
              == (if LastCommit(us, node, device).Some? then LastCommit(us, node, device).value else k.keys[(node, device)])
  {
    if us != [] {
      RunKeepsLastCommit(k, us[..|us| - 1], node, device);
    }
  }

  /** No rotation or key so far has reached counter `c`. */
  predicate Below(k: Keys, c: int) {
    && (forall e :: e in k.rotations ==> k.rotations[e].counter < c)
    && (forall d :: d in k.keys ==> k.keys[d].counter < c)
  }

  ghost predicate CommittedAt(us: seq<Update>, node: NodeId, device: Device, c: int) {
    LastCommit(us, node, device).Some? && LastCommit(us, node, device).value.counter == c
  }

  /** A rotation to a new counter disqualifies every node.  As long as it stays the latest one,
      a node is eligible exactly when it has committed a key at its counter since and all the
      keys it has there are valid. */
  lemma EligibleAfterRotationIff(k: Keys, epoch: Epoch, c: int, nonce: int, us: seq<Update>, node: NodeId)
    requires Below(k, c) && IsLatest(Run(Apply(k, Rotate(epoch, c, nonce)), us), c)
    ensures Eligible(Run(Apply(k, Rotate(epoch, c, nonce)), us), node) <==>
              && (exists device :: CommittedAt(us, node, device, c))
              && (forall device :: CommittedAt(us, node, device, c) ==> LastCommit(us, node, device).value.isValid)
  {
    var start := Apply(k, Rotate(epoch, c, nonce));
    var end := Run(start, us);
    forall device
      ensures Current(end, node, device, c) <==> CommittedAt(us, node, device, c)
      ensures Current(end, node, device, c) ==> end.keys[(node, device)] == LastCommit(us, node, device).value
    {
      RunKeepsLastCommit(start, us, node, device);
    }
    assert Eligible(end, node) <==> EligibleAt(end, node, c) by {
      if Eligible(end, node) {
        var d :| IsLatest(end, d) && EligibleAt(end, node, d);
        LatestIsUnique(end, c, d);
      }
    }
  }

  lemma RotationDisqualifiesAll(k: Keys, epoch: Epoch, c: int, nonce: int, node: NodeId)
    requires Below(k, c)
    ensures !Eligible(Apply(k, Rotate(epoch, c, nonce)), node)
  {
    var start := Apply(k, Rotate(epoch, c, nonce));
    assert start.rotations[epoch].counter == c;
    assert Run(start, []) == start;
    EligibleAfterRotationIff(k, epoch, c, nonce, [], node);
  }

  /** The rotation stays the latest one until another exceeds it or rewrites its epoch. */
  predicate Respects(u: Update, epoch: Epoch, c: int) {
    u.Rotate? ==> u.counter <= c && (u.epoch == epoch ==> u.counter == c)
  }

  lemma {:induction false} LatestStays(k: Keys, us: seq<Update>, epoch: Epoch, c: int)
    requires IsLatest(k, c) && epoch in k.rotations && k.rotations[epoch].counter == c
    requires forall u :: u in us ==> Respects(u, epoch, c)
    ensures IsLatest(Run(k, us), c) && epoch in Run(k, us).rotations && Run(k, us).rotations[epoch].counter == c
  {
    if us != [] {
      LatestStays(k, us[..|us| - 1], epoch, c);
      assert Respects(us[|us| - 1], epoch, c);
      assert Run(k, us).rotations[epoch].counter == c;
    }
  }

  /** `keyedNodes` as the statement that reserves units for encryption sees it. */
  ghost predicate Keyed(db: Db, k: Keys) {
    forall n :: n in db.keyedNodes <==> exists publicKey :: Encrypts(k, n, publicKey)
  }

  /** A rotation to a new counter also stops every reservation for encryption. */
  lemma RotationStopsEncryption(k: Keys, epoch: Epoch, c: int, nonce: int, db: Db, q: Query, id: StackId)
    requires Below(k, c) && Keyed(db, Apply(k, Rotate(epoch, c, nonce))) && q.ForEncryption?
    ensures !Matches(db, q, id)
  {
    if id in db.stacks {
      NoKeyEncrypts(k, epoch, c, nonce, db.stacks[id].node);
    }
  }

  lemma NoKeyEncrypts(k: Keys, epoch: Epoch, c: int, nonce: int, node: NodeId)
    requires Below(k, c)
    ensures forall publicKey :: !Encrypts(Apply(k, Rotate(epoch, c, nonce)), node, publicKey)
  {
    var start := Apply(k, Rotate(epoch, c, nonce));
    assert start.rotations[epoch].counter == c;
    forall publicKey, d | IsLatest(start, d)
      ensures !EncryptsAt(start, node, publicKey, d)
    {
      assert d >= c;
    }
  }

  // ---------------------------------------------------------------- the cheapest node

  datatype Subscription = Subscription(price: int, maxUnits: int, isValid: bool)

  /** A row of `tasks` joined with `node_subscriptions`. */
  datatype Offer = Offer(task: TaskId, node: NodeId)

  datatype Market = Market(tasks: map<TaskId, Task>, subscriptions: map<Offer, Subscription>)

  ghost predicate Offered(m: Market, k: Keys, model: Model, confidential: bool, o: Offer) {
    && o in m.subscriptions && m.subscriptions[o].isValid
    && o.task in m.tasks && !m.tasks[o.task].deprecated && m.tasks[o.task].model == model
    && (confidential ==> Eligible(k, o.node) && m.tasks[o.task].securityLevel == 1)
  }

  /** An answer of `get_cheapest_node_for_model`. */
  ghost predicate CheapestNode(m: Market, k: Keys, model: Model, confidential: bool, r: Option<Offer>) {
    match r
    case None => forall o :: o in m.subscriptions ==> !Offered(m, k, model, confidential, o)
    case Some(o) =>
      && Offered(m, k, model, confidential, o)
      && forall p :: p in m.subscriptions && Offered(m, k, model, confidential, p) ==> m.subscriptions[o].price <= m.subscriptions[p].price
  }

  /** What an answer is, in terms of the rows: a valid subscription to a live task of the model,
      for confidential requests one of security level 1 on an eligible node, at least price. */
  lemma AnswerIsCheapestRow(m: Market, k: Keys, model: Model, confidential: bool, o: Offer)
    requires o in m.subscriptions && o.task in m.tasks
    requires CheapestNode(m, k, model, confidential, Some(o))
    ensures m.subscriptions[o].isValid && !m.tasks[o.task].deprecated && m.tasks[o.task].model == model
    ensures confidential ==> m.tasks[o.task].securityLevel == 1 && Eligible(k, o.node)
    ensures forall p :: p in m.subscriptions && p.task in m.tasks
              && m.subscriptions[p].isValid && !m.tasks[p.task].deprecated && m.tasks[p.task].model == model
              && (confidential ==> m.tasks[p.task].securityLevel == 1 && Eligible(k, p.node))
              ==> m.subscriptions[o].price <= m.subscriptions[p].price
  {
  }

  lemma NoAnswerIffNoRow(m: Market, k: Keys, model: Model, confidential: bool)
    ensures CheapestNode(m, k, model, confidential, None) <==>
              forall p :: p in m.subscriptions && p.task in m.tasks
                && m.subscriptions[p].isValid && !m.tasks[p.task].deprecated && m.tasks[p.task].model == model
                ==> confidential && !(m.tasks[p.task].securityLevel == 1 && Eligible(k, p.node))
  {
  }

  /** The query always has an answer. */
  lemma SomeNodeIsCheapest(m: Market, k: Keys, model: Model, confidential: bool)
    ensures exists r :: CheapestNode(m, k, model, confidential, r)
  {
    CheapestNodeExists(m, k, model, confidential, m.subscriptions.Keys);
  }

  lemma {:induction false} CheapestNodeExists(m: Market, k: Keys, model: Model, confidential: bool, among: set<Offer>)
    requires among <= m.subscriptions.Keys
    requires forall o :: o in m.subscriptions && o !in among && Offered(m, k, model, confidential, o) ==>
               exists p :: p in among && Offered(m, k, model, confidential, p) && m.subscriptions[p].price <= m.subscriptions[o].price
    ensures exists r :: CheapestNode(m, k, model, confidential, r)
    decreases among
  {
    if o :| o in among && !Offered(m, k, model, confidential, o) {
      CheapestNodeExists(m, k, model, confidential, among - {o});
    } else if o, p :| o in among && p in among && o != p && m.subscriptions[p].price <= m.subscriptions[o].price {
      CheapestNodeExists(m, k, model, confidential, among - {o});
    } else if o :| o in among {
      assert CheapestNode(m, k, model, confidential, Some(o));
    } else {
      assert CheapestNode(m, k, model, confidential, None);
    }
  }

  /** The confidential answer exists only if the plain one does, is never cheaper, and names an
      eligible node. */
  lemma ConfidentialNeverCheaper(m: Market, k: Keys, model: Model, plain: Option<Offer>, confidential: Option<Offer>)
    requires CheapestNode(m, k, model, false, plain) && CheapestNode(m, k, model, true, confidential)
    ensures confidential.Some? ==>
              && plain.Some? && m.subscriptions[plain.value].price <= m.subscriptions[confidential.value].price
              && Eligible(k, confidential.value.node)
  {
    if confidential.Some? {
      assert Offered(m, k, model, false, confidential.value);
    }
  }
}
