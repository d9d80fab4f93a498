/** The scan over the balance changes of a transaction that decides who paid USDC to whom. */
module Payment {
  import opened Base

  type Address = string

  datatype Owner = AddressOwner(address: Address) | OtherOwner

  datatype CoinType = Struct(package: Address) | OtherType

  datatype Change = Change(coin: CoinType, amount: int, owner: Owner)

  datatype PaymentError = MultipleSenders | MultipleReceivers | SenderOrReceiverNotFound

  datatype Transfer = Transfer(sender: Address, receiver: Address, moneyIn: int)

  /** The three variables of the loop. */
  datatype Seen = Seen(sender: Option<Address>, receiver: Option<Address>, moneyIn: Option<int>)

  datatype Side = Outgoing | Incoming

  predicate On(side: Side, c: Change, usdc: Address) {
    c.coin == Struct(usdc) && (side.Outgoing? <==> c.amount < 0)
  }

  function OwnerOf(c: Change): Option<Address> {
    if c.owner.AddressOwner? then Some(c.owner.address) else None
  }

  // ---------------------------------------------------------------- the loop

  function Look(seen: Seen, c: Change, usdc: Address): Result<Seen, PaymentError> {
    if On(Outgoing, c, usdc) then
      if seen.sender.Some? then Err(MultipleSenders) else Ok(seen.(sender := OwnerOf(c)))
    else if On(Incoming, c, usdc) then
      if seen.receiver.Some? then Err(MultipleReceivers)
      else Ok(seen.(receiver := OwnerOf(c), moneyIn := Some(c.amount)))
    else Ok(seen)
  }

  function Scan(changes: seq<Change>, usdc: Address): Result<Seen, PaymentError> {
    if changes == [] then Ok(Seen(None, None, None))
    else
      match Scan(changes[..|changes| - 1], usdc)
      case Err(e) => Err(e)
      case Ok(seen) => Look(seen, changes[|changes| - 1], usdc)
  }

  function TransferOf(changes: seq<Change>, usdc: Address): Result<Transfer, PaymentError> {
    match Scan(changes, usdc)
    case Err(e) => Err(e)
    case Ok(seen) =>
      if seen.sender.None? || seen.receiver.None? || seen.moneyIn.None? then Err(SenderOrReceiverNotFound)
      else Ok(Transfer(seen.sender.value, seen.receiver.value, seen.moneyIn.value))
  }

  /** `usdc_payment`, from the balance changes to the two parties and the amount. */
  method FindTransfer(changes: seq<Change>, usdc: Address) returns (r: Result<Transfer, PaymentError>)
    ensures r == TransferOf(changes, usdc)
  {
    var sender, receiver, moneyIn := None, None, None;
    for i := 0 to |changes|
      invariant Scan(changes[..i], usdc) == Ok(Seen(sender, receiver, moneyIn))
      invariant receiver.Some? ==> moneyIn.Some?
    {
      assert changes[..i + 1][..i] == changes[..i];
      var change := changes[i];
      if change.coin.Struct? && change.coin.package == usdc {
        if change.amount < 0 {
          if sender.Some? {
            ErrorStays(changes, usdc, i + 1);
            return Err(MultipleSenders);
          }
          if change.owner.AddressOwner? {
            sender := Some(change.owner.address);
          }
        } else {
          if receiver.Some? {
            ErrorStays(changes, usdc, i + 1);
            return Err(MultipleReceivers);
          }
          moneyIn := Some(change.amount);
          if change.owner.AddressOwner? {
            receiver := Some(change.owner.address);
          }
        }
      }
    }
    assert changes[..|changes|] == changes;
    if sender.None? || receiver.None? {
      return Err(SenderOrReceiverNotFound);
    }
    return Ok(Transfer(sender.value, receiver.value, moneyIn.value));
  }

  lemma {:induction false} ErrorStays(changes: seq<Change>, usdc: Address, n: nat)
    requires n <= |changes| && Scan(changes[..n], usdc).Err?
    ensures Scan(changes, usdc) == Scan(changes[..n], usdc)
    decreases |changes|
  {
    if n == |changes| {
      assert changes[..n] == changes;
    } else {
      var init := changes[..|changes| - 1];
      assert init[..n] == changes[..n];
      ErrorStays(init, usdc, n);
    }
  }

  // ---------------------------------------------------------------- what it accepts

  /** Change `i` names the party of its side: it is owned by an address, it is the last change
      on its side, and no earlier change on its side is owned by an address. */
  predicate Names(changes: seq<Change>, usdc: Address, side: Side, i: int) {
    && 0 <= i < |changes| && On(side, changes[i], usdc) && changes[i].owner.AddressOwner?
    && (forall k :: i < k < |changes| ==> !On(side, changes[k], usdc))
    && (forall k :: 0 <= k < i && On(side, changes[k], usdc) ==> !changes[k].owner.AddressOwner?)
  }

  /** A change on a side on which an earlier change is owned by an address already. */
  ghost predicate Repeated(changes: seq<Change>, usdc: Address, side: Side) {
    exists j, i :: 0 <= j < i < |changes| && On(side, changes[j], usdc) && changes[j].owner.AddressOwner? && On(side, changes[i], usdc)
  }

  ghost predicate Described(changes: seq<Change>, usdc: Address, side: Side, party: Option<Address>) {
    match party
    case None => forall k :: 0 <= k < |changes| && On(side, changes[k], usdc) ==> !changes[k].owner.AddressOwner?
    case Some(a) => exists i :: Names(changes, usdc, side, i) && OwnerOf(changes[i]) == Some(a)
  }

  ghost predicate LastIncoming(changes: seq<Change>, usdc: Address, amount: Option<int>) {
    match amount
    case None => forall k :: 0 <= k < |changes| ==> !On(Incoming, changes[k], usdc)
    case Some(m) => exists i :: 0 <= i < |changes| && On(Incoming, changes[i], usdc) && changes[i].amount == m
                             && forall k :: i < k < |changes| ==> !On(Incoming, changes[k], usdc)
  }

  lemma {:induction false} ScanDescribes(changes: seq<Change>, usdc: Address)
    ensures match Scan(changes, usdc)
            case Ok(seen) =>
              && Described(changes, usdc, Outgoing, seen.sender)
              && Described(changes, usdc, Incoming, seen.receiver)
              && LastIncoming(changes, usdc, seen.moneyIn)
            case Err(MultipleSenders) => Repeated(changes, usdc, Outgoing)
            case Err(MultipleReceivers) => Repeated(changes, usdc, Incoming)
            case Err(SenderOrReceiverNotFound) => false
    decreases |changes|
  {
    if changes != [] {
      var n := |changes| - 1;
      var init, c := changes[..n], changes[n];
      ScanDescribes(init, usdc);
      assert changes == init + [c];
      if Scan(init, usdc).Ok? {
        var seen := Scan(init, usdc).value;
        DescribedGrows(init, c, usdc, Outgoing, seen.sender);
        DescribedGrows(init, c, usdc, Incoming, seen.receiver);
        LastGrows(init, c, usdc, seen.moneyIn);
      } else {
        RepeatedGrows(init, c, usdc, Outgoing);
        RepeatedGrows(init, c, usdc, Incoming);
      }
    }
  }

  lemma DescribedGrows(init: seq<Change>, c: Change, usdc: Address, side: Side, party: Option<Address>)
    requires Described(init, usdc, side, party)
    ensures !On(side, c, usdc) ==> Described(init + [c], usdc, side, party)
    ensures On(side, c, usdc) && party.None? ==> Described(init + [c], usdc, side, OwnerOf(c))
    ensures On(side, c, usdc) && party.Some? ==> Repeated(init + [c], usdc, side)
  {
    var changes, n := init + [c], |init|;
    assert changes[n] == c && forall k :: 0 <= k < n ==> changes[k] == init[k];
    if party.Some? {
      var i :| Names(init, usdc, side, i) && OwnerOf(init[i]) == party;
      if On(side, c, usdc) {
        assert On(side, changes[i], usdc) && On(side, changes[n], usdc);
      } else {
        assert Names(changes, usdc, side, i);
      }
    } else if On(side, c, usdc) && c.owner.AddressOwner? {
      assert Names(changes, usdc, side, n);
    }
  }

  lemma LastGrows(init: seq<Change>, c: Change, usdc: Address, amount: Option<int>)
    requires LastIncoming(init, usdc, amount)
    ensures LastIncoming(init + [c], usdc, if On(Incoming, c, usdc) then Some(c.amount) else amount)
  {
    var changes, n := init + [c], |init|;
    assert changes[n] == c && forall k :: 0 <= k < n ==> changes[k] == init[k];
    if !On(Incoming, c, usdc) && amount.Some? {
      var i :| 0 <= i < |init| && On(Incoming, init[i], usdc) && init[i].amount == amount.value
            && forall k :: i < k < |init| ==> !On(Incoming, init[k], usdc);
      assert On(Incoming, changes[i], usdc);
    }
  }

  lemma RepeatedGrows(init: seq<Change>, c: Change, usdc: Address, side: Side)
    ensures Repeated(init, usdc, side) ==> Repeated(init + [c], usdc, side)
  {
    if Repeated(init, usdc, side) {
      var j, i :| 0 <= j < i < |init| && On(side, init[j], usdc) && init[j].owner.AddressOwner? && On(side, init[i], usdc);
      assert (init + [c])[j] == init[j] && (init + [c])[i] == init[i];
    }
  }

  /** A payment is accepted if and only if one change names the sender and one the receiver,
      and then the money is the receiver's own change. */
  lemma AcceptedIffNamed(changes: seq<Change>, usdc: Address, t: Transfer)
    ensures TransferOf(changes, usdc) == Ok(t) <==> exists i, j ::
              && Names(changes, usdc, Outgoing, i) && Names(changes, usdc, Incoming, j)
              && t == Transfer(changes[i].owner.address, changes[j].owner.address, changes[j].amount)
  {
    ScanDescribes(changes, usdc);
    if TransferOf(changes, usdc) == Ok(t) {
      var i :| Names(changes, usdc, Outgoing, i) && OwnerOf(changes[i]) == Some(t.sender);
      var j :| Names(changes, usdc, Incoming, j) && OwnerOf(changes[j]) == Some(t.receiver);
      assert t == Transfer(changes[i].owner.address, changes[j].owner.address, changes[j].amount);
    }
    if i, j :|
      && Names(changes, usdc, Outgoing, i) && Names(changes, usdc, Incoming, j)
      && t == Transfer(changes[i].owner.address, changes[j].owner.address, changes[j].amount) {
      NamedNotRepeated(changes, usdc, Outgoing, i);
      NamedNotRepeated(changes, usdc, Incoming, j);
    }
  }

  lemma NamedNotRepeated(changes: seq<Change>, usdc: Address, side: Side, i: int)
    requires Names(changes, usdc, side, i)
    ensures !Repeated(changes, usdc, side)
    ensures forall k :: Names(changes, usdc, side, k) ==> k == i
  {
  }

  lemma AcceptedMoney(changes: seq<Change>, usdc: Address)
    requires TransferOf(changes, usdc).Ok?
    ensures TransferOf(changes, usdc).value.moneyIn >= 0
  {
    AcceptedIffNamed(changes, usdc, TransferOf(changes, usdc).value);
  }

  // ---------------------------------------------------------------- payments between addresses

  predicate AllOwned(changes: seq<Change>, usdc: Address) {
    forall c :: c in changes && c.coin == Struct(usdc) ==> c.owner.AddressOwner?
  }

  /** `c` is the only change on its side. */
  predicate Only(changes: seq<Change>, usdc: Address, side: Side, c: Change) {
    && On(side, c, usdc) && multiset(changes)[c] == 1
    && forall d :: d in multiset(changes) && On(side, d, usdc) ==> d == c
  }

  lemma NamedIffOnly(changes: seq<Change>, usdc: Address, side: Side, c: Change)
    requires AllOwned(changes, usdc)
    ensures Only(changes, usdc, side, c) <==> exists i :: Names(changes, usdc, side, i) && changes[i] == c
  {
    if Only(changes, usdc, side, c) {
      assert c in multiset(changes);
      var i :| 0 <= i < |changes| && changes[i] == c;
      OnceInSequence(changes, i);
      assert forall k :: 0 <= k < |changes| && k != i ==> changes[k] in multiset(changes);
      assert Names(changes, usdc, side, i);
    }
    if i :| Names(changes, usdc, side, i) && changes[i] == c {
      assert forall k :: 0 <= k < |changes| && k != i ==> !On(side, changes[k], usdc);
      OnceInSequence(changes, i);
    }
  }

  lemma OnceInSequence(changes: seq<Change>, i: nat)
    requires i < |changes|
    ensures multiset(changes)[changes[i]] == 1 <==> forall k :: 0 <= k < |changes| && k != i ==> changes[k] != changes[i]
  {
    var c, pre, post := changes[i], changes[..i], changes[i + 1..];
    assert changes == pre + [c] + post;
    assert multiset(changes)[c] == multiset(pre)[c] + 1 + multiset(post)[c];
    assert forall k :: 0 <= k < i ==> changes[k] == pre[k];
    assert forall k :: 0 <= k < |post| ==> changes[i + 1 + k] == post[k];
    if multiset(changes)[c] == 1 {
      assert c !in pre && c !in post;
      forall k | 0 <= k < |changes| && k != i
        ensures changes[k] != c
      {
        if k > i {
          assert changes[k] == post[k - i - 1];
        }
      }
    } else {
      assert c in pre || c in post;
    }
  }

  /** When every USDC change is owned by an address, a payment is accepted if and only if
      exactly one change is negative and exactly one is not. */
  lemma OwnedAcceptedIff(changes: seq<Change>, usdc: Address, t: Transfer)
    requires AllOwned(changes, usdc)
    ensures TransferOf(changes, usdc) == Ok(t) <==> exists c, d ::
              && Only(changes, usdc, Outgoing, c) && Only(changes, usdc, Incoming, d)
              && OwnerOf(c) == Some(t.sender) && OwnerOf(d) == Some(t.receiver) && d.amount == t.moneyIn
  {
    AcceptedIffNamed(changes, usdc, t);
    if i, j :|
      && Names(changes, usdc, Outgoing, i) && Names(changes, usdc, Incoming, j)
      && t == Transfer(changes[i].owner.address, changes[j].owner.address, changes[j].amount) {
      NamedIffOnly(changes, usdc, Outgoing, changes[i]);
      NamedIffOnly(changes, usdc, Incoming, changes[j]);
    }
    if c, d :|
      && Only(changes, usdc, Outgoing, c) && Only(changes, usdc, Incoming, d)
      && OwnerOf(c) == Some(t.sender) && OwnerOf(d) == Some(t.receiver) && d.amount == t.moneyIn {
      NamedIffOnly(changes, usdc, Outgoing, c);
      NamedIffOnly(changes, usdc, Incoming, d);
    }
  }

  /** ... in whatever order the changes are listed. */
  lemma OrderDoesNotMatter(p: seq<Change>, q: seq<Change>, usdc: Address, t: Transfer)
    requires AllOwned(p, usdc) && multiset(p) == multiset(q)
    ensures TransferOf(p, usdc) == Ok(t) <==> TransferOf(q, usdc) == Ok(t)
  {
    forall c | c in q
      ensures c in p
    {
      assert c in multiset(p);
    }
    OwnedAcceptedIff(p, usdc, t);
    OwnedAcceptedIff(q, usdc, t);
    assert forall side, c :: Only(p, usdc, side, c) <==> Only(q, usdc, side, c);
  }

  /** Without that condition the order does matter: a change that no address owns is overlooked
      before the one that names the sender, and fatal after it. */
  lemma OrderMattersOtherwise(usdc: Address, a: Address, b: Address)
    ensures var x, y, z := Change(Struct(usdc), -1, OtherOwner), Change(Struct(usdc), -2, AddressOwner(a)), Change(Struct(usdc), 3, AddressOwner(b));
            && TransferOf([x, y, z], usdc) == Ok(Transfer(a, b, 3))
            && TransferOf([y, x, z], usdc) == Err(MultipleSenders)
  {
    var x, y, z := Change(Struct(usdc), -1, OtherOwner), Change(Struct(usdc), -2, AddressOwner(a)), Change(Struct(usdc), 3, AddressOwner(b));
    ScanTwo(x, y, z, usdc, Seen(None, None, None));
    ScanTwo(y, x, z, usdc, Seen(Some(a), None, None));
  }

  lemma ScanTwo(x: Change, y: Change, z: Change, usdc: Address, seen: Seen)
    requires Look(Seen(None, None, None), x, usdc) == Ok(seen)
    ensures Scan([x, y], usdc) == Look(seen, y, usdc)
    ensures Scan([x, y, z], usdc) == if Scan([x, y], usdc).Ok? then Look(Scan([x, y], usdc).value, z, usdc) else Scan([x, y], usdc)
  {
    assert [x, y, z][..2] == [x, y] && [x, y][..1] == [x] && [x][..0] == [];
    assert Scan([], usdc) == Ok(Seen(None, None, None));
    assert Scan([x], usdc) == Ok(seen);
  }
}
