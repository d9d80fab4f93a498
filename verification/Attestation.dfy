/** The settlement ticket of a stack: two buffers of 32-byte slots, the first for the node that
    served the stack, the following ones for the commitments of the attestation nodes. */
module Attestation {
  import opened Base
  import opened Events

  type Byte = x: int | 0 <= x < 256

  datatype Outcome = Accepted | NodeNotFound | InvalidMerkleLeafLength | InvalidCommittedStackProofLength | Panicked

  datatype Commitment = Commitment(node: NodeId, proof: seq<Byte>, leaf: seq<Byte>)

  datatype Ticket = Ticket(nodes: seq<NodeId>, proofs: seq<Byte>, leaves: seq<Byte>, attested: seq<NodeId>)

  // ---------------------------------------------------------------- slots

  function Slot(b: seq<Byte>, k: nat): seq<Byte>
    requires 32 * (k + 1) <= |b|
  {
    b[32 * k..32 * (k + 1)]
  }

  function WithSlot(b: seq<Byte>, k: nat, data: seq<Byte>): (r: seq<Byte>)
    requires 32 * (k + 1) <= |b| && |data| == 32
    ensures |r| == |b|
  {
    b[..32 * k] + data + b[32 * (k + 1)..]
  }

  lemma SlotOfWithSlot(b: seq<Byte>, k: nat, data: seq<Byte>, j: nat)
    requires 32 * (k + 1) <= |b| && 32 * (j + 1) <= |b| && |data| == 32
    ensures Slot(WithSlot(b, k, data), j) == if j == k then data else Slot(b, j)
  {
    var r := WithSlot(b, k, data);
    if j < k {
      assert r[32 * j..32 * (j + 1)] == b[32 * j..32 * (j + 1)];
    } else if j > k {
      assert r[32 * (k + 1)..] == b[32 * (k + 1)..];
      assert r[32 * j..32 * (j + 1)] == r[32 * (k + 1)..][32 * j - 32 * (k + 1)..32 * (j + 1) - 32 * (k + 1)];
      assert b[32 * j..32 * (j + 1)] == b[32 * (k + 1)..][32 * j - 32 * (k + 1)..32 * (j + 1) - 32 * (k + 1)];
    }
  }

  /** A buffer of whole slots is determined by them. */
  lemma SlotsDetermine(a: seq<Byte>, b: seq<Byte>, n: nat)
    requires |a| == |b| == 32 * n && forall j: nat :: j < n ==> Slot(a, j) == Slot(b, j)
    ensures a == b
  {
    forall i | 0 <= i < |a|
      ensures a[i] == b[i]
    {
      var j := i / 32;
      assert 32 * j <= i < 32 * (j + 1);
      assert a[i] == Slot(a, j)[i - 32 * j] && b[i] == Slot(b, j)[i - 32 * j];
    }
  }

  /** `Vec::resize(size, 0)`. */
  function Resized(b: seq<Byte>, size: nat): (r: seq<Byte>)
    ensures |r| == size
    ensures forall i :: 0 <= i < size ==> r[i] == if i < |b| then b[i] else 0
  {
    if size <= |b| then b[..size] else b + seq(size - |b|, _ => 0 as Byte)
  }

  // ---------------------------------------------------------------- the ticket

  /** `TryFrom<StackTrySettleEvent>`. */
  function NewTicket(nodes: seq<NodeId>, proof: seq<Byte>, leaf: seq<Byte>): Ticket {
    Ticket(nodes, Resized(proof, 32 * |nodes|), Resized(leaf, 32 * |nodes|), [])
  }

  /** `iter().position(...)`. */
  function Position(nodes: seq<NodeId>, node: NodeId): (r: Option<nat>)
    ensures r.Some? ==> r.value < |nodes| && nodes[r.value] == node && node !in nodes[..r.value]
    ensures r.None? ==> node !in nodes
  {
    if nodes == [] then None
    else if nodes[0] == node then Some(0)
    else
      match Position(nodes[1..], node)
      case None => None
      case Some(i) =>
        assert nodes[..i + 1] == [nodes[0]] + nodes[1..][..i];
        Some(i + 1)
  }

  predicate Sized(t: Ticket) {
    |t.proofs| == 32 * |t.nodes| == |t.leaves|
  }

  function Judge(t: Ticket, c: Commitment): Outcome {
    match Position(t.nodes, c.node)
    case None => NodeNotFound
    case Some(i) =>
      if (i + 2) * 32 > |t.leaves| then InvalidMerkleLeafLength
      else if (i + 2) * 32 > |t.proofs| then InvalidCommittedStackProofLength
      else if |c.leaf| < 32 || |c.proof| < 32 then Panicked
      else Accepted
  }

  function Attest(t: Ticket, c: Commitment): Ticket {
    if Judge(t, c).Accepted? then
      var k := Position(t.nodes, c.node).value + 1;
      t.(proofs := WithSlot(t.proofs, k, c.proof[..32]), leaves := WithSlot(t.leaves, k, c.leaf[..32]),
         attested := t.attested + [c.node])
    else t
  }

  /** The row of the ticket in the table. */
  class TicketRow {
    const nodes: seq<NodeId>
    var proofs: array<Byte>
    var leaves: array<Byte>
    var attested: seq<NodeId>

    predicate Valid()
      reads this
    {
      proofs != leaves
    }

    function View(): Ticket
      reads this, proofs, leaves
    {
      Ticket(nodes, proofs[..], leaves[..], attested)
    }

    constructor (nodes: seq<NodeId>, proof: seq<Byte>, leaf: seq<Byte>)
      ensures Valid() && fresh(proofs) && fresh(leaves)
      ensures View() == NewTicket(nodes, proof, leaf)
    {
      var size := 32 * |nodes|;
      var resizedProof, resizedLeaf := Resized(proof, size), Resized(leaf, size);
      this.nodes := nodes;
      this.proofs := new Byte[size](i requires 0 <= i < size => resizedProof[i]);
      this.leaves := new Byte[size](i requires 0 <= i < size => resizedLeaf[i]);
      this.attested := [];
      new;
      assert proofs[..] == resizedProof && leaves[..] == resizedLeaf;
    }

    /** `update_stack_settlement_ticket_with_attestation_commitments`. */
    method UpdateWithAttestationCommitments(c: Commitment) returns (outcome: Outcome)
      requires Valid()
      modifies this`attested, proofs, leaves
      ensures Valid() && proofs == old(proofs) && leaves == old(leaves)
      ensures outcome == Judge(old(View()), c)
      ensures View() == Attest(old(View()), c)
    {
      var index := 0;
      while index < |nodes| && nodes[index] != c.node
        invariant index <= |nodes| && c.node !in nodes[..index]
        invariant View() == old(View())
      {
        index := index + 1;
      }
      PositionIs(nodes, c.node, index);
      if index == |nodes| {
        return NodeNotFound;
      }
      var start := (index + 1) * 32;
      var end := start + 32;
      if end > leaves.Length {
        return InvalidMerkleLeafLength;
      }
      if end > proofs.Length {
        return InvalidCommittedStackProofLength;
      }
      if |c.leaf| < 32 || |c.proof| < 32 {
        return Panicked;
      }
      CopyFromSlice(leaves, start, c.leaf[..32]);
      CopyFromSlice(proofs, start, c.proof[..32]);
      attested := attested + [c.node];
      return Accepted;
    }
  }

  lemma {:induction false} PositionIs(nodes: seq<NodeId>, node: NodeId, index: nat)
    requires index <= |nodes| && node !in nodes[..index] && (index < |nodes| ==> nodes[index] == node)
    ensures Position(nodes, node) == if index < |nodes| then Some(index) else None
  {
    if index > 0 {
      assert nodes[..index] == [nodes[0]] + nodes[1..][..index - 1];
      PositionIs(nodes[1..], node, index - 1);
    }
  }

  method CopyFromSlice(a: array<Byte>, start: nat, src: seq<Byte>)
    requires start + |src| <= a.Length
    modifies a
    ensures a[..] == old(a[..])[..start] + src + old(a[..])[start + |src|..]
  {
    for k := 0 to |src|
      invariant a[..] == old(a[..])[..start] + src[..k] + old(a[..])[start + k..]
    {
      a[start + k] := src[k];
      assert src[..k + 1] == src[..k] + [src[k]];
    }
    assert src[..|src|] == src;
  }

  /** Which commitments are accepted: those of a node listed anywhere but last, counting its
      first position, with at least 32 bytes each.  There is no slot for the node listed last. */
  lemma AcceptedIff(t: Ticket, c: Commitment)
    requires Sized(t)
    ensures Judge(t, c).Accepted?
       <==> WellFormed(c) && exists i :: 0 <= i < |t.nodes| - 1 && t.nodes[i] == c.node && c.node !in t.nodes[..i]
    ensures !Judge(t, c).Accepted? ==> Attest(t, c) == t
    ensures Judge(t, c) != InvalidCommittedStackProofLength
  {
    if i :| 0 <= i < |t.nodes| - 1 && t.nodes[i] == c.node && c.node !in t.nodes[..i] {
      PositionIs(t.nodes, c.node, i);
    }
  }

  // ---------------------------------------------------------------- runs

  function Run(t: Ticket, cs: seq<Commitment>): Ticket {
    if cs == [] then t else Attest(Run(t, cs[..|cs| - 1]), cs[|cs| - 1])
  }

  predicate WellFormed(c: Commitment) {
    |c.leaf| >= 32 && |c.proof| >= 32
  }

  /** The last complete commitment of a node. */
  function Latest(cs: seq<Commitment>, node: NodeId): (r: Option<Commitment>)
    ensures r.Some? ==> WellFormed(r.value) && r.value.node == node
  {
    if cs == [] then None
    else
      var c := cs[|cs| - 1];
      if c.node == node && WellFormed(c) then Some(c) else Latest(cs[..|cs| - 1], node)
  }

  /** The node whose commitments go to slot `j`, if any. */
  function SlotOwner(nodes: seq<NodeId>, j: nat): (r: Option<NodeId>)
    ensures r.Some? ==> 1 <= j <= |nodes| && r.value == nodes[j - 1] && Position(nodes, r.value) == Some(j - 1)
  {
    if 1 <= j <= |nodes| && Position(nodes, nodes[j - 1]) == Some(j - 1) then Some(nodes[j - 1]) else None
  }

  /** After any run of attestations the buffers have kept their size, and every slot holds the
      latest commitment of the node it belongs to, or what it held at first.  Slot 0 belongs to
      no attestation node. */
  lemma {:induction false} RunKeepsLatest(t: Ticket, cs: seq<Commitment>, j: nat)
    requires Sized(t) && j < |t.nodes|
    ensures Sized(Run(t, cs)) && Run(t, cs).nodes == t.nodes
    ensures var latest := LatestInSlot(t.nodes, cs, j);
            && Slot(Run(t, cs).proofs, j) == (if latest.Some? then latest.value.proof[..32] else Slot(t.proofs, j))
            && Slot(Run(t, cs).leaves, j) == (if latest.Some? then latest.value.leaf[..32] else Slot(t.leaves, j))
  {
    if cs != [] {
      var c := cs[|cs| - 1];
      RunKeepsLatest(t, cs[..|cs| - 1], j);
      AttestSlot(Run(t, cs[..|cs| - 1]), c, j);
      LatestGrows(t.nodes, cs, j);
      hide Attest, LatestInSlot, SlotOwner, Slot;
    }
  }

  function LatestInSlot(nodes: seq<NodeId>, cs: seq<Commitment>, j: nat): (r: Option<Commitment>)
    ensures r.Some? ==> WellFormed(r.value)
  {
    var owner := SlotOwner(nodes, j);
    if owner.Some? then Latest(cs, owner.value) else None
  }

  lemma LatestGrows(nodes: seq<NodeId>, cs: seq<Commitment>, j: nat)
    requires cs != []
    ensures var c := cs[|cs| - 1];
            LatestInSlot(nodes, cs, j)
            == if SlotOwner(nodes, j) == Some(c.node) && WellFormed(c) then Some(c) else LatestInSlot(nodes, cs[..|cs| - 1], j)
  {
  }

  /** One attestation replaces the slot of its node, if it has one, and no other. */
  lemma AttestSlot(t: Ticket, c: Commitment, j: nat)
    requires Sized(t) && j < |t.nodes|
    ensures Sized(Attest(t, c)) && Attest(t, c).nodes == t.nodes
    ensures Slot(Attest(t, c).proofs, j) == if SlotOwner(t.nodes, j) == Some(c.node) && WellFormed(c) then c.proof[..32] else Slot(t.proofs, j)
    ensures Slot(Attest(t, c).leaves, j) == if SlotOwner(t.nodes, j) == Some(c.node) && WellFormed(c) then c.leaf[..32] else Slot(t.leaves, j)
  {
    if Judge(t, c).Accepted? {
      var k := Position(t.nodes, c.node).value + 1;
      SlotOfWithSlot(t.proofs, k, c.proof[..32], j);
      SlotOfWithSlot(t.leaves, k, c.leaf[..32], j);
      hide WithSlot, Slot;
    }
  }

  lemma SlotZeroIsNeverTouched(nodes: seq<NodeId>, proof: seq<Byte>, leaf: seq<Byte>, cs: seq<Commitment>)
    requires nodes != []
    ensures var t := Run(NewTicket(nodes, proof, leaf), cs);
            && |t.proofs| == |t.leaves| == 32 * |nodes|
            && (forall i :: 0 <= i < 32 ==> t.proofs[i] == if i < |proof| then proof[i] else 0)
            && (forall i :: 0 <= i < 32 ==> t.leaves[i] == if i < |leaf| then leaf[i] else 0)
  {
    var start := NewTicket(nodes, proof, leaf);
    var t := Run(start, cs);
    RunKeepsLatest(start, cs, 0);
    forall i | 0 <= i < 32
      ensures t.proofs[i] == start.proofs[i] && t.leaves[i] == start.leaves[i]
    {
      assert t.proofs[i] == Slot(t.proofs, 0)[i] && t.leaves[i] == Slot(t.leaves, 0)[i];
    }
  }

  /** Runs in which every node's latest commitment is the same end with the same buffers; in
      particular the commitments of distinct nodes commute. */
  lemma OnlyLatestMatters(t: Ticket, cs: seq<Commitment>, ds: seq<Commitment>)
    requires Sized(t) && forall node :: Latest(cs, node) == Latest(ds, node)
    ensures Run(t, cs).proofs == Run(t, ds).proofs && Run(t, cs).leaves == Run(t, ds).leaves
  {
    var a, b, n := Run(t, cs), Run(t, ds), |t.nodes|;
    RunKeepsSize(t, cs);
    RunKeepsSize(t, ds);
    forall j: nat | j < n
      ensures Slot(a.proofs, j) == Slot(b.proofs, j) && Slot(a.leaves, j) == Slot(b.leaves, j)
    {
      RunKeepsLatest(t, cs, j);
      RunKeepsLatest(t, ds, j);
    }
    SlotsDetermine(a.proofs, b.proofs, n);
    SlotsDetermine(a.leaves, b.leaves, n);
  }

  lemma {:induction false} RunKeepsSize(t: Ticket, cs: seq<Commitment>)
    requires Sized(t)
    ensures Sized(Run(t, cs)) && Run(t, cs).nodes == t.nodes
  {
    if cs != [] {
      RunKeepsSize(t, cs[..|cs| - 1]);
    }
  }

  lemma DistinctNodesCommute(t: Ticket, c: Commitment, d: Commitment)
    requires Sized(t) && c.node != d.node
    ensures Attest(Attest(t, c), d).proofs == Attest(Attest(t, d), c).proofs
    ensures Attest(Attest(t, c), d).leaves == Attest(Attest(t, d), c).leaves
  {
    RunOfTwo(t, c, d);
    RunOfTwo(t, d, c);
    hide Attest;
    OnlyLatestMatters(t, [c, d], [d, c]);
  }

  lemma RunOfTwo(t: Ticket, c: Commitment, d: Commitment)
    ensures Run(t, [c, d]) == Attest(Attest(t, c), d)
    ensures forall node :: Latest([c, d], node) ==
              if d.node == node && WellFormed(d) then Some(d)
              else if c.node == node && WellFormed(c) then Some(c) else None
  {
    assert [c, d][..1] == [c] && [c][..0] == [];
    assert Run(t, [c]) == Attest(t, c);
    forall node
      ensures Latest([c], node) == if c.node == node && WellFormed(c) then Some(c) else None
    {
    }
  }
}
