/**
 * The directory's record of outbound payments (directory/client.go): an entry is removed by the position it was given.
 */
module SpendJournal {
  import opened Wrappers

  datatype Payment = Payment(ts: int, uid: string, tool: string, atoms: int)

  function Removed(entries: seq<Payment>, token: int): seq<Payment> {
    if 0 <= token < |entries| then entries[..token] + entries[token + 1..] else entries
  }

  class Journal {
    var entries: seq<Payment>
    var disk: seq<Payment>

    ghost predicate Valid()
      reads this
    {
      disk == entries
    }

    constructor (stored: seq<Payment>)
      ensures Valid() && entries == stored
    {
      entries, disk := stored, stored;
    }

    /** The token is the entry's position. */
    method Record(e: Payment) returns (token: int)
      modifies this
      ensures Valid() && entries == old(entries) + [e] && token == |old(entries)| && entries[token] == e
    {
      entries := entries + [e];
      disk := entries;
      token := |entries| - 1;
    }

    method Remove(token: int)
      requires Valid()
      modifies this
      ensures Valid() && entries == Removed(old(entries), token)
      ensures token < 0 || |old(entries)| <= token ==> entries == old(entries)
      ensures 0 <= token < |old(entries)| ==>
                && |entries| == |old(entries)| - 1
                && (forall i :: 0 <= i < token ==> entries[i] == old(entries)[i])
                && (forall i :: token <= i < |entries| ==> entries[i] == old(entries)[i + 1])
    {
      if token < 0 || token >= |entries| {
        return;
      }
      entries := entries[..token] + entries[token + 1..];
      disk := entries;
    }
  }

  /** What other payments do to the journal meanwhile. */
  datatype Op = Add(e: Payment) | Drop(token: int)

  function After(entries: seq<Payment>, ops: seq<Op>): seq<Payment> {
    if ops == [] then entries
    else
      var before := After(entries, ops[..|ops| - 1]);
      match ops[|ops| - 1]
      case Add(e) => before + [e]
      case Drop(token) => Removed(before, token)
  }

  /** Where the entry that was at position p is after the operations; None when one of them removed it. */
  function Whereabouts(entries: seq<Payment>, p: nat, ops: seq<Op>): Option<nat> {
    if ops == [] then Some(p)
    else
      match Whereabouts(entries, p, ops[..|ops| - 1])
      case None => None
      case Some(q) => Moved(q, ops[|ops| - 1])
  }

  /** The removals among the operations are all of later positions. */
  ghost predicate Undisturbed(p: nat, ops: seq<Op>) {
    forall i :: 0 <= i < |ops| && ops[i].Drop? ==> !(0 <= ops[i].token <= p)
  }

  /** Where one more operation takes the entry at position q. */
  function Moved(q: nat, op: Op): Option<nat> {
    match op
    case Add(_) => Some(q)
    case Drop(token) => if !(0 <= token <= q) then Some(q) else if token == q then None else Some(q - 1)
  }

  lemma MovedThere(before: seq<Payment>, q: nat, op: Op)
    requires q < |before|
    ensures var now := if op.Add? then before + [op.e] else Removed(before, op.token);
            Moved(q, op).Some? ==> Moved(q, op).value <= q && Moved(q, op).value < |now|
                                   && now[Moved(q, op).value] == before[q]
  {
  }

  /** The tracked entry is where it is tracked to, never past its first position. */
  lemma {:induction false} Tracked(entries: seq<Payment>, p: nat, ops: seq<Op>)
    requires p < |entries|
    ensures var q := Whereabouts(entries, p, ops);
            q.Some? ==> q.value <= p && q.value < |After(entries, ops)| && After(entries, ops)[q.value] == entries[p]
  {
    if ops != [] {
      var before := ops[..|ops| - 1];
      Tracked(entries, p, before);
      if Whereabouts(entries, p, before).Some? {
        MovedThere(After(entries, before), Whereabouts(entries, p, before).value, ops[|ops| - 1]);
      }
    }
  }

  /** A token still names its own entry exactly while no entry at or before it has been removed. */
  lemma {:induction false} TokenNamesItsEntry(entries: seq<Payment>, p: nat, ops: seq<Op>)
    requires p < |entries|
    ensures Whereabouts(entries, p, ops) == Some(p) <==> Undisturbed(p, ops)
  {
    if ops != [] {
      var before, last := ops[..|ops| - 1], ops[|ops| - 1];
      Tracked(entries, p, before);
      TokenNamesItsEntry(entries, p, before);
      assert Undisturbed(p, ops) <==> Undisturbed(p, before) && !(last.Drop? && 0 <= last.token <= p) by {
        assert forall i :: 0 <= i < |before| ==> ops[i] == before[i];
        assert ops[|ops| - 1] == last;
      }
    }
  }

  /** Undisturbed, removing by token takes out that one entry and keeps every other. */
  lemma RemovalIsOwn(entries: seq<Payment>, e: Payment, ops: seq<Op>)
    requires Undisturbed(|entries|, ops)
    ensures var now := After(entries + [e], ops); |entries| < |now| && now[|entries|] == e
  {
    TokenNamesItsEntry(entries + [e], |entries|, ops);
    Tracked(entries + [e], |entries|, ops);
  }

  /** Two payments fail, oldest first: the second removal hides the entry of a third one, whose money may have left. */
  lemma SecondFailureHidesAThird(a: Payment, b: Payment, c: Payment)
    requires a != b && b != c && a != c
    ensures Removed(Removed([a, b, c], 0), 1) == [b]
    ensures c !in Removed(Removed([a, b, c], 0), 1)
  {
    assert Removed([a, b, c], 0) == [b, c];
    assert Removed([b, c], 1) == [b];
  }
}
