/**
 * The set of credited tips a bot remembers (server/tipjournal.go): the newest 1000 sequence ids, as a list and as a
 * set.
 */
module TipJournal {
  const KEEP := 1000

  function Newest(seqs: seq<nat>): seq<nat> {
    if |seqs| <= KEEP then seqs else seqs[|seqs| - KEEP..]
  }

  function Recorded(seqs: seq<nat>, id: nat): seq<nat> {
    if id in seqs then seqs else Newest(seqs + [id])
  }

  ghost predicate Distinct(seqs: seq<nat>) {
    forall i, j :: 0 <= i < j < |seqs| ==> seqs[i] != seqs[j]
  }

  function Ids(seqs: seq<nat>): set<nat> {
    set id | id in seqs
  }

  class Journal {
    var seqs: seq<nat>
    var seen: set<nat>
    var disk: seq<nat>

    /** The set always equals the list, which has no repeats and at most KEEP items. */
    ghost predicate Valid()
      reads this
    {
      seen == Ids(seqs) && Distinct(seqs) && |seqs| <= KEEP && disk == seqs
    }

    /** Reading the file back rebuilds the set, whatever the file holds; a file written by Record makes it valid. */
    constructor (stored: seq<nat>)
      ensures seqs == stored && seen == Ids(stored) && disk == stored
      ensures Distinct(stored) && |stored| <= KEEP ==> Valid()
    {
      seqs, seen, disk := stored, {}, stored;
      new;
      for i := 0 to |stored|
        invariant seqs == stored && disk == stored && seen == Ids(stored[..i])
      {
        seen := seen + {stored[i]};
        assert stored[..i + 1] == stored[..i] + [stored[i]];
      }
      assert stored[..|stored|] == stored;
    }

    method Seen(id: nat) returns (yes: bool)
      requires Valid()
      ensures yes <==> id in seqs
    {
      yes := id in seen;
    }

    method Record(id: nat)
      requires Valid()
      modifies this
      ensures Valid() && seqs == Recorded(old(seqs), id)
      ensures id in old(seqs) ==> seqs == old(seqs)
      ensures id !in old(seqs) ==>
                && 0 < |seqs| && seqs[|seqs| - 1] == id
                && |seqs| == (if |old(seqs)| < 1000 then |old(seqs)| + 1 else 1000)
                && seqs[..|seqs| - 1] == old(seqs)[|old(seqs)| + 1 - |seqs|..]
    {
      if id in seen {
        return;
      }
      seen := seen + {id};
      seqs := seqs + [id];
      if |seqs| > KEEP {
        var n := |seqs| - KEEP;
        ghost var all := seqs;
        for i := 0 to n
          invariant seqs == all && seen == Ids(all) - Ids(all[..i])
        {
          seen := seen - {seqs[i]};
          assert all[..i + 1] == all[..i] + [all[i]];
        }
        DropsExactly(all, n);
        seqs := seqs[n..];
      }
      disk := seqs;
    }
  }

  lemma DropsExactly(all: seq<nat>, n: nat)
    requires Distinct(all) && n <= |all|
    ensures Ids(all) - Ids(all[..n]) == Ids(all[n..])
  {
    forall i | 0 <= i < |all| ensures all[i] in if i < n then all[..n] else all[n..] {
      assert all[i] == if i < n then all[..n][i] else all[n..][i - n];
    }
    forall id | id in all[n..] ensures id !in all[..n] {
      var j :| 0 <= j < |all[n..]| && all[n..][j] == id;
      assert all[n + j] == id;
    }
  }
}
