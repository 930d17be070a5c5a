/**
 * The bridge's spend log (bridge/payment.go): every payment the bridge launched or refused, with the
 * outcome the rail reported. Times are Unix seconds.
 */
module SpendLog {
  import opened Wrappers
  import opened Search
  import opened Uids

  /** Legacy is the empty status of entries older than outcome tracking. */
  datatype Status = Pending | Paid | Failed | Refused | Legacy

  /** num numbers the payments of one process; entries read back from disk have number 0. */
  datatype Entry = Entry(ts: int, bot: string, tool: string, rail: string, atoms: int, status: Status, err: string,
                         num: nat)

  type Log = seq<Entry>

  const KEEP := 1000
  const DAY := 86400

  predicate Counts(status: Status) {
    status != Failed && status != Refused
  }

  function SpentSince(log: Log, cut: int): int {
    if log == [] then 0
    else
      var e := log[|log| - 1];
      SpentSince(log[..|log| - 1], cut) + (if e.ts >= cut && Counts(e.status) then e.atoms else 0)
  }

  function Numbered(num: nat): Entry -> bool {
    (e: Entry) => e.num == num && num != 0
  }

  function AwaitedBy(uid: string, atoms: int): Entry -> bool {
    (e: Entry) => e.status == Pending && e.atoms == atoms && EqualFold(e.bot, uid)
  }

  predicate MustStay(e: Entry, cut: int) {
    (e.ts >= cut && Counts(e.status)) || e.status == Pending
  }

  /** Pending, or from the window and of money that moved or may still move. */
  predicate Held(e: Entry, cut: int) {
    || e.status == Pending
    || (cut <= e.ts && (e.status == Paid || e.status == Legacy))
  }

  function Protected(cut: int): Entry -> bool {
    (e: Entry) => MustStay(e, cut)
  }

  /** How many of the oldest entries persisting drops. */
  function Dropped(log: Log, now: int): (n: nat)
    ensures n <= |log|
  {
    if |log| <= KEEP then 0 else FirstBelow(log, Protected(now - DAY), 0, |log| - KEEP)
  }

  function Pruned(log: Log, now: int): Log {
    log[Dropped(log, now)..]
  }

  function Judged(e: Entry, status: Status, err: string): Entry {
    e.(status := status, err := err)
  }

  /** The log before it is pruned. */
  function Marked(log: Log, num: nat, status: Status, err: string): Log {
    var i := First(log, Numbered(num));
    if i < |log| then log[i := Judged(log[i], status, err)] else log
  }

  /** res is the error of a failed payment, None for a settled one. */
  function Resolved(log: Log, uid: string, atoms: int, res: Option<string>): Log {
    var i := First(log, AwaitedBy(uid, atoms));
    if i == |log| then log
    else match res
      case Some(err) => log[i := Judged(log[i], Failed, err)]
      case None => log[i := Judged(log[i], Paid, "")]
  }

  /** No entry has a number not given out yet. */
  predicate Numbers(log: Log, spendSeq: nat) {
    forall i :: 0 <= i < |log| ==> log[i].num <= spendSeq
  }

  /** What the file holds: the numbers are not written. */
  function Unnumbered(log: Log): Log {
    seq(|log|, i requires 0 <= i < |log| => log[i].(num := 0))
  }

  // ------------------------------------------------------------ what counts, and outcomes

  /** One entry counts its atoms from its own second on, unless it failed or was refused. */
  lemma SpentOne(e: Entry, cut: int)
    ensures SpentSince([e], cut)
         == if cut <= e.ts && (e.status == Pending || e.status == Paid || e.status == Legacy) then e.atoms else 0
  {
    assert [e][..0] == [];
  }

  /** A mark changes status and error of the first entry with the number, of this process, and nothing else. */
  lemma MarkedIs(log: Log, num: nat, status: Status, err: string, i: nat)
    requires i < |log| && forall j :: 0 <= j < i ==> log[j].num != num
    ensures num != 0 && log[i].num == num ==>
              Marked(log, num, status, err) == log[i := log[i].(status := status, err := err)]
    ensures i == |log| - 1 && (num == 0 || log[i].num != num) ==> Marked(log, num, status, err) == log
  {
    if num != 0 && log[i].num == num {
      FirstIs(log, Numbered(num), |log|, i);
    } else if i == |log| - 1 {
      assert forall j :: 0 <= j < |log| ==> !Numbered(num)(log[j]);
    }
  }

  /** The entry waits for this outcome: it is pending, for this amount, to this payee in whatever case. */
  predicate Awaits(e: Entry, uid: string, atoms: int) {
    && e.status == Pending && e.atoms == atoms && |e.bot| == |uid|
    && forall i :: 0 <= i < |uid| ==> SameLetter(e.bot[i], uid[i])
  }

  /**
   * A late outcome closes the oldest entry that waits for it: as paid when settled, as failed with the error if not.
   */
  lemma ResolvedIs(log: Log, uid: string, atoms: int, res: Option<string>, i: nat)
    requires i <= |log| && (forall j :: 0 <= j < i ==> !Awaits(log[j], uid, atoms))
    requires i < |log| ==> Awaits(log[i], uid, atoms)
    ensures First(log, AwaitedBy(uid, atoms)) == i
    ensures i < |log| && res.None? ==> Resolved(log, uid, atoms, res) == log[i := log[i].(status := Paid, err := "")]
    ensures i < |log| && res.Some? ==>
              Resolved(log, uid, atoms, res) == log[i := log[i].(status := Failed, err := res.value)]
    ensures i == |log| ==> Resolved(log, uid, atoms, res) == log
  {
    forall j | 0 <= j < |log| ensures AwaitedBy(uid, atoms)(log[j]) <==> Awaits(log[j], uid, atoms) {
      FoldsCase(log[j].bot, uid);
    }
    FirstIs(log, AwaitedBy(uid, atoms), |log|, i);
  }

  // ------------------------------------------------------------ pruning

  lemma {:induction false} SpentAppend(a: Log, b: Log, cut: int)
    ensures SpentSince(a + b, cut) == SpentSince(a, cut) + SpentSince(b, cut)
  {
    if b == [] {
      assert a + b == a;
    } else {
      assert (a + b)[..|a + b| - 1] == a + b[..|b| - 1];
      SpentAppend(a, b[..|b| - 1], cut);
    }
  }

  /** Entries that are not protected at one instant add nothing to the total since that instant or later. */
  lemma {:induction false} UnprotectedIsSpent(log: Log, cut: int, later: int)
    requires cut <= later && forall i :: 0 <= i < |log| ==> !MustStay(log[i], cut)
    ensures SpentSince(log, later) == 0
  {
    if log != [] {
      assert !MustStay(log[|log| - 1], cut);
      UnprotectedIsSpent(log[..|log| - 1], cut, later);
    }
  }

  lemma DroppedMayGo(log: Log, now: int)
    ensures forall i :: 0 <= i < Dropped(log, now) ==> !MustStay(log[i], now - DAY)
  {
    forall i | 0 <= i < Dropped(log, now) ensures !MustStay(log[i], now - DAY) {
      assert !Protected(now - DAY)(log[i]);
    }
  }

  /**
   * Pruning keeps a suffix of the log, drops no payment whose outcome is open, and changes no rolling
   * total, now or later; what remains is at most KEEP entries or starts with an entry that must stay.
   */
  lemma PruneIsTransparent(log: Log, now: int)
    ensures log == log[..Dropped(log, now)] + Pruned(log, now)
    ensures forall i :: 0 <= i < Dropped(log, now) ==> log[i].status != Pending
    ensures forall cut :: now - 86_400 <= cut ==> SpentSince(Pruned(log, now), cut) == SpentSince(log, cut)
    ensures |Pruned(log, now)| <= 1000 || Held(Pruned(log, now)[0], now - 86_400)
    ensures |Pruned(log, now)| >= if |log| <= 1000 then |log| else 1000
    ensures forall i :: 0 <= i < Dropped(log, now) ==> !Held(log[i], now - 86_400)
  {
    var n := Dropped(log, now);
    DroppedMayGo(log, now);
    forall cut | now - DAY <= cut ensures SpentSince(Pruned(log, now), cut) == SpentSince(log, cut) {
      UnprotectedIsSpent(log[..n], now - DAY, cut);
      SpentAppend(log[..n], log[n..], cut);
      assert log == log[..n] + log[n..];
    }
    forall i | 0 <= i < n ensures log[i].status != Pending && !Held(log[i], now - DAY) {
      assert !MustStay(log[i], now - DAY);
    }
  }

  /** A log pruned a moment ago is not pruned further at the same instant. */
  lemma PruneOnce(log: Log, now: int)
    ensures Pruned(Pruned(log, now), now) == Pruned(log, now)
  {
    PruneIsTransparent(log, now);
  }

  // ------------------------------------------------------------ the object

  class SpendBook {
    var spend: Log
    var spendSeq: nat
    var disk: Log

    ghost predicate Valid()
      reads this
    {
      disk == Unnumbered(spend) && Numbers(spend, spendSeq)
    }

    /** A new process starts from the file. */
    constructor (stored: Log)
      requires Unnumbered(stored) == stored
      ensures Valid() && spend == stored && spendSeq == 0
    {
      spend, spendSeq, disk := stored, 0, stored;
      assert forall i :: 0 <= i < |stored| ==> stored[i] == Unnumbered(stored)[i];
    }

    method SpentAfter(cutoff: int) returns (total: int)
      ensures total == SpentSince(spend, cutoff)
    {
      total := 0;
      for i := 0 to |spend|
        invariant total == SpentSince(spend[..i], cutoff)
      {
        assert spend[..i + 1][..i] == spend[..i];
        if spend[i].ts >= cutoff && Counts(spend[i].status) {
          total := total + spend[i].atoms;
        }
      }
      assert spend[..|spend|] == spend;
    }

    method Persist(now: int)
      requires Numbers(spend, spendSeq)
      modifies this
      ensures Valid() && spend == Pruned(old(spend), now) && spendSeq == old(spendSeq)
    {
      if |spend| > KEEP {
        var first := |spend| - KEEP;
        var cut := now - DAY;
        var i := 0;
        while i < first
          invariant 0 <= i <= first <= |spend| && spend == old(spend)
          invariant first == |spend| - KEEP
          invariant forall j :: 0 <= j < i ==> !Protected(cut)(spend[j])
        {
          if (spend[i].ts >= cut && Counts(spend[i].status)) || spend[i].status == Pending {
            first := i;
            break;
          }
          i := i + 1;
        }
        FirstIs(spend, Protected(cut), |spend| - KEEP, first);
        spend := spend[first..];
      }
      disk := Unnumbered(spend);
    }

    method RecordSpend(now: int, bot: string, tool: string, rail: string, atoms: int) returns (num: nat)
      requires Valid()
      modifies this
      ensures Valid() && num == spendSeq == old(spendSeq) + 1
      ensures spend == Pruned(old(spend) + [Entry(now, bot, tool, rail, atoms, Pending, "", num)], now)
    {
      spendSeq := spendSeq + 1;
      num := spendSeq;
      spend := spend + [Entry(now, bot, tool, rail, atoms, Pending, "", num)];
      Persist(now);
    }

    method Refuse(now: int, bot: string, tool: string, atoms: int, reason: string)
      requires Valid()
      modifies this
      ensures Valid() && spendSeq == old(spendSeq) + 1
      ensures spend == Pruned(old(spend) + [Entry(now, bot, tool, "tip", atoms, Refused, reason, spendSeq)], now)
    {
      spendSeq := spendSeq + 1;
      spend := spend + [Entry(now, bot, tool, "tip", atoms, Refused, reason, spendSeq)];
      Persist(now);
    }

    /** Nothing is written when no entry has the number. */
    method MarkSpend(num: nat, status: Status, err: string, now: int)
      requires Valid()
      modifies this
      ensures Valid() && spendSeq == old(spendSeq)
      ensures First(old(spend), Numbered(num)) == |old(spend)| ==> spend == old(spend)
      ensures First(old(spend), Numbered(num)) < |old(spend)| ==>
                spend == Pruned(Marked(old(spend), num, status, err), now)
    {
      var i := 0;
      while i < |spend|
        invariant 0 <= i <= |spend| && spend == old(spend) && disk == old(disk) && spendSeq == old(spendSeq)
        invariant forall j :: 0 <= j < i ==> !Numbered(num)(spend[j])
      {
        if spend[i].num == num && num != 0 {
          FirstIs(spend, Numbered(num), |spend|, i);
          spend := spend[i := Judged(spend[i], status, err)];
          Persist(now);
          return;
        }
        i := i + 1;
      }
    }

    method ResolveSpend(uid: string, atoms: int, res: Option<string>, now: int) returns (found: bool)
      requires Valid()
      modifies this
      ensures Valid() && spendSeq == old(spendSeq)
      ensures found <==> First(old(spend), AwaitedBy(uid, atoms)) < |old(spend)|
      ensures spend == if found then Pruned(Resolved(old(spend), uid, atoms, res), now) else old(spend)
    {
      var i := 0;
      while i < |spend|
        invariant 0 <= i <= |spend| && spend == old(spend) && disk == old(disk) && spendSeq == old(spendSeq)
        invariant forall j :: 0 <= j < i ==> !AwaitedBy(uid, atoms)(spend[j])
      {
        if spend[i].status != Pending || spend[i].atoms != atoms || !EqualFold(spend[i].bot, uid) {
          i := i + 1;
          continue;
        }
        FirstIs(spend, AwaitedBy(uid, atoms), |spend|, i);
        match res {
          case Some(err) => spend := spend[i := Judged(spend[i], Failed, err)];
          case None => spend := spend[i := Judged(spend[i], Paid, "")];
        }
        Persist(now);
        return true;
      }
      found := false;
    }
  }
}
