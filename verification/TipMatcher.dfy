/**
 * Matching the rail's terminal tip events to waiting payments, oldest first per (payee, milliatoms):
 * TipMatcher and TipPayer of bridge/tipmatcher.go and bridge/tippayer.go.
 */
module TipMatcher {
  import opened Wrappers
  import opened Search
  import opened Uids

  /** How a tip ended. */
  datatype Verdict = Settled | Failed(err: string)

  /** One outcome no live payment consumed, as the late handler receives it. */
  datatype Outcome = Outcome(uid: string, atoms: int, verdict: Verdict)

  const ENDED := "tip attempt ended without completing"

  class TipWait {
    const uid: string
    const matoms: int
    var done: Option<Verdict>

    constructor (uid: string, matoms: int)
      ensures this.uid == uid && this.matoms == matoms && done == None
    {
      this.uid, this.matoms, done := uid, matoms, None;
    }
  }

  function Matches(uid: string, matoms: int): TipWait -> bool {
    (w: TipWait) => EqualFold(w.uid, uid) && w.matoms == matoms
  }

  /** The waiter is for this payee, in whatever case its id is written, and this amount. */
  predicate IsFor(w: TipWait, uid: string, matoms: int) {
    && w.matoms == matoms && |w.uid| == |uid|
    && forall i :: 0 <= i < |uid| ==> SameLetter(w.uid[i], uid[i])
  }

  ghost predicate Oldest(ws: seq<TipWait>, uid: string, matoms: int, i: int) {
    0 <= i < |ws| && IsFor(ws[i], uid, matoms) && forall j :: 0 <= j < i ==> !IsFor(ws[j], uid, matoms)
  }

  /** The first match is the oldest waiter for payee and amount. */
  lemma FirstIsOldest(ws: seq<TipWait>, uid: string, matoms: int)
    ensures forall i :: 0 <= i < |ws| ==> (Matches(uid, matoms)(ws[i]) <==> IsFor(ws[i], uid, matoms))
    ensures forall i :: Oldest(ws, uid, matoms, i) <==> i == First(ws, Matches(uid, matoms)) < |ws|
  {
    forall i | 0 <= i < |ws| ensures Matches(uid, matoms)(ws[i]) <==> IsFor(ws[i], uid, matoms) {
      FoldsCase(ws[i].uid, uid);
    }
  }

  function Is(w: TipWait): TipWait -> bool {
    (v: TipWait) => v == w
  }

  class Matcher {
    var waiters: seq<TipWait>

    /** Nobody waits twice, and whoever waits has heard nothing yet. */
    ghost predicate Valid()
      reads this, waiters
    {
      && (forall i, j :: 0 <= i < j < |waiters| ==> waiters[i] != waiters[j])
      && (forall i :: 0 <= i < |waiters| ==> waiters[i].done == None)
    }

    constructor ()
      ensures Valid() && waiters == []
    {
      waiters := [];
    }

    method Expect(uid: string, matoms: int) returns (w: TipWait)
      requires Valid()
      modifies this
      ensures Valid() && fresh(w) && w.uid == uid && w.matoms == matoms && w.done == None
      ensures waiters == old(waiters) + [w]
    {
      w := new TipWait(uid, matoms);
      waiters := waiters + [w];
    }

    /** The oldest match hears the result and stops waiting; every other waiter is left alone. */
    method Resolve(uid: string, matoms: int, res: Verdict) returns (found: bool)
      requires Valid()
      modifies this, waiters
      ensures Valid() && found == (First(old(waiters), Matches(uid, matoms)) < |old(waiters)|)
      ensures !found ==> waiters == old(waiters)
      ensures found ==>
                var i := First(old(waiters), Matches(uid, matoms));
                waiters == Without(old(waiters), i) && old(waiters)[i].done == Some(res)
      ensures forall w :: w in old(waiters) ==>
                (found && w == old(waiters)[First(old(waiters), Matches(uid, matoms))]) || w.done == old(w.done)
      ensures found <==> exists i :: 0 <= i < |old(waiters)| && IsFor(old(waiters)[i], uid, matoms)
      ensures forall i :: Oldest(old(waiters), uid, matoms, i) ==>
                waiters == old(waiters)[..i] + old(waiters)[i + 1..] && old(waiters)[i].done == Some(res)
    {
      FirstIsOldest(waiters, uid, matoms);
      found := Scan(uid, matoms, res);
    }

    /** Its loop over the waiters. */
    method Scan(uid: string, matoms: int, res: Verdict) returns (found: bool)
      requires Valid()
      modifies this, waiters
      ensures Valid() && found == (First(old(waiters), Matches(uid, matoms)) < |old(waiters)|)
      ensures !found ==> waiters == old(waiters)
      ensures found ==>
                var i := First(old(waiters), Matches(uid, matoms));
                waiters == Without(old(waiters), i) && old(waiters)[i].done == Some(res)
      ensures forall w :: w in old(waiters) ==>
                (found && w == old(waiters)[First(old(waiters), Matches(uid, matoms))]) || w.done == old(w.done)
    {
      var i := 0;
      while i < |waiters|
        invariant 0 <= i <= |waiters| && waiters == old(waiters)
        invariant forall j :: 0 <= j < i ==> !Matches(uid, matoms)(waiters[j])
        invariant forall w :: w in waiters ==> w.done == old(w.done)
      {
        var w := waiters[i];
        if EqualFold(w.uid, uid) && w.matoms == matoms {
          FirstIs(waiters, Matches(uid, matoms), |waiters|, i);
          waiters := waiters[..i] + waiters[i + 1..];
          w.done := Some(res);
          return true;
        }
        i := i + 1;
      }
      found := false;
    }

    method Cancel(w: TipWait)
      requires Valid()
      modifies this
      ensures Valid() && w !in waiters
      ensures w !in old(waiters) ==> waiters == old(waiters)
      ensures w in old(waiters) ==> waiters == Without(old(waiters), First(old(waiters), Is(w)))
    {
      var i := 0;
      while i < |waiters|
        invariant 0 <= i <= |waiters| && waiters == old(waiters)
        invariant forall j :: 0 <= j < i ==> !Is(w)(waiters[j])
      {
        if waiters[i] == w {
          FirstIs(waiters, Is(w), |waiters|, i);
          waiters := waiters[..i] + waiters[i + 1..];
          return;
        }
        i := i + 1;
      }
      assert forall j :: 0 <= j < |waiters| ==> !Is(w)(waiters[j]);
    }
  }

  /** The verdict of a terminal event; None for one that will be retried. */
  function VerdictOf(completed: bool, attemptErr: Option<string>, willRetry: bool): Option<Verdict> {
    if willRetry && !completed then None
    else if completed then Some(Settled)
    else Some(Failed(match attemptErr case Some(err) => err case None => ENDED))
  }

  /**
   * A completed tip has settled; one that is not has failed, with the attempt's error or the fixed text, or goes on.
   */
  lemma VerdictIs(completed: bool, attemptErr: Option<string>, willRetry: bool)
    ensures completed ==> VerdictOf(completed, attemptErr, willRetry) == Some(Settled)
    ensures !completed && willRetry ==> VerdictOf(completed, attemptErr, willRetry) == None
    ensures !completed && !willRetry && attemptErr.Some? ==>
              VerdictOf(completed, attemptErr, willRetry) == Some(Failed(attemptErr.value))
    ensures !completed && !willRetry && attemptErr.None? ==>
              VerdictOf(completed, attemptErr, willRetry) == Some(Failed("tip attempt ended without completing"))
  {
  }

  /** Go's remainder truncates: it is zero exactly when the Euclidean one is. */
  predicate WholeAtoms(matoms: int) {
    matoms % 1000 == 0
  }

  class TipPayer {
    const matcher: Matcher
    /** The calls of the late handler, in order. */
    var late: seq<Outcome>

    ghost predicate Valid()
      reads this, matcher, matcher.waiters
    {
      matcher.Valid()
    }

    constructor ()
      ensures Valid() && fresh(matcher) && matcher.waiters == [] && late == []
    {
      matcher := new Matcher();
      late := [];
    }

    /**
     * The outcome has reached the oldest waiter for payee and amount, or else the late handler, in whole atoms only.
     */
    ghost predicate Reached(ws: seq<TipWait>, uid: string, matoms: int, res: Verdict, left: seq<TipWait>,
                            handled: seq<Outcome>)
      reads this, ws
    {
      && (forall i :: Oldest(ws, uid, matoms, i) ==>
            ws[i].done == Some(res) && left == ws[..i] + ws[i + 1..] && late == handled)
      && ((forall i :: 0 <= i < |ws| ==> !IsFor(ws[i], uid, matoms)) ==>
            left == ws && late == handled + (if matoms % 1000 == 0 then [Outcome(uid, matoms / 1000, res)] else []))
    }

    /** Every terminal event reaches the oldest matching waiter, or else the late handler when it is of whole atoms. */
    method Progress(uid: string, matoms: int, completed: bool, attemptErr: Option<string>, willRetry: bool)
      requires Valid()
      modifies this, matcher, matcher.waiters
      ensures Valid()
      ensures var v, ws := VerdictOf(completed, attemptErr, willRetry), old(matcher.waiters);
              var i := First(ws, Matches(uid, matoms));
              if v.None? then matcher.waiters == ws && late == old(late)
              else if i < |ws| then
                matcher.waiters == Without(ws, i) && ws[i].done == v && late == old(late)
              else
                && matcher.waiters == ws
                && late == old(late) + (if WholeAtoms(matoms) then [Outcome(uid, matoms / 1000, v.value)] else [])
      ensures !completed && willRetry ==> matcher.waiters == old(matcher.waiters) && late == old(late)
      ensures completed ==> Reached(old(matcher.waiters), uid, matoms, Settled, matcher.waiters, old(late))
      ensures !completed && !willRetry ==>
                var err := if attemptErr.Some? then attemptErr.value else "tip attempt ended without completing";
                Reached(old(matcher.waiters), uid, matoms, Failed(err), matcher.waiters, old(late))
      ensures forall w :: w in old(matcher.waiters) && w in matcher.waiters ==> w.done == old(w.done)
    {
      VerdictIs(completed, attemptErr, willRetry);
      FirstIsOldest(matcher.waiters, uid, matoms);
      if willRetry && !completed {
        return;
      }
      var res := Settled;
      if !completed {
        res := match attemptErr case Some(err) => Failed(err) case None => Failed(ENDED);
      }
      var found := matcher.Resolve(uid, matoms, res);
      if found {
        return;
      }
      if matoms % 1000 == 0 {
        late := late + [Outcome(uid, matoms / 1000, res)];
      }
    }

    /**
     * The deadline of a payment: it stops waiting, and an outcome that came in the same instant goes to the late
     * handler.
     */
    method Expire(w: TipWait, atoms: int)
      requires Valid()
      modifies this, matcher
      ensures Valid() && w !in matcher.waiters
      ensures forall v :: v in old(matcher.waiters) && v != w ==> v in matcher.waiters
      ensures late == old(late) + (if w.done.Some? then [Outcome(w.uid, atoms, w.done.value)] else [])
    {
      var was := matcher.waiters;
      matcher.Cancel(w);
      forall v | v in was && v != w ensures v in matcher.waiters {
        StaysAfter(was, w, v);
      }
      match w.done {
        case Some(res) => late := late + [Outcome(w.uid, atoms, res)];
        case None =>
      }
    }
  }

  lemma StaysAfter(ws: seq<TipWait>, w: TipWait, v: TipWait)
    requires v in ws && v != w
    ensures w in ws ==> v in Without(ws, First(ws, Is(w)))
  {
    if w in ws {
      var i := First(ws, Is(w));
      var j :| 0 <= j < |ws| && ws[j] == v;
      var k :| 0 <= k < |ws| && ws[k] == w;
      assert i < |ws| by {
        assert Is(w)(ws[k]);
      }
      assert Is(w)(ws[i]);
      assert v == if j < i then Without(ws, i)[j] else Without(ws, i)[j - 1];
    }
  }
}
