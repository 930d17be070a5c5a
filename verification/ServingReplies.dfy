/**
 * What callers hear: owners their own outcome, duplicates that of the record they waited on, before and after
 * restarts.
 */
module ServingReplies {
  import opened Wrappers
  import opened CallJournal
  import opened ServerLedger
  import opened ServingHarness
  import opened Serving
  import opened ServingInvariant
  import opened ServingBooks
  import opened ServingRuns

  /** What waiting on a record tells: the answer of an executed call, three nils for a refused one. */
  function Told(r: Id, reply: Reply): Outcome {
    match reply
    case Answered(o) => AnswerOf(r, o)
    case _ => NILS
  }

  /** The handler finished once for the key with this outcome. */
  ghost predicate HasRun(h: History, key: string, o: Outcome) {
    exists price :: (price, o) in RunsOf(h.runs, key)
  }

  /** The reply is what the execution made for the record returned, or there was none. */
  ghost predicate FromExecution(h: History, r: Id, reply: Reply) {
    (reply.Answered? <==> r in h.ran) && (r in h.ran ==> reply.Answered? && reply.outcome == h.ran[r])
  }

  ghost predicate ReplyOk(s: State, r: Id)
    requires r in s.hist.replies
  {
    && (r.Fresh? ==> r.n < s.nextId && r !in s.owners && FromExecution(s.hist, r, s.hist.replies[r].1))
    && (r.Loaded? ==> r.life < s.nextId && s.hist.replies[r].1.Answered?)
    && (s.hist.replies[r].1.Answered? ==>
          HasRun(s.hist, s.hist.replies[r].0, s.hist.replies[r].1.outcome) && Returnable(s.hist.replies[r].1.outcome))
  }

  ghost predicate ClosedOk(s: State, r: Id)
    requires r in s.recs
  {
    s.recs[r].closed ==> r in s.hist.replies && s.recs[r].outcome == Told(r, s.hist.replies[r].1)
  }

  ghost predicate HeardOk(s: State, w: nat)
    requires w in s.hist.heard
  {
    s.hist.heard[w].0 in s.hist.replies
    && s.hist.heard[w].1 == Told(s.hist.heard[w].0, s.hist.replies[s.hist.heard[w].0].1)
  }

  ghost predicate OwnerRan(s: State, r: Id)
    requires r in s.owners
  {
    var phase := s.owners[r].phase;
    && (Answering(phase) ==> HasRun(s.hist, s.owners[r].key, phase.o))
    && (Answering(phase) <==> r in s.hist.ran)
    && (r in s.hist.ran ==> s.hist.ran[r] == phase.o)
  }

  ghost predicate OutcomeRan(s: State, k: string)
    requires k in s.hist.outcomes
  {
    HasRun(s.hist, k, s.hist.outcomes[k])
  }

  /** Executions are made for records of this life or an earlier one. */
  ghost predicate RanOk(s: State) {
    forall r :: r in s.hist.ran ==> r.Fresh? && r.n < s.nextId
  }

  ghost predicate SharedFate(s: State) {
    && RanOk(s)
    && (forall r {:trigger ReplyOk(s, r)} :: r in s.hist.replies ==> ReplyOk(s, r))
    && (forall r {:trigger ClosedOk(s, r)} :: r in s.recs ==> ClosedOk(s, r))
    && (forall w {:trigger HeardOk(s, w)} :: w in s.hist.heard ==> HeardOk(s, w))
    && (forall r {:trigger OwnerRan(s, r)} :: r in s.owners ==> OwnerRan(s, r))
    && (forall k {:trigger OutcomeRan(s, k)} :: k in s.hist.outcomes ==> OutcomeRan(s, k))
  }

  /** Executions are only added. */
  ghost predicate RunsGrow(h: History, h': History) {
    forall k, o :: HasRun(h, k, o) ==> HasRun(h', k, o)
  }

  lemma RecordRuns(s: State, r: Id)
    requires r in s.owners && RecordAt(s, r).Some?
    ensures RunsGrow(s.hist, RecordAt(s, r).value.hist)
    ensures HasRun(RecordAt(s, r).value.hist, s.owners[r].key, s.owners[r].phase.o)
  {
    var h, h' := s.hist, RecordAt(s, r).value.hist;
    var key, last := s.owners[r].key, (s.owners[r].price, s.owners[r].phase.o);
    assert last in RunsOf(h'.runs, key);
    forall k, o | HasRun(h, k, o) ensures HasRun(h', k, o) {
      var price :| (price, o) in RunsOf(h.runs, k);
      assert (price, o) in RunsOf(h'.runs, k);
    }
  }

  lemma SameRuns(s: State, l: Label)
    requires IsOwnerStep(l) && OwnerStep(s, l).Some? && !l.Record?
    ensures OwnerStep(s, l).value.hist.runs == s.hist.runs && OwnerStep(s, l).value.hist.ran == s.hist.ran
  {
    if !l.JournalOutcome? && !l.Close? {
      StepUnheard(s, l);
    }
  }

  lemma OwnerRunsGrow(s: State, l: Label)
    requires IsOwnerStep(l) && OwnerStep(s, l).Some?
    ensures RunsGrow(s.hist, OwnerStep(s, l).value.hist)
  {
    if l.Record? {
      RecordRuns(s, l.r);
    } else {
      SameRuns(s, l);
    }
  }

  /** Enough to check after a step of the owner of r. */
  lemma LocalShares(s: State, s': State, r: Id)
    requires Moving(s, r) && SharedFate(s) && OwnerTouches(s, s', r) && RunsGrow(s.hist, s'.hist)
    requires r in s'.hist.replies ==> ReplyOk(s', r)
    requires r in s'.recs ==> ClosedOk(s', r)
    requires r in s'.owners ==> OwnerRan(s', r)
    requires s.owners[r].key in s'.hist.outcomes ==> OutcomeRan(s', s.owners[r].key)
    ensures SharedFate(s')
  {
    assert r in s.hist.replies ==> ReplyOk(s, r);
    forall q | q in s'.hist.ran ensures q.Fresh? && q.n < s'.nextId {
      assert q != r ==> SameAt(s'.hist.ran, s.hist.ran, q);
    }
    forall q | q in s'.hist.replies && q != r ensures ReplyOk(s', q) {
      assert SameAt(s'.hist.replies, s.hist.replies, q) && ReplyOk(s, q) && SameAt(s'.owners, s.owners, q);
      assert SameAt(s'.hist.ran, s.hist.ran, q);
    }
    forall q | q in s'.recs && q != r ensures ClosedOk(s', q) {
      assert SameAt(s'.recs, s.recs, q) && ClosedOk(s, q) && SameAt(s'.hist.replies, s.hist.replies, q);
    }
    forall w | w in s'.hist.heard ensures HeardOk(s', w) {
      assert HeardOk(s, w);
      assert SameAt(s'.hist.replies, s.hist.replies, s.hist.heard[w].0);
    }
    forall q | q in s'.owners && q != r ensures OwnerRan(s', q) {
      assert SameAt(s'.owners, s.owners, q) && OwnerRan(s, q) && SameAt(s'.hist.ran, s.hist.ran, q);
    }
    forall k | k in s'.hist.outcomes && k != s.owners[r].key ensures OutcomeRan(s', k) {
      assert SameAt(s'.hist.outcomes, s.hist.outcomes, k) && OutcomeRan(s, k);
    }
  }

  /** What an owner's step leaves of its own record: open until it closes it, and then its reply is filed. */
  lemma OwnRecord(s: State, l: Label)
    requires IsOwnerStep(l) && Moving(s, l.r) && SharedFate(s) && OwnerStep(s, l).Some?
    ensures var s' := OwnerStep(s, l).value;
            && (l.r in s'.hist.replies ==> ReplyOk(s', l.r))
            && (l.r in s'.recs ==> ClosedOk(s', l.r))
  {
    assert OwnerRan(s, l.r);
    assert l.r in s.hist.replies ==> ReplyOk(s, l.r);
    OwnerRunsGrow(s, l);
    if !l.Close? {
      StaysOpen(s, l);
    }
  }

  /** An owner's step leaves its record open, and files nothing. */
  ghost predicate LeavesOpen(s: State, s': State, r: Id) {
    (r in s'.recs ==> !s'.recs[r].closed) && s'.hist.replies == s.hist.replies
  }

  lemma StaysOpen(s: State, l: Label)
    requires IsOwnerStep(l) && Moving(s, l.r) && OwnerStep(s, l).Some? && !l.Close?
    ensures LeavesOpen(s, OwnerStep(s, l).value, l.r)
  {
    if !l.Record? && !l.JournalOutcome? {
      StepUnheard(s, l);
    }
  }

  /** What an owner's step leaves of what it ran. */
  lemma OwnerRanStays(s: State, l: Label)
    requires IsOwnerStep(l) && Moving(s, l.r) && OwnerRan(s, l.r) && OwnerStep(s, l).Some?
    ensures l.r in OwnerStep(s, l).value.owners ==> OwnerRan(OwnerStep(s, l).value, l.r)
  {
    if l.Record? {
      RecordRuns(s, l.r);
    } else {
      SameRuns(s, l);
      if !l.JournalOutcome? && !l.Close? {
        StepUnheard(s, l);
      }
    }
  }

  /** What an owner's step leaves of what its key ran. */
  lemma OutcomeRanStays(s: State, l: Label)
    requires IsOwnerStep(l) && Moving(s, l.r) && SharedFate(s) && OwnerStep(s, l).Some?
    ensures s.owners[l.r].key in OwnerStep(s, l).value.hist.outcomes ==>
              OutcomeRan(OwnerStep(s, l).value, s.owners[l.r].key)
  {
    var key := s.owners[l.r].key;
    assert OwnerRan(s, l.r) && (key in s.hist.outcomes ==> OutcomeRan(s, key));
    if l.Record? {
      RecordRuns(s, l.r);
    } else {
      SameRuns(s, l);
      if !l.JournalOutcome? {
        SameOutcomes(s, l);
      }
    }
  }

  lemma OwnerStepShares(s: State, l: Label)
    requires Core(s) && SharedFate(s) && IsOwnerStep(l) && OwnerStep(s, l).Some?
    ensures SharedFate(OwnerStep(s, l).value)
  {
    assert OwnerOk(s, l.r) && (s.owners[l.r].key in s.calls ==> CallOk(s, s.owners[l.r].key));
    OwnerStepTouches(s, l);
    OwnerRunsGrow(s, l);
    OwnRecord(s, l);
    assert OwnerRan(s, l.r);
    OwnerRanStays(s, l);
    OutcomeRanStays(s, l);
    LocalShares(s, OwnerStep(s, l).value, l.r);
  }

  /** Steps that run, journal and file nothing. */
  lemma QuietShares(s: State, s': State)
    requires SharedFate(s) && s'.nextId >= s.nextId
    requires s'.hist.replies == s.hist.replies && s'.hist.runs == s.hist.runs && s'.hist.outcomes == s.hist.outcomes
    requires s'.hist.ran == s.hist.ran
    requires forall r :: r in s'.recs && s'.recs[r].closed ==> r in s.recs && s'.recs[r] == s.recs[r]
    requires forall w :: w in s'.hist.heard ==> HeardOk(s', w)
    requires forall r :: r in s'.owners ==>
               (r in s.owners && s'.owners[r] == s.owners[r]) || (r == Fresh(s.nextId) && s'.owners[r].phase.Claimed?)
    ensures SharedFate(s')
  {
    forall r | r in s'.hist.replies ensures ReplyOk(s', r) {
      assert ReplyOk(s, r);
    }
    forall r | r in s'.recs ensures ClosedOk(s', r) {
      assert r in s.recs ==> ClosedOk(s, r);
    }
    forall r | r in s'.owners ensures OwnerRan(s', r) {
      assert r in s.owners ==> OwnerRan(s, r);
    }
    forall k | k in s'.hist.outcomes ensures OutcomeRan(s', k) {
      assert OutcomeRan(s, k);
    }
  }

  lemma HeardStays(s: State)
    requires SharedFate(s)
    ensures forall w :: w in s.hist.heard ==> HeardOk(s, w)
  {
  }

  lemma WakeShares(s: State, w: nat)
    requires SharedFate(s) && WakeStep(s, w).Some?
    ensures SharedFate(WakeStep(s, w).value)
  {
    var s' := WakeStep(s, w).value;
    assert ClosedOk(s, s.waiters[w]);
    forall v | v in s'.hist.heard ensures HeardOk(s', v) {
      assert v in s.hist.heard ==> HeardOk(s, v);
    }
    QuietShares(s, s');
  }

  lemma ClaimShares(s: State, peer: string, callKey: string)
    requires SharedFate(s) && Linked(s)
    ensures SharedFate(ClaimStep(s, peer, callKey))
  {
    var s' := ClaimStep(s, peer, callKey);
    forall w | w in s'.hist.heard ensures HeardOk(s', w) {
      assert HeardOk(s, w);
    }
    QuietShares(s, s');
  }

  /** The records a restart rebuilds answer executions of an earlier life, as the journal replays them. */
  lemma BootDoneShares(s: State)
    requires Shape(s) && SharedFate(s) && s.mode == Booting({}, None)
    ensures SharedFate(BootDoneStep(s))
  {
    ShapeIsForAll(s);
    var s', loaded := BootDoneStep(s), ReloadedRecords(s.journal, s.now);
    forall r | r in s'.hist.replies ensures ReplyOk(s', r) {
      if r in s.hist.replies {
        assert ReplyOk(s, r);
      }
      if r in LoadedReplies(loaded, s.hist, s.nextId) {
        assert EntryOk(s, r.key) && OutcomeRan(s, r.key);
      }
    }
    forall r | r in s'.recs ensures ClosedOk(s', r) {
      assert EntryOk(s, r.key);
      RebuiltAnswers(s, r.key);
      assert r in LoadedReplies(loaded, s.hist, s.nextId);
    }
    forall w | w in s'.hist.heard ensures HeardOk(s', w) {
      assert HeardOk(s, w) && ReplyOk(s, s.hist.heard[w].0);
    }
    forall k | k in s'.hist.outcomes ensures OutcomeRan(s', k) {
      assert OutcomeRan(s, k);
    }
  }

  lemma StepShares(s: State, l: Label)
    requires Core(s) && SharedFate(s) && Step(s, l).Some? && (l.BootDone? ==> Shape(s))
    ensures SharedFate(Step(s, l).value)
  {
    HeardStays(s);
    if IsOwnerStep(l) {
      OwnerStepShares(s, l);
    } else if l.BootDone? {
      BootDoneShares(s);
    } else if l.Wake? {
      WakeShares(s, l.w);
    } else if l.Claim? {
      ClaimShares(s, l.peer, l.callKey);
    } else {
      RestShares(s, l);
    }
  }

  lemma RestShares(s: State, l: Label)
    requires SharedFate(s) && Step(s, l).Some? && !IsOwnerStep(l) && !l.BootDone? && !l.Wake? && !l.Claim?
    ensures SharedFate(Step(s, l).value)
  {
    var s' := Step(s, l).value;
    forall w | w in s'.hist.heard ensures HeardOk(s', w) {
      assert HeardOk(s, w);
    }
    QuietShares(s, s');
  }

  lemma {:induction false} RunShares(s: State, ls: seq<Label>, t: State)
    requires Inv(s) && SharedFate(s) && Run(s, ls, t)
    ensures SharedFate(t)
    decreases |ls|
  {
    if ls != [] {
      StepKeeps(s, ls[0]);
      StepShares(s, ls[0]);
      RunShares(Step(s, ls[0]).value, ls[1..], t);
    }
  }

  /**
   * In every run a duplicate that waited on a claim answers what the claim's owner answered when the call
   * ran, and three nils, not the refusal, when the owner was refused. What it answers of a call that ran
   * is the outcome of the execution made for the record it waited on, a finished execution of that key.
   */
  lemma DuplicatesHearTheOwner(s: State, ls: seq<Label>, t: State, w: nat)
    requires Initial(s) && Run(s, ls, t) && w in t.hist.heard && t.hist.heard[w].0.Fresh?
    ensures t.hist.heard[w].0 in t.hist.replies
    ensures var (key, reply), o := t.hist.replies[t.hist.heard[w].0], t.hist.heard[w].1;
            && (reply.Answered? <==> t.hist.heard[w].0 in t.hist.ran)
            && if reply.Answered? then o == t.hist.ran[t.hist.heard[w].0] == reply.outcome && HasRun(t.hist, key, o)
               else o == NILS
  {
    InitialInv(s);
    RunShares(s, ls, t);
    assert HeardOk(t, w) && ReplyOk(t, t.hist.heard[w].0);
  }

  /**
   * In every run a duplicate answered off a record rebuilt after a restart concerns a finished execution of its
   * key. It hears that execution's outcome if and only if the outcome fits the cap and its error, if any, has a
   * text; a success without output if only the text is missing; and the fixed refusal above the cap.
   */
  lemma RebuiltRecordsReplay(s: State, ls: seq<Label>, t: State, w: nat)
    requires Initial(s) && Run(s, ls, t) && w in t.hist.heard && t.hist.heard[w].0.Loaded?
    ensures t.hist.heard[w].0 in t.hist.replies && t.hist.replies[t.hist.heard[w].0].1.Answered?
    ensures var key, o := t.hist.replies[t.hist.heard[w].0].0, t.hist.replies[t.hist.heard[w].0].1.outcome;
            var heard := t.hist.heard[w].1;
            && HasRun(t.hist, key, o)
            && (heard == o <==> Fits(o) && o.err != Some(""))
            && (Fits(o) && o.err == Some("") ==> heard == NILS)
            && (!Fits(o) ==> heard == Outcome(None, None, Some(NOT_RETAINED)))
  {
    InitialInv(s);
    RunShares(s, ls, t);
    assert HeardOk(t, w) && ReplyOk(t, t.hist.heard[w].0);
    ReloadReplays("", 0, t.hist.replies[t.hist.heard[w].0].1.outcome, 0);
  }
}
