/**
 * Who gets listed: in runs where no write goes astray, exactly registrations whose own paid test passed, and first-time
 * ones only with an administrator's approval of that very registration. Two races show what happens otherwise.
 */
module ListingSafety {
  import opened Wrappers
  import opened MapSums
  import opened DirectoryEntry
  import opened Pipeline
  import opened PipelineRuns

  /** A publication of a tested registration, approved itself unless it is a renewal. */
  predicate Earned(h: History, pub: Publication) {
    && pub.id in h.passed
    && (pub.renewal || (!pub.byPipeline && pub.approval == pub.id))
  }

  /** Whoever may still publish the current registration will read a clock past the instant. */
  ghost predicate ApprovedBefore(s: State, at: int) {
    && (s.worker.Publishes? && !s.hist.orphan ==> at <= s.worker.since)
    && (s.entry.reg.Some? && s.entry.reg.value.id in s.granted ==> at <= s.granted[s.entry.reg.value.id])
  }

  ghost predicate Sound(s: State) {
    && (s.entry.reg.Some? ==>
          var r := s.entry.reg.value;
          && (r.outcome == Passed ==> r.id in s.hist.passed)
          && 0 <= r.paid <= r.terms.budget
          && (r.id in s.granted ==> r.phase == Pending))
    && (s.entry.live.Some? ==>
          && s.entry.live.value.origin in s.hist.passed
          && s.entry.live.value.approvedAt <= s.entry.live.value.verifiedAt
          && ApprovedBefore(s, s.entry.live.value.approvedAt))
    && (forall i :: 0 <= i < |s.hist.published| ==> Earned(s.hist, s.hist.published[i]))
  }

  lemma TestSound(s: State, p: Policy, paidNow: nat, passed: bool)
    requires Inv(s, p) && Sound(s) && WorkerStep(s, p, TestEnds(paidNow, passed)).Some?
    requires !StaleWrite(s, TestEnds(paidNow, passed))
    ensures Sound(WorkerStep(s, p, TestEnds(paidNow, passed)).value)
  {
  }

  lemma PublishedSound(s: State, p: Policy, at: int, byPipeline: bool, approval: nat)
    requires Inv(s, p) && Sound(s) && Promoted(s.entry, at, p.expiryDays).Some?
    requires if byPipeline then s.entry.reg.value.renewal else approval == s.entry.reg.value.id
    requires s.entry.live.Some? ==> s.entry.live.value.approvedAt <= at
    ensures Sound(Published(s, p, at, byPipeline, approval))
  {
  }

  lemma PublishSound(s: State, p: Policy, at: int)
    requires Inv(s, p) && Sound(s) && s.worker.Publishes? && s.worker.since <= at && !StaleWrite(s, Publish(at))
    ensures Sound(PublishStep(s, p, at))
  {
    if Promoted(s.entry, at, p.expiryDays).Some? {
      IdleKeeps(s, p);
      PublishedSound(WithWorker(s, Idle), p, at, true, 0);
    }
  }

  lemma WorkerSound(s: State, p: Policy, l: Label)
    requires Inv(s, p) && Sound(s) && WorkerStep(s, p, l).Some? && !StaleWrite(s, l)
    ensures Sound(WorkerStep(s, p, l).value)
  {
    match l {
      case TestEnds(paidNow, passed) => TestSound(s, p, paidNow, passed);
      case Publish(at) => PublishSound(s, p, at);
      case _ =>
    }
  }

  lemma OutsideSound(s: State, p: Policy, l: Label)
    requires Inv(s, p) && Sound(s) && OutsideStep(s, p, l).Some?
    ensures Sound(OutsideStep(s, p, l).value)
  {
    if l.Register? {
      RegisterSound(s, p, l.terms);
    }
  }

  lemma RegisterSound(s: State, p: Policy, terms: Terms)
    requires Inv(s, p) && Sound(s) && OutsideStep(s, p, Register(terms)).Some?
    ensures Sound(OutsideStep(s, p, Register(terms)).value)
  {
  }

  lemma AdminSound(s: State, p: Policy, l: Label)
    requires Inv(s, p) && Sound(s) && AdminStep(s, p, l).Some? && !StaleApproval(s, l)
    ensures Sound(AdminStep(s, p, l).value)
  {
    if l.ApprovePublish? && Promoted(s.entry, l.at, p.expiryDays).Some? {
      PublishedSound(s, p, l.at, false, l.id);
    }
  }

  lemma {:induction false} RunSound(t: Trace, p: Policy)
    requires Sensible(p) && End(t, p).Some? && Fresh(t, p)
    ensures Sound(End(t, p).value)
  {
    if t.Then? {
      var s, l := End(t.before, p).value, t.step;
      RunSound(t.before, p);
      RunKeeps(t.before, p);
      if IsOutside(l) {
        OutsideSound(s, p, l);
      } else if IsWorker(l) {
        WorkerSound(s, p, l);
      } else {
        AdminSound(s, p, l);
      }
    }
  }

  // ------------------------------------------------------------ what a renewal is

  /** The provider was listed when registration number id was made. */
  ghost predicate ListedWhenMade(t: Trace, p: Policy, id: nat) {
    t.Then? && End(t.before, p).Some? && End(t, p).Some? &&
    (|| ListedWhenMade(t.before, p, id)
     || (&& |End(t.before, p).value.hist.issued| == id && |End(t, p).value.hist.issued| == id + 1
         && End(t.before, p).value.entry.live.Some?))
  }

  /** A renewal in the entry was there before, or is new and was made over a listing. */
  ghost predicate RenewsTruly(s: State, s': State) {
    s'.entry.reg.Some? && s'.entry.reg.value.renewal ==>
      || (s.entry.reg.Some? && s.entry.reg.value.renewal && s.entry.reg.value.id == s'.entry.reg.value.id)
      || (|s'.hist.issued| == |s.hist.issued| + 1 && s'.entry.reg.value.id == |s.hist.issued| && s.entry.live.Some?)
  }

  /** What is published is what the entry holds, by its flag. */
  ghost predicate PublishesTruly(s: State, s': State) {
    || s'.hist.published == s.hist.published
    || (&& s.entry.reg.Some? && |s'.hist.published| == |s.hist.published| + 1
        && s'.hist.published[..|s.hist.published|] == s.hist.published
        && s'.hist.published[|s.hist.published|].id == s.entry.reg.value.id
        && s'.hist.published[|s.hist.published|].renewal == s.entry.reg.value.renewal)
  }

  lemma OutsideRenews(s: State, p: Policy, l: Label)
    requires OutsideStep(s, p, l).Some?
    ensures RenewsTruly(s, OutsideStep(s, p, l).value) && PublishesTruly(s, OutsideStep(s, p, l).value)
  {
  }

  lemma WorkerRenews(s: State, p: Policy, l: Label)
    requires WorkerStep(s, p, l).Some?
    ensures RenewsTruly(s, WorkerStep(s, p, l).value) && PublishesTruly(s, WorkerStep(s, p, l).value)
  {
  }

  lemma AdminRenews(s: State, p: Policy, l: Label)
    requires AdminStep(s, p, l).Some?
    ensures RenewsTruly(s, AdminStep(s, p, l).value) && PublishesTruly(s, AdminStep(s, p, l).value)
  {
  }

  /** What one step adds to a list, of which all had a property before, has it. */
  lemma OneMore(pubs: seq<Publication>, pubs': seq<Publication>, good: Publication -> bool)
    requires forall i :: 0 <= i < |pubs| ==> good(pubs[i])
    requires pubs' == pubs || (|pubs'| == |pubs| + 1 && pubs'[..|pubs|] == pubs && good(pubs'[|pubs|]))
    ensures forall i :: 0 <= i < |pubs'| ==> good(pubs'[i])
  {
    forall i | 0 <= i < |pubs'| ensures good(pubs'[i]) {
      if i < |pubs| {
        assert pubs'[i] == pubs[i];
      }
    }
  }

  /** The flag of a publication is true of the run. */
  ghost function FlagHolds(t: Trace, p: Policy): Publication -> bool {
    (pub: Publication) => pub.renewal ==> ListedWhenMade(t, p, pub.id)
  }

  lemma ListedStays(t: Trace, p: Policy, id: nat)
    requires t.Then? && End(t, p).Some? && ListedWhenMade(t.before, p, id)
    ensures ListedWhenMade(t, p, id)
  {
  }

  lemma FlagsStay(t: Trace, p: Policy, pubs: seq<Publication>)
    requires t.Then? && End(t, p).Some? && forall i :: 0 <= i < |pubs| ==> FlagHolds(t.before, p)(pubs[i])
    ensures forall i :: 0 <= i < |pubs| ==> FlagHolds(t, p)(pubs[i])
  {
    forall i | 0 <= i < |pubs| ensures FlagHolds(t, p)(pubs[i]) {
      assert FlagHolds(t.before, p)(pubs[i]);
      if pubs[i].renewal {
        ListedStays(t, p, pubs[i].id);
      }
    }
  }

  lemma RenewalStays(t: Trace, p: Policy, s: State, s': State)
    requires t.Then? && End(t.before, p) == Some(s) && End(t, p) == Some(s') && RenewsTruly(s, s')
    requires s.entry.reg.Some? && s.entry.reg.value.renewal ==> ListedWhenMade(t.before, p, s.entry.reg.value.id)
    ensures s'.entry.reg.Some? && s'.entry.reg.value.renewal ==> ListedWhenMade(t, p, s'.entry.reg.value.id)
  {
  }

  /** In every run, whatever goes astray, a renewal is of a provider that was listed when it was made. */
  lemma {:induction false} RenewalsWereListed(t: Trace, p: Policy, s: State)
    requires End(t, p) == Some(s)
    ensures s.entry.reg.Some? && s.entry.reg.value.renewal ==> ListedWhenMade(t, p, s.entry.reg.value.id)
    ensures forall i :: 0 <= i < |s.hist.published| ==> FlagHolds(t, p)(s.hist.published[i])
  {
    if t.Then? {
      var before := End(t.before, p).value;
      RenewalsWereListed(t.before, p, before);
      StepRenews(before, p, t.step);
      RenewalStays(t, p, before, s);
      FlagsStay(t, p, before.hist.published);
      if before.entry.reg.Some? && before.entry.reg.value.renewal {
        ListedStays(t, p, before.entry.reg.value.id);
      }
      OneMore(before.hist.published, s.hist.published, FlagHolds(t, p));
    }
  }

  lemma StepRenews(s: State, p: Policy, l: Label)
    requires Step(s, p, l).Some?
    ensures RenewsTruly(s, Step(s, p, l).value) && PublishesTruly(s, Step(s, p, l).value)
  {
    if IsOutside(l) {
      OutsideRenews(s, p, l);
    } else if IsWorker(l) {
      WorkerRenews(s, p, l);
    } else {
      AdminRenews(s, p, l);
    }
  }

  /** An administrator went to approve the entry while it held registration number id, parked. */
  ghost predicate SeenParked(t: Trace, p: Policy, id: nat) {
    t.Then? && End(t.before, p).Some? &&
    (|| SeenParked(t.before, p, id)
     || (t.step.ApproveRead? && Shows(End(t.before, p).value.entry, id, Pending)))
  }

  predicate Shows(e: Entry, id: nat, phase: Phase) {
    e.reg.Some? && e.reg.value.id == id && e.reg.value.phase == phase
  }

  /** The pipeline ran the test of registration number id, and it passed. */
  ghost predicate PassedItsTest(t: Trace, p: Policy, id: nat) {
    t.Then? && End(t.before, p).Some? &&
    (|| PassedItsTest(t.before, p, id)
     || (&& t.step.TestEnds? && t.step.passed
         && End(t.before, p).value.worker.Tests? && End(t.before, p).value.worker.snap.id == id))
  }

  /** Grants and passed tests come from these steps, and an approval rests on a grant. */
  ghost predicate NotesTruly(s: State, s': State, l: Label) {
    && (forall id :: id in s'.granted ==> id in s.granted || (l.ApproveRead? && Shows(s.entry, id, Pending)))
    && (forall id :: id in s'.hist.passed ==>
          id in s.hist.passed || (l.TestEnds? && l.passed && s.worker.Tests? && s.worker.snap.id == id))
    && (|| s'.hist.published == s.hist.published
        || (&& |s'.hist.published| == |s.hist.published| + 1
            && s'.hist.published[..|s.hist.published|] == s.hist.published
            && var pub := s'.hist.published[|s.hist.published|]; pub.byPipeline || pub.approval in s.granted))
  }

  lemma OutsideNotes(s: State, p: Policy, l: Label)
    requires OutsideStep(s, p, l).Some?
    ensures NotesTruly(s, OutsideStep(s, p, l).value, l)
  {
  }

  lemma WorkerNotes(s: State, p: Policy, l: Label)
    requires WorkerStep(s, p, l).Some?
    ensures NotesTruly(s, WorkerStep(s, p, l).value, l)
  {
  }

  lemma AdminNotes(s: State, p: Policy, l: Label)
    requires AdminStep(s, p, l).Some?
    ensures NotesTruly(s, AdminStep(s, p, l).value, l)
  {
  }

  lemma StepNotes(s: State, p: Policy, l: Label)
    requires Step(s, p, l).Some?
    ensures NotesTruly(s, Step(s, p, l).value, l)
  {
    if IsOutside(l) {
      OutsideNotes(s, p, l);
    } else if IsWorker(l) {
      WorkerNotes(s, p, l);
    } else {
      AdminNotes(s, p, l);
    }
  }

  /** The approval of a publication was of a registration somebody saw parked. */
  ghost function ApprovalHolds(t: Trace, p: Policy): Publication -> bool {
    (pub: Publication) => pub.byPipeline || SeenParked(t, p, pub.approval)
  }

  lemma SeenStays(t: Trace, p: Policy, pubs: seq<Publication>)
    requires t.Then? && End(t, p).Some? && forall i :: 0 <= i < |pubs| ==> ApprovalHolds(t.before, p)(pubs[i])
    ensures forall i :: 0 <= i < |pubs| ==> ApprovalHolds(t, p)(pubs[i])
  {
    forall i | 0 <= i < |pubs| ensures ApprovalHolds(t, p)(pubs[i]) {
      assert ApprovalHolds(t.before, p)(pubs[i]);
    }
  }

  lemma SetsStay(t: Trace, p: Policy, s: State, s': State)
    requires t.Then? && End(t.before, p) == Some(s) && End(t, p) == Some(s') && NotesTruly(s, s', t.step)
    requires forall id :: id in s.granted ==> SeenParked(t.before, p, id)
    requires forall id :: id in s.hist.passed ==> PassedItsTest(t.before, p, id)
    ensures forall id :: id in s.granted || id in s'.granted ==> SeenParked(t, p, id)
    ensures forall id :: id in s'.hist.passed ==> PassedItsTest(t, p, id)
  {
  }

  /** In every run, what the history says of tests and approvals happened. */
  lemma {:induction false} NotesAreTrue(t: Trace, p: Policy, s: State)
    requires End(t, p) == Some(s)
    ensures forall id :: id in s.granted ==> SeenParked(t, p, id)
    ensures forall id :: id in s.hist.passed ==> PassedItsTest(t, p, id)
    ensures forall i :: 0 <= i < |s.hist.published| ==> ApprovalHolds(t, p)(s.hist.published[i])
  {
    if t.Then? {
      var before := End(t.before, p).value;
      NotesAreTrue(t.before, p, before);
      StepNotes(before, p, t.step);
      SetsStay(t, p, before, s);
      SeenStays(t, p, before.hist.published);
      OneMore(before.hist.published, s.hist.published, ApprovalHolds(t, p));
    }
  }

  /**
   * In every run, with any crashes, in which no registration is taken from a running pipeline and approvals meet what
   * the administrator saw: each publication is of a registration whose own test passed, and which an administrator saw
   * parked and approved unless the provider was listed when it registered; the listing shows that registration's frozen
   * terms, and was approved no later than it was verified; and what a registration records as paid stays within its
   * budget.
   */
  lemma {:induction false} OnlyTestedAreListed(t: Trace, p: Policy, s: State)
    requires Sensible(p) && End(t, p) == Some(s) && NeverTaken(t, p) && ApprovedInTime(t, p)
    ensures forall i :: 0 <= i < |s.hist.published| ==>
              var pub := s.hist.published[i];
              && PassedItsTest(t, p, pub.id)
              && (ListedWhenMade(t, p, pub.id) || (!pub.byPipeline && SeenParked(t, p, pub.id)))
    ensures s.entry.live.Some? ==>
              && PassedItsTest(t, p, s.entry.live.value.origin)
              && s.entry.live.value.approvedAt <= s.entry.live.value.verifiedAt < s.entry.live.value.expiresAt
              && s.entry.live.value.origin < |s.hist.issued|
              && s.entry.live.value.terms == s.hist.issued[s.entry.live.value.origin].terms
    ensures s.entry.reg.Some? ==> 0 <= s.entry.reg.value.paid <= s.entry.reg.value.terms.budget
  {
    NothingTakenNothingStale(t, p);
    RunSound(t, p);
    RunKeeps(t, p);
    RenewalsWereListed(t, p, s);
    NotesAreTrue(t, p, s);
    forall i | 0 <= i < |s.hist.published|
      ensures var pub := s.hist.published[i];
              && PassedItsTest(t, p, pub.id)
              && (ListedWhenMade(t, p, pub.id) || (!pub.byPipeline && SeenParked(t, p, pub.id)))
    {
      assert Earned(s.hist, s.hist.published[i]);
      assert FlagHolds(t, p)(s.hist.published[i]) && ApprovalHolds(t, p)(s.hist.published[i]);
    }
  }

  lemma KeyStays(s: State, p: Policy, l: Label)
    requires Inv(s, p) && Step(s, p, l).Some? && !StaleWrite(s, l)
    requires s.entry.reg.Some? && Step(s, p, l).value.entry.reg.Some?
    requires s.entry.reg.value.id == Step(s, p, l).value.entry.reg.value.id && s.entry.reg.value.key != ""
    ensures Step(s, p, l).value.entry.reg.value.key == s.entry.reg.value.key
  {
    if IsWorker(l) {
      WorkerKeyStays(s, p, l);
    } else if IsOutside(l) {
      OutsideKeyStays(s, p, l);
    } else {
      AdminKeyStays(s, p, l);
    }
  }

  /** The entry still holds the registration, with its call key. */
  ghost predicate SameKey(s: State, s': State) {
    s.entry.reg.Some? && s'.entry.reg.Some? && s.entry.reg.value.id == s'.entry.reg.value.id ==>
      s'.entry.reg.value.key == s.entry.reg.value.key
  }

  lemma WorkerKeyStays(s: State, p: Policy, l: Label)
    requires Inv(s, p) && WorkerStep(s, p, l).Some? && !StaleWrite(s, l)
    requires s.entry.reg.Some? && s.entry.reg.value.key != ""
    ensures SameKey(s, WorkerStep(s, p, l).value)
  {
  }

  lemma OutsideKeyStays(s: State, p: Policy, l: Label)
    requires Inv(s, p) && OutsideStep(s, p, l).Some?
    ensures SameKey(s, OutsideStep(s, p, l).value)
  {
  }

  lemma AdminKeyStays(s: State, p: Policy, l: Label)
    requires Inv(s, p) && AdminStep(s, p, l).Some?
    ensures SameKey(s, AdminStep(s, p, l).value)
  {
  }

  /**
   * Between any two points of a run in which no write goes astray, a registration keeps the call key it had at the
   * first, whatever restarts and repeated tests come in between.
   */
  lemma {:induction false} KeyIsKept(t: Trace, u: Trace, p: Policy, s: State, s': State)
    requires Sensible(p) && Extends(t, u) && End(t, p) == Some(s) && End(u, p) == Some(s') && Fresh(u, p)
    requires s.entry.reg.Some? && s'.entry.reg.Some? && s.entry.reg.value.id == s'.entry.reg.value.id
    requires s.entry.reg.value.key != ""
    ensures s'.entry.reg.value.key == s.entry.reg.value.key
  {
    if t != u {
      var before := End(u.before, p).value;
      ExtendsRuns(t, u.before, p);
      RunKeeps(t, p);
      RunKeeps(u.before, p);
      IssuedStays(t, u.before, p, s.entry.reg.value.id);
      StepRemembers(before, p, u.step);
      KeyIsKept(t, u.before, p, s, before);
      KeyStays(before, p, u.step);
    }
  }

  // ------------------------------------------------------------ two races

  predicate Legal(terms: Terms, p: Policy) {
    0 < terms.budget <= p.budgetMax
  }

  /** The first registration of a provider, and that registration with its call key. */
  function Applied(terms: Terms, p: Policy): Reg {
    Reg(0, Awaiting, terms, p.fee, "", 0, false, Untested)
  }

  function UnderTest(terms: Terms, p: Policy): Reg {
    Applied(terms, p).(phase := Testing, key := "k")
  }

  /** A provider pays in, registers and is funded. */
  lemma ProviderFunds(now: int, terms: Terms, p: Policy) returns (t: Trace)
    requires Sensible(p) && Legal(terms, p)
    ensures var r := Applied(terms, p);
            End(t, p) == Some(State(now, Entry(None, Some(r.(phase := Crawling)), ""), Idle, terms.budget, map[], 0, {},
                                    History([r], {}, map[0 := p.fee], 0, p.fee + terms.budget, [], false)))
  {
    var t0 := Begin(now);
    var t1 := Then(t0, Credit(p.fee + terms.budget));
    var s1 := End(t0, p).value.(balance := p.fee + terms.budget);
    s1 := s1.(hist := s1.hist.(net := p.fee + terms.budget));
    assert End(t1, p) == Some(s1);
    var t2 := Then(t1, Register(terms));
    var s2 := s1.(entry := Entry(None, Some(Applied(terms, p)), ""), hist := s1.hist.(issued := [Applied(terms, p)]));
    assert s1.hist.issued + [Applied(terms, p)] == [Applied(terms, p)];
    assert End(t2, p) == Some(s2);
    t := Then(t2, Poke);
  }

  /** The pipeline crawls it and begins its test. */
  lemma TestBegins(now: int, terms: Terms, p: Policy) returns (t: Trace)
    requires Sensible(p) && Legal(terms, p)
    ensures var r := UnderTest(terms, p);
            End(t, p) == Some(State(now, Entry(None, Some(r), ""), Tests(r), terms.budget, map[], 0, {},
                                    History([Applied(terms, p)], {}, map[0 := p.fee], 0, p.fee + terms.budget, [],
                                            false)))
  {
    var t3 := ProviderFunds(now, terms, p);
    var s3 := End(t3, p).value;
    var t4 := Then(t3, Spawn);
    assert End(t4, p) == Some(s3.(worker := Begun));
    var t5 := Then(t4, Read);
    assert End(t5, p) == Some(s3.(worker := Crawls(0, "")));
    var t6 := Then(t5, CrawlPasses("k"));
    assert End(t6, p) == Some(s3.(entry := Entry(None, Some(UnderTest(terms, p)), ""), worker := Rereads));
    t := Then(t6, Reread);
  }

  /** An approval of a parked registration with a passed outcome lists it. */
  lemma ApprovalLists(t: Trace, p: Policy, s: State) returns (u: Trace, s': State)
    requires End(t, p) == Some(s) && s.entry.reg.Some? && s.granted == map[]
    requires s.entry.reg.value.phase == Pending && s.entry.reg.value.outcome == Passed
    ensures End(u, p) == Some(s') && s'.entry.live.Some? && s'.entry.live.value.terms == s.entry.reg.value.terms
    ensures s'.entry.live.value.origin == s.entry.reg.value.id && s'.entry.reg.None?
    ensures s'.hist.moved == s.hist.moved && s'.hist.passed == s.hist.passed && s'.hist.issued == s.hist.issued
    ensures s'.entry.live.value.expiresAt == s.now + p.expiryDays * 86400
    ensures s'.now == s.now && s'.balance == s.balance && s'.deleters == s.deleters && s'.worker == s.worker
    ensures s'.hist.lost == s.hist.lost
  {
    var id := s.entry.reg.value.id;
    var t1 := Then(t, ApproveRead);
    var s1 := s.(granted := s.granted[id := s.now]);
    assert End(t1, p) == Some(s1);
    u := Then(t1, ApprovePublish(id, s.now));
    s' := Published(s1, p, s.now, false, id);
  }

  /** The result of a test lands on a registration made after the tested one was rejected. */
  lemma ResultGoesAstray(now: int, terms: Terms, other: Terms, p: Policy) returns (t: Trace, s: State)
    requires Sensible(p) && Legal(terms, p) && Legal(other, p)
    ensures End(t, p) == Some(s) && !Fresh(t, p) && s.granted == map[] && |s.hist.issued| == 2
    ensures s.entry.reg.Some? && s.entry.reg.value.id == 1 && s.entry.reg.value.terms == other
    ensures s.entry.reg.value.phase == Pending && s.entry.reg.value.outcome == Passed
    ensures s.hist.moved == map[0 := p.fee] && s.hist.passed == {0}
  {
    var t0 := TestBegins(now, terms, p);
    var s0 := End(t0, p).value;
    var t1 := Then(t0, Reject("no"));
    var s1 := s0.(entry := Entry(None, None, "no"), hist := s0.hist.(orphan := true));
    assert End(t1, p) == Some(s1);
    var t2 := Then(t1, Register(other));
    var r := Applied(other, p).(id := 1);
    var s2 := s1.(entry := Entry(None, Some(r), "no"), hist := s1.hist.(issued := s1.hist.issued + [r]));
    assert End(t2, p) == Some(s2);
    t := Then(t2, TestEnds(0, true));
    s := TestStep(s2, UnderTest(terms, p), 0, true);
    assert End(t, p) == Some(s) && StaleWrite(s2, TestEnds(0, true));
  }

  /**
   * A run in which a registration is rejected during its test and a new one is made before the test returns: the result
   * lands on the new one, which was neither funded nor tested, and an approval lists it.
   */
  lemma RejectedDuringTest(now: int, terms: Terms, other: Terms, p: Policy) returns (t: Trace, s: State)
    requires Sensible(p) && Legal(terms, p) && Legal(other, p)
    ensures End(t, p) == Some(s)
    ensures s.entry.live.Some? && s.entry.live.value.terms == other && s.entry.live.value.origin == 1
    ensures |s.hist.issued| == 2 && 1 !in s.hist.moved && 1 !in s.hist.passed
  {
    var u, s0 := ResultGoesAstray(now, terms, other, p);
    t, s := ApprovalLists(u, p, s0);
  }

  /** The test passes, and the provider is listed. */
  lemma ListingStands(now: int, terms: Terms, p: Policy) returns (t: Trace, s: State)
    requires Sensible(p) && Legal(terms, p)
    ensures End(t, p) == Some(s) && s.entry.live.Some? && s.entry.live.value.expiresAt == s.now + p.expiryDays * 86400
    ensures s.entry.reg.None? && s.deleters == 0 && s.worker == Idle && s.balance == terms.budget
    ensures |s.hist.issued| == 1 && s.hist.moved == map[0 := p.fee] && s.hist.lost == 0
  {
    var t0 := TestBegins(now, terms, p);
    var s0 := End(t0, p).value;
    var t1 := Then(t0, TestEnds(0, true));
    var s1 := TestStep(s0, UnderTest(terms, p), 0, true);
    assert End(t1, p) == Some(s1) && s1.worker == Idle;
    t, s := ApprovalLists(t1, p, s1);
  }

  /** A listing that has lapsed, with enough paid in to register again. */
  lemma ListingLapses(now: int, terms: Terms, p: Policy, atoms: nat) returns (t: Trace, s: State)
    requires Sensible(p) && Legal(terms, p)
    ensures End(t, p) == Some(s) && Lapsed(s.entry, s.now) && s.entry.reg.None? && s.deleters == 0 && s.worker == Idle
    ensures s.balance == terms.budget + atoms && |s.hist.issued| == 1 && s.hist.moved == map[0 := p.fee]
    ensures s.hist.lost == 0
  {
    var t2, s2 := ListingStands(now, terms, p);
    var t3 := Then(t2, Tick(p.expiryDays * 86400));
    var s3 := s2.(now := s2.now + p.expiryDays * 86400);
    assert End(t3, p) == Some(s3);
    t := Then(t3, Credit(atoms));
    s := OutsideStep(s3, p, Credit(atoms)).value;
  }

  /**
   * A run in which a listing expires between the two sections of the sweep: the provider registers again, pays and is
   * under way when the second section removes the whole entry; the fee is gone and no registration is left.
   */
  lemma ExpiryTakesARegistration(now: int, terms: Terms, other: Terms, p: Policy)
    returns (t: Trace, s: State, u: Trace, s': State)
    requires Sensible(p) && Legal(terms, p) && Legal(other, p)
    ensures End(t, p) == Some(s) && Busy(s.entry) && s.entry.reg.value.terms == other && s.entry.reg.value.id == 1
    ensures u == Then(t, Delete) && End(u, p) == Some(s') && s'.entry == EMPTY
    ensures 1 in s'.hist.moved && s'.hist.moved[1] == p.fee && s'.balance == terms.budget + other.budget
  {
    var t2, s2 := RegistersAgain(now, terms, other, p);
    t := Then(t2, Poke);
    s := OutsideStep(s2, p, Poke).value;
    assert End(t, p) == Some(s);
    u := Then(t, Delete);
    s' := AdminStep(s, p, Delete).value;
  }

  /** The first section of the sweep has seen the listing lapsed; the provider registers again. */
  lemma RegistersAgain(now: int, terms: Terms, other: Terms, p: Policy) returns (t: Trace, s: State)
    requires Sensible(p) && Legal(terms, p) && Legal(other, p)
    ensures End(t, p) == Some(s) && s.deleters == 1 && s.worker == Idle && Fundable(s.entry, s.balance)
    ensures s.entry.reg == Some(Reg(1, Awaiting, other, p.fee, "", 0, true, Untested))
    ensures s.balance == terms.budget + p.fee + other.budget
  {
    var t0, s0 := ListingLapses(now, terms, p, p.fee + other.budget);
    var t1 := Then(t0, ExpireRead(s0.now));
    var s1 := s0.(deleters := 1);
    assert End(t1, p) == Some(s1);
    t := Then(t1, Register(other));
    s := OutsideStep(s1, p, Register(other)).value;
  }

  // ------------------------------------------------------------ renewals skip the review

  /** The provider of a listing pays in and registers again, and the registration moves on. */
  lemma RenewalFunded(t: Trace, p: Policy, s: State, terms: Terms) returns (u: Trace, s': State, r: Reg)
    requires Sensible(p) && Legal(terms, p) && End(t, p) == Some(s)
    requires s.entry.live.Some? && s.entry.reg.None? && s.worker == Idle
    ensures End(u, p) == Some(s') && s'.worker == Idle && s'.entry == s.entry.(reg := Some(r))
    ensures r == Reg(|s.hist.issued|, Crawling, terms, p.fee, "", 0, true, Untested)
    ensures s'.now == s.now && s'.granted == s.granted && s'.hist.published == s.hist.published
    ensures s'.balance == s.balance + terms.budget
  {
    RunKeeps(t, p);
    var t1 := Then(t, Credit(p.fee + terms.budget));
    var s1 := OutsideStep(s, p, Credit(p.fee + terms.budget)).value;
    assert End(t1, p) == Some(s1);
    var t2 := Then(t1, Register(terms));
    var s2 := OutsideStep(s1, p, Register(terms)).value;
    assert End(t2, p) == Some(s2);
    u := Then(t2, Poke);
    s' := OutsideStep(s2, p, Poke).value;
    r := s'.entry.reg.value;
  }

  /** It is crawled, and its test begins. */
  lemma RenewalTested(t: Trace, p: Policy, s: State) returns (u: Trace, s': State, r: Reg)
    requires End(t, p) == Some(s) && s.worker == Idle
    requires s.entry.reg.Some? && s.entry.reg.value.phase == Crawling && s.entry.reg.value.key == ""
    ensures End(u, p) == Some(s') && s'.worker == Tests(r) && s'.entry == s.entry.(reg := Some(r))
    ensures r == s.entry.reg.value.(phase := Testing, key := "k")
    ensures s'.now == s.now && s'.granted == s.granted && s'.hist.published == s.hist.published
    ensures s'.balance == s.balance
  {
    r := s.entry.reg.value.(phase := Testing, key := "k");
    var t1 := Then(t, Spawn);
    assert End(t1, p) == Some(WithWorker(s, Begun));
    var t2 := Then(t1, Read);
    var s2 := WithWorker(s, Crawls(r.id, ""));
    assert End(t2, p) == Some(s2);
    var t3 := Then(t2, CrawlPasses("k"));
    var s3 := CrawlStep(s2, "k");
    assert End(t3, p) == Some(s3);
    u := Then(t3, Reread);
    s' := WithWorker(s3, Tests(r));
  }

  lemma RenewalUnderTest(t: Trace, p: Policy, s: State, terms: Terms) returns (u: Trace, s': State, r: Reg)
    requires Sensible(p) && Legal(terms, p) && End(t, p) == Some(s)
    requires s.entry.live.Some? && s.entry.reg.None? && s.worker == Idle
    ensures End(u, p) == Some(s') && s'.worker == Tests(r) && s'.entry.live == s.entry.live && s'.entry.reg == Some(r)
    ensures r == Reg(|s.hist.issued|, Testing, terms, p.fee, "k", 0, true, Untested)
    ensures s'.now == s.now && s'.granted == s.granted && s'.hist.published == s.hist.published
    ensures s'.balance == s.balance + terms.budget
  {
    var t1, s1, r1 := RenewalFunded(t, p, s, terms);
    u, s', r := RenewalTested(t1, p, s1);
  }

  /**
   * From every point of every run at which a provider is listed and nothing is under way, it can renew: it pays fee and
   * budget, its test passes, and the new terms are listed by the pipeline, with no administrator, for another period;
   * the date of the first approval stays.
   */
  lemma RenewalSkipsReview(t: Trace, p: Policy, s: State, terms: Terms) returns (u: Trace, s': State)
    requires Sensible(p) && Legal(terms, p) && End(t, p) == Some(s)
    requires s.entry.live.Some? && s.entry.reg.None? && s.worker == Idle
    ensures End(u, p) == Some(s') && s'.granted == s.granted && s'.now == s.now
    ensures s'.entry.live == Some(Live(|s.hist.issued|, terms, s.now, s.now, s.entry.live.value.approvedAt,
                                       s.now + p.expiryDays * 86_400))
    ensures s'.entry.reg == None && s'.balance == s.balance + terms.budget
    ensures s'.hist.published == s.hist.published + [Publication(|s.hist.issued|, true, true, 0)]
  {
    var t2, s2, r2 := RenewalUnderTest(t, p, s, terms);
    u, s' := RenewalListed(t2, p, s2, r2);
  }

  /** The test of a renewal passes, and the pipeline lists it. */
  lemma RenewalListed(t: Trace, p: Policy, s: State, r: Reg) returns (u: Trace, s': State)
    requires End(t, p) == Some(s) && s.worker == Tests(r) && s.entry.reg == Some(r) && r.renewal && s.entry.live.Some?
    ensures End(u, p) == Some(s') && s'.granted == s.granted && s'.now == s.now && s'.balance == s.balance
    ensures s'.entry == Entry(Some(Live(r.id, r.terms, s.now, s.now, s.entry.live.value.approvedAt,
                                        s.now + p.expiryDays * 86_400)), None, "")
    ensures s'.hist.published == s.hist.published + [Publication(r.id, true, true, 0)]
  {
    var t1, s1 := RenewalPasses(t, p, s, r);
    u := Then(t1, Publish(s.now));
    s' := PublishStep(s1, p, s.now);
    assert WorkerStep(s1, p, Publish(s.now)) == Some(s');
  }

  lemma RenewalPasses(t: Trace, p: Policy, s: State, r: Reg) returns (u: Trace, s': State)
    requires End(t, p) == Some(s) && s.worker == Tests(r) && s.entry.reg == Some(r) && r.renewal
    ensures End(u, p) == Some(s') && s'.worker == Publishes(r.id, s.now) && s'.now == s.now
    ensures s'.entry == s.entry.(reg := Some(r.(outcome := Passed))) && s'.granted == s.granted
    ensures s'.balance == s.balance && s'.hist.published == s.hist.published
  {
    u := Then(t, TestEnds(0, true));
    s' := TestStep(s, r, 0, true);
    assert WorkerStep(s, p, TestEnds(0, true)) == Some(s');
  }
}
