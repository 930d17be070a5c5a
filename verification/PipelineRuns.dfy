/** What the verification pipeline keeps in every run, and what it keeps only while no write goes astray. */
module PipelineRuns {
  import opened Wrappers
  import opened MapSums
  import opened DirectoryEntry
  import opened Pipeline

  // ------------------------------------------------------------ always

  /** r is registration number r.id, with the terms it was made with. */
  ghost predicate Genuine(h: History, r: Reg) {
    && r.id < |h.issued|
    && r.terms == h.issued[r.id].terms && r.fee == h.issued[r.id].fee && r.renewal == h.issued[r.id].renewal
  }

  ghost predicate LiveOk(s: State) {
    s.entry.live.Some? ==>
      var l := s.entry.live.value;
      && l.origin < |s.hist.issued| && l.terms == s.hist.issued[l.origin].terms
      && l.approvedAt <= s.now && l.verifiedAt <= s.now && l.verifiedAt < l.expiresAt
  }

  ghost predicate RegOk(s: State) {
    s.entry.reg.Some? ==>
      var r := s.entry.reg.value;
      && Genuine(s.hist, r)
      && (r.phase == Testing ==> r.key != "")
      && (r.phase == Awaiting ==> r.id !in s.hist.moved)
      && (r.phase == Crawling ==> r.id in s.hist.moved)
  }

  /** Fees left the balance exactly with the moves, each at its frozen amount; a crash in between is the exception. */
  ghost predicate FeesOk(s: State) {
    && s.balance + Sum(s.hist.moved) + s.hist.lost == s.hist.net && 0 <= s.balance && 0 <= s.hist.lost
    && (forall id :: id in s.hist.moved ==> id < |s.hist.issued| && s.hist.moved[id] == s.hist.issued[id].fee)
  }

  ghost predicate IssuedOk(h: History) {
    forall i :: 0 <= i < |h.issued| ==> h.issued[i].id == i && 0 < h.issued[i].terms.budget && 0 <= h.issued[i].fee
  }

  /** What a pipeline acts for is the registration it read, unchanged, unless that one was taken away. */
  ghost predicate Attached(s: State) {
    var w, reg := s.worker, s.entry.reg;
    && (Ticket(w).Some? ==> Ticket(w).value < |s.hist.issued| && (s.hist.orphan <==> !Holds(s, reg)))
    && (Ticket(w).None? ==> !s.hist.orphan)
    && (w.Crawls? && !s.hist.orphan ==> reg.Some? && reg.value.phase == Crawling && reg.value.key == w.key)
    && (w.Tests? && !s.hist.orphan ==> reg == Some(w.snap) && w.snap.phase == Testing)
    && (w.Publishes? && !s.hist.orphan ==>
        reg.Some? && reg.value.phase == Testing && reg.value.outcome == Passed && reg.value.renewal)
    && (w.Tests? ==> Genuine(s.hist, w.snap))
  }

  ghost predicate Inv(s: State, p: Policy) {
    && Sensible(p) && LiveOk(s) && RegOk(s) && FeesOk(s) && IssuedOk(s.hist) && Attached(s)
    && (forall id :: id in s.granted ==> id < |s.hist.issued| && s.granted[id] <= s.now)
    && (forall id :: id in s.hist.passed ==> id < |s.hist.issued|)
    && (s.worker.Publishes? ==> s.worker.since <= s.now)
  }

  lemma PokeKeeps(s: State, p: Policy, l: Label)
    requires Inv(s, p) && (l.Poke? || l.PokeCrash?) && OutsideStep(s, p, l).Some?
    ensures Inv(OutsideStep(s, p, l).value, p)
  {
    var r := s.entry.reg.value;
    SumStore(s.hist.moved, r.id, r.fee);
  }

  lemma RegisterKeeps(s: State, p: Policy, terms: Terms)
    requires Inv(s, p) && OutsideStep(s, p, Register(terms)).Some?
    ensures Inv(OutsideStep(s, p, Register(terms)).value, p)
  {
  }

  lemma OutsideKeeps(s: State, p: Policy, l: Label)
    requires Inv(s, p) && OutsideStep(s, p, l).Some?
    ensures Inv(OutsideStep(s, p, l).value, p)
  {
    match l {
      case Poke => PokeKeeps(s, p, l);
      case PokeCrash => PokeKeeps(s, p, l);
      case Register(terms) => RegisterKeeps(s, p, terms);
      case _ =>
    }
  }

  lemma CrawlPassesKeeps(s: State, p: Policy, newKey: string)
    requires Inv(s, p) && WorkerStep(s, p, CrawlPasses(newKey)).Some?
    ensures Inv(WorkerStep(s, p, CrawlPasses(newKey)).value, p)
  {
  }

  lemma CrawlFailsKeeps(s: State, p: Policy)
    requires Inv(s, p) && WorkerStep(s, p, CrawlFails).Some?
    ensures Inv(WorkerStep(s, p, CrawlFails).value, p)
  {
  }

  lemma RenewalPassesKeeps(s: State, p: Policy, snap: Reg, paidNow: nat)
    requires Inv(s, p) && s.worker == Tests(snap) && s.entry.reg.Some? && s.entry.reg.value.renewal
    ensures Inv(TestStep(s, snap, paidNow, true), p)
  {
  }

  lemma FirstPassesKeeps(s: State, p: Policy, snap: Reg, paidNow: nat)
    requires Inv(s, p) && s.worker == Tests(snap) && !(s.entry.reg.Some? && s.entry.reg.value.renewal)
    ensures Inv(TestStep(s, snap, paidNow, true), p)
  {
  }

  lemma TestPassesKeeps(s: State, p: Policy, snap: Reg, paidNow: nat)
    requires Inv(s, p) && s.worker == Tests(snap)
    ensures Inv(TestStep(s, snap, paidNow, true), p)
  {
    if s.entry.reg.Some? && s.entry.reg.value.renewal {
      RenewalPassesKeeps(s, p, snap, paidNow);
    } else {
      FirstPassesKeeps(s, p, snap, paidNow);
    }
  }

  lemma TestFailsKeeps(s: State, p: Policy, snap: Reg, paidNow: nat)
    requires Inv(s, p) && s.worker == Tests(snap)
    ensures Inv(TestStep(s, snap, paidNow, false), p)
  {
  }

  lemma PublishedKeeps(s: State, p: Policy, at: int, byPipeline: bool, approval: nat)
    requires Inv(s, p) && at <= s.now && Promoted(s.entry, at, p.expiryDays).Some?
    ensures Inv(Published(s, p, at, byPipeline, approval), p)
  {
  }

  lemma IdleKeeps(s: State, p: Policy)
    requires Inv(s, p)
    ensures Inv(WithWorker(s, Idle), p)
  {
  }

  lemma PublishKeeps(s: State, p: Policy, at: int)
    requires Inv(s, p) && s.worker.Publishes? && at <= s.now
    ensures Inv(PublishStep(s, p, at), p)
  {
    IdleKeeps(s, p);
    if Promoted(s.entry, at, p.expiryDays).Some? {
      PublishedKeeps(WithWorker(s, Idle), p, at, true, 0);
    }
  }

  /** Turning to what the entry holds now, or to nothing, changes nothing but the pipeline itself. */
  lemma TurnKeeps(s: State, p: Policy, w: Worker)
    requires Inv(s, p)
    requires Ticket(w).Some? ==> s.entry.reg.Some? && s.entry.reg.value.id == Ticket(w).value
    requires w.Crawls? ==> s.entry.reg.value.phase == Crawling && s.entry.reg.value.key == w.key
    requires w.Tests? ==> s.entry.reg == Some(w.snap) && w.snap.phase == Testing
    requires !w.Publishes?
    ensures Inv(WithWorker(s, w), p)
  {
  }

  lemma ReadKeeps(s: State, p: Policy)
    requires Inv(s, p)
    ensures Inv(ReadStep(s), p)
  {
    if s.entry.reg.None? {
      TurnKeeps(s, p, Idle);
    } else if s.entry.reg.value.phase == Crawling {
      TurnKeeps(s, p, Crawls(s.entry.reg.value.id, s.entry.reg.value.key));
    } else {
      TurnKeeps(s, p, Rereads);
    }
  }

  lemma RereadKeeps(s: State, p: Policy)
    requires Inv(s, p) && s.worker == Rereads
    ensures Inv(WorkerStep(s, p, Reread).value, p)
  {
    if s.entry.reg.None? || s.entry.reg.value.phase != Testing {
      TurnKeeps(s, p, Idle);
    } else {
      TurnKeeps(s, p, Tests(s.entry.reg.value));
    }
  }

  lemma WorkerKeeps(s: State, p: Policy, l: Label)
    requires Inv(s, p) && WorkerStep(s, p, l).Some?
    ensures Inv(WorkerStep(s, p, l).value, p)
  {
    match l {
      case CrawlPasses(newKey) => CrawlPassesKeeps(s, p, newKey);
      case CrawlFails => CrawlFailsKeeps(s, p);
      case TestEnds(paidNow, passed) =>
        TestPassesKeeps(s, p, s.worker.snap, paidNow);
        TestFailsKeeps(s, p, s.worker.snap, paidNow);
      case Publish(at) => PublishKeeps(s, p, at);
      case Spawn => TurnKeeps(s, p, Begun);
      case Read => ReadKeeps(s, p);
      case Reread => RereadKeeps(s, p);
      case Interrupt => TurnKeeps(s, p, Idle);
      case _ =>
    }
  }

  lemma ApproveKeeps(s: State, p: Policy, l: Label)
    requires Inv(s, p) && (l.ApproveRead? || l.ApprovePublish?) && AdminStep(s, p, l).Some?
    ensures Inv(AdminStep(s, p, l).value, p)
  {
    if l.ApprovePublish? && Promoted(s.entry, l.at, p.expiryDays).Some? {
      PublishedKeeps(s, p, l.at, false, l.id);
    }
  }

  lemma RemovalKeeps(s: State, p: Policy, l: Label)
    requires Inv(s, p) && (l.Reject? || l.Delete? || l.Crash?) && AdminStep(s, p, l).Some?
    ensures Inv(AdminStep(s, p, l).value, p)
  {
  }

  lemma SpotCheckKeeps(s: State, p: Policy, newKey: string)
    requires Inv(s, p) && AdminStep(s, p, SpotCheck(newKey)).Some?
    ensures Inv(AdminStep(s, p, SpotCheck(newKey)).value, p)
  {
  }

  lemma ListingKeeps(s: State, p: Policy, l: Label)
    requires Inv(s, p) && AdminStep(s, p, l).Some?
    requires l.Unlist? || l.ExpireClear? || l.Recrawl?
    ensures Inv(AdminStep(s, p, l).value, p)
  {
  }

  lemma NoteKeeps(s: State, p: Policy, l: Label)
    requires Inv(s, p) && AdminStep(s, p, l).Some? && (l.UnlistRead? || l.SetFlag? || l.ExpireRead?)
    ensures Inv(AdminStep(s, p, l).value, p)
  {
  }

  lemma AdminKeeps(s: State, p: Policy, l: Label)
    requires Inv(s, p) && AdminStep(s, p, l).Some?
    ensures Inv(AdminStep(s, p, l).value, p)
  {
    if l.ApproveRead? || l.ApprovePublish? {
      ApproveKeeps(s, p, l);
    } else if l.Reject? || l.Delete? || l.Crash? {
      RemovalKeeps(s, p, l);
    } else if l.SpotCheck? {
      SpotCheckKeeps(s, p, l.newKey);
    } else if l.Unlist? || l.ExpireClear? || l.Recrawl? {
      ListingKeeps(s, p, l);
    } else {
      NoteKeeps(s, p, l);
    }
  }

  lemma StepKeeps(s: State, p: Policy, l: Label)
    requires Inv(s, p) && Step(s, p, l).Some?
    ensures Inv(Step(s, p, l).value, p)
  {
    if IsOutside(l) {
      OutsideKeeps(s, p, l);
    } else if IsWorker(l) {
      WorkerKeeps(s, p, l);
    } else {
      AdminKeeps(s, p, l);
    }
  }

  lemma {:induction false} RunKeeps(t: Trace, p: Policy)
    requires Sensible(p) && End(t, p).Some?
    ensures Inv(End(t, p).value, p)
  {
    if t.Then? {
      RunKeeps(t.before, p);
      StepKeeps(End(t.before, p).value, p, t.step);
    }
  }

  /**
   * In every run, whatever goes astray: a registration under test has a call key; a listing expires after it was
   * verified; and fees left the balance exactly for the registrations that moved on, once
   * each and at the amount frozen when the provider applied, except what a crash took between debit and move.
   */
  lemma {:induction false} AlwaysInOrder(t: Trace, p: Policy, s: State)
    requires Sensible(p) && End(t, p) == Some(s)
    ensures s.entry.reg.Some? && s.entry.reg.value.phase == Testing ==> s.entry.reg.value.key != ""
    ensures s.entry.live.Some? ==>
              s.entry.live.value.verifiedAt < s.entry.live.value.expiresAt && s.entry.live.value.verifiedAt <= s.now
    ensures forall id :: id in s.hist.moved ==> id < |s.hist.issued| && s.hist.moved[id] == s.hist.issued[id].fee
    ensures s.balance == s.hist.net - Sum(s.hist.moved) - s.hist.lost
  {
    RunKeeps(t, p);
  }

  // ------------------------------------------------------------ between two points of a run

  /** The run t goes on to u. */
  ghost predicate Extends(t: Trace, u: Trace) {
    t == u || (u.Then? && Extends(t, u.before))
  }

  lemma {:induction false} ExtendsRuns(t: Trace, u: Trace, p: Policy)
    requires Extends(t, u) && End(u, p).Some?
    ensures End(t, p).Some?
  {
    if t != u {
      ExtendsRuns(t, u.before, p);
    }
  }

  /** Registrations made are remembered as they were made; one that is not the last step's stood before it. */
  ghost predicate Remembers(s: State, s': State) {
    && |s.hist.issued| <= |s'.hist.issued|
    && (forall i :: 0 <= i < |s.hist.issued| ==> s'.hist.issued[i] == s.hist.issued[i])
    && (s'.entry.reg.Some? && s'.entry.reg.value.id < |s.hist.issued| ==>
          s.entry.reg.Some? && s.entry.reg.value.id == s'.entry.reg.value.id)
  }

  lemma OutsideRemembers(s: State, p: Policy, l: Label)
    requires OutsideStep(s, p, l).Some?
    ensures Remembers(s, OutsideStep(s, p, l).value)
  {
  }

  lemma WorkerRemembers(s: State, p: Policy, l: Label)
    requires WorkerStep(s, p, l).Some?
    ensures Remembers(s, WorkerStep(s, p, l).value)
  {
  }

  lemma AdminRemembers(s: State, p: Policy, l: Label)
    requires AdminStep(s, p, l).Some?
    ensures Remembers(s, AdminStep(s, p, l).value)
  {
  }

  lemma StepRemembers(s: State, p: Policy, l: Label)
    requires Step(s, p, l).Some?
    ensures Remembers(s, Step(s, p, l).value)
  {
    if IsOutside(l) {
      OutsideRemembers(s, p, l);
    } else if IsWorker(l) {
      WorkerRemembers(s, p, l);
    } else {
      AdminRemembers(s, p, l);
    }
  }

  lemma {:induction false} IssuedStays(t: Trace, u: Trace, p: Policy, i: nat)
    requires Sensible(p) && Extends(t, u) && End(t, p).Some? && End(u, p).Some?
    requires i < |End(t, p).value.hist.issued|
    ensures i < |End(u, p).value.hist.issued| && End(u, p).value.hist.issued[i] == End(t, p).value.hist.issued[i]
  {
    if t != u {
      IssuedStays(t, u.before, p, i);
      StepRemembers(End(u.before, p).value, p, u.step);
    }
  }

  /**
   * Between any two points of a run a registration keeps the terms, the fee and the kind it was made with, and a
   * listing that comes of it shows those terms.
   */
  lemma TermsAreFrozen(t: Trace, u: Trace, p: Policy, s: State, s': State)
    requires Sensible(p) && Extends(t, u) && End(t, p) == Some(s) && End(u, p) == Some(s') && s.entry.reg.Some?
    ensures s'.entry.reg.Some? && s'.entry.reg.value.id == s.entry.reg.value.id ==>
              var r, r' := s.entry.reg.value, s'.entry.reg.value;
              r'.terms == r.terms && r'.fee == r.fee && r'.renewal == r.renewal
    ensures s'.entry.live.Some? && s'.entry.live.value.origin == s.entry.reg.value.id ==>
              s'.entry.live.value.terms == s.entry.reg.value.terms
  {
    RunKeeps(t, p);
    RunKeeps(u, p);
    IssuedStays(t, u, p, s.entry.reg.value.id);
  }

  // ------------------------------------------------------------ when a write goes astray

  /** The steps that take a registration away while a pipeline acts for it. */
  predicate Takes(s: State, p: Policy, l: Label) {
    && Holds(s, s.entry.reg)
    && (l.Reject? || l.Delete? || (l.ApprovePublish? && Promoted(s.entry, l.at, p.expiryDays).Some?))
  }

  lemma WorkerOrphans(s: State, p: Policy, l: Label)
    requires Inv(s, p) && IsWorker(l) && WorkerStep(s, p, l).Some?
    requires Ticket(WorkerStep(s, p, l).value.worker) == Ticket(s.worker)
    ensures WorkerStep(s, p, l).value.hist.orphan == s.hist.orphan
  {
  }

  lemma OutsideOrphans(s: State, p: Policy, l: Label)
    requires Inv(s, p) && OutsideStep(s, p, l).Some? && Ticket(OutsideStep(s, p, l).value.worker) == Ticket(s.worker)
    ensures OutsideStep(s, p, l).value.hist.orphan == s.hist.orphan
  {
    if l.Register? {
      RegisterOrphansNone(s, p, l.terms);
    }
  }

  lemma RegisterOrphansNone(s: State, p: Policy, terms: Terms)
    requires Inv(s, p) && OutsideStep(s, p, Register(terms)).Some?
    ensures OutsideStep(s, p, Register(terms)).value.hist.orphan == s.hist.orphan
  {
  }

  lemma AdminOrphans(s: State, p: Policy, l: Label)
    requires Inv(s, p) && AdminStep(s, p, l).Some? && Ticket(AdminStep(s, p, l).value.worker) == Ticket(s.worker)
    ensures AdminStep(s, p, l).value.hist.orphan <==> s.hist.orphan || Takes(s, p, l)
  {
  }

  /**
   * A pipeline becomes an orphan exactly when its registration is taken from it, and stays one until it ends or reads
   * anew.
   */
  lemma OrphanedExactly(s: State, p: Policy, l: Label)
    requires Inv(s, p) && Step(s, p, l).Some? && Ticket(Step(s, p, l).value.worker) == Ticket(s.worker)
    ensures Step(s, p, l).value.hist.orphan <==> s.hist.orphan || Takes(s, p, l)
  {
    if IsWorker(l) {
      WorkerOrphans(s, p, l);
    } else if IsOutside(l) {
      OutsideOrphans(s, p, l);
    } else {
      AdminOrphans(s, p, l);
    }
  }

  /**
   * The pipeline's write lands on a registration it did not read if and only if its own one was taken away before and
   * another one has been made since; on its own registration if and only if nothing was taken.
   */
  lemma StaleExactly(s: State, p: Policy, l: Label)
    requires Inv(s, p) && (l.CrawlFails? || l.CrawlPasses? || l.TestEnds? || l.Publish?) && Step(s, p, l).Some?
    ensures StaleWrite(s, l) <==> s.hist.orphan && s.entry.reg.Some?
    ensures Holds(s, s.entry.reg) <==> !s.hist.orphan
  {
  }

  ghost predicate NeverTaken(t: Trace, p: Policy) {
    t.Then? ==> NeverTaken(t.before, p) && (End(t.before, p).Some? ==> !Takes(End(t.before, p).value, p, t.step))
  }

  ghost predicate ApprovedInTime(t: Trace, p: Policy) {
    t.Then? ==>
      && ApprovedInTime(t.before, p)
      && (End(t.before, p).Some? ==> !StaleApproval(End(t.before, p).value, t.step))
  }

  /** A new ticket is never an orphan's. */
  lemma NewTicket(s: State, p: Policy, l: Label)
    requires Inv(s, p) && Step(s, p, l).Some? && Ticket(Step(s, p, l).value.worker) != Ticket(s.worker)
    ensures !Step(s, p, l).value.hist.orphan
  {
    if IsWorker(l) {
      WorkerNewTicket(s, p, l);
    } else if IsOutside(l) {
      OutsideNewTicket(s, p, l);
    } else {
      AdminNewTicket(s, p, l);
    }
  }

  lemma WorkerNewTicket(s: State, p: Policy, l: Label)
    requires Inv(s, p) && WorkerStep(s, p, l).Some? && Ticket(WorkerStep(s, p, l).value.worker) != Ticket(s.worker)
    ensures !WorkerStep(s, p, l).value.hist.orphan
  {
  }

  lemma OutsideNewTicket(s: State, p: Policy, l: Label)
    requires OutsideStep(s, p, l).Some? && Ticket(OutsideStep(s, p, l).value.worker) != Ticket(s.worker)
    ensures !OutsideStep(s, p, l).value.hist.orphan
  {
  }

  lemma AdminNewTicket(s: State, p: Policy, l: Label)
    requires AdminStep(s, p, l).Some? && Ticket(AdminStep(s, p, l).value.worker) != Ticket(s.worker)
    ensures !AdminStep(s, p, l).value.hist.orphan
  {
  }

  lemma {:induction false} NoOrphans(t: Trace, p: Policy)
    requires Sensible(p) && End(t, p).Some? && NeverTaken(t, p)
    ensures !End(t, p).value.hist.orphan
  {
    if t.Then? {
      var s := End(t.before, p).value;
      NoOrphans(t.before, p);
      RunKeeps(t.before, p);
      if Ticket(End(t, p).value.worker) == Ticket(s.worker) {
        OrphanedExactly(s, p, t.step);
      } else {
        NewTicket(s, p, t.step);
      }
    }
  }

  /**
   * While nobody takes a registration from a running pipeline and approvals meet what the administrator saw, no write
   * goes astray.
   */
  lemma {:induction false} NothingTakenNothingStale(t: Trace, p: Policy)
    requires Sensible(p) && End(t, p).Some? && NeverTaken(t, p) && ApprovedInTime(t, p)
    ensures Fresh(t, p)
  {
    if t.Then? {
      NothingTakenNothingStale(t.before, p);
      NoOrphans(t.before, p);
      RunKeeps(t.before, p);
      if t.step.CrawlFails? || t.step.CrawlPasses? || t.step.TestEnds? || t.step.Publish? {
        StaleExactly(End(t.before, p).value, p, t.step);
      }
    }
  }
}
