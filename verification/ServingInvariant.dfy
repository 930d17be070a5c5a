/**
 * What every step of the serving machine keeps. Core says where owners, claims and records stand and needs no
 * timing; Paper adds what the journal says, and needs claims to be timely.
 */
module ServingInvariant {
  import opened Wrappers
  import opened CallJournal
  import opened ServerLedger
  import opened ServingHarness
  import opened Serving

  /** The owner still decides its key: every phase up to the journal write. */
  predicate Active(p: Phase) {
    !p.Closing? && !p.Releasing?
  }

  /** The owner's record has no expiry yet, so no sweep takes its claim. */
  predicate Holding(p: Phase) {
    Active(p) && !p.Recorded?
  }

  /** The charge, if any, is journaled as open. */
  predicate Charged(p: Phase) {
    p.Ready? || p.Running? || p.Failed? || p.Finishing? || p.Recorded?
  }

  predicate Answering(p: Phase) {
    p.Recorded? || p.Closing?
  }

  predicate Returned(p: Phase) {
    p.Failed? || p.Finishing? || Answering(p)
  }

  // ---------------------------------------------------------------------------------------------
  // Owners, claims and records

  ghost predicate OwnerOk(s: State, r: Id)
    requires r in s.owners
  {
    var o := s.owners[r];
    && r.Fresh? && r.n < s.nextId && r in s.recs
    && s.recs[r] == (if Answering(o.phase) then Rec(false, o.phase.o, s.recs[r].expires) else UNCLAIMED)
    && (Answering(o.phase) ==> s.recs[r].expires.Some?)
    && 0 <= o.price
    && (o.phase.Claimed? || o.phase.Short? ==> o.price == 0)
    && (o.phase.Paid? || o.phase.Failed? ==> 0 < o.price)
    && (o.phase.Failed? ==> o.phase.o.err.Some?)
    && (Returned(o.phase) ==> Returnable(o.phase.o))
    && (o.phase.Releasing? ==> !o.phase.reply.Answered?)
    && (Holding(o.phase) ==> o.key in s.calls && s.calls[o.key] == r)
  }

  /** A record in the table is owned under that key, or has an expiry. */
  ghost predicate CallOk(s: State, k: string)
    requires k in s.calls
  {
    var r := s.calls[k];
    && r in s.recs
    && (r in s.owners ==> s.owners[r].key == k && !s.owners[r].phase.Releasing?)
    && (s.recs[r].expires.None? ==> r in s.owners)
  }

  ghost predicate WaiterOk(s: State, w: nat)
    requires w in s.waiters
  {
    w < s.nextId && s.waiters[w] in s.recs
  }

  /** Identities are not reused, and rebuilt records are closed. */
  ghost predicate RecordOk(s: State, r: Id)
    requires r in s.recs
  {
    match r
    case Fresh(n) => n < s.nextId
    case Loaded(_, life) => life < s.nextId && s.recs[r].closed && s.recs[r].expires.Some?
  }

  ghost predicate Core(s: State) {
    && (s.mode != Up ==> s.owners == map[] && s.calls == map[] && s.recs == map[] && s.waiters == map[])
    && (forall r {:trigger RecordOk(s, r)} :: r in s.recs ==> RecordOk(s, r))
    && (forall r {:trigger OwnerOk(s, r)} :: r in s.owners ==> OwnerOk(s, r))
    && (forall k {:trigger CallOk(s, k)} :: k in s.calls ==> CallOk(s, k))
    && (forall w {:trigger WaiterOk(s, w)} :: w in s.waiters ==> WaiterOk(s, w))
  }

  lemma CoreLinks(s: State)
    requires Core(s)
    ensures Linked(s)
  {
    assert forall k :: k in s.calls ==> CallOk(s, k);
    assert forall r :: r in s.owners ==> OwnerOk(s, r);
    assert forall w :: w in s.waiters ==> WaiterOk(s, w);
  }

  /** Enough to check after a step of the owner of r: everything else it cannot have disturbed. */
  lemma LocalCore(s: State, s': State, r: Id)
    requires Core(s) && s.mode == Up && OwnerTouches(s, s', r)
    requires Holding(s.owners[r].phase) || s'.calls == s.calls
    requires r in s'.owners ==> OwnerOk(s', r)
    requires s.owners[r].key in s'.calls ==> CallOk(s', s.owners[r].key)
    ensures Core(s')
  {
    assert OwnerOk(s, r);
    forall q | q in s'.recs ensures RecordOk(s', q) {
      assert RecordOk(s, q);
      if q != r {
        assert SameAt(s'.recs, s.recs, q);
      }
    }
    forall q | q in s'.owners && q != r ensures OwnerOk(s', q) {
      assert SameAt(s'.owners, s.owners, q) && OwnerOk(s, q) && SameAt(s'.recs, s.recs, q);
      if s.owners[q].key != s.owners[r].key {
        assert SameAt(s'.calls, s.calls, s.owners[q].key);
      }
    }
    forall k | k in s'.calls && k != s.owners[r].key ensures CallOk(s', k) {
      assert SameAt(s'.calls, s.calls, k) && CallOk(s, k);
      assert SameAt(s'.owners, s.owners, s.calls[k]) && SameAt(s'.recs, s.recs, s.calls[k]);
    }
    forall w | w in s'.waiters ensures WaiterOk(s', w) {
      assert WaiterOk(s, w);
    }
  }

  /** What is known of an owner about to move. */
  ghost predicate Moving(s: State, r: Id) {
    && Core(s) && s.mode == Up && r in s.owners && r in s.recs && OwnerOk(s, r)
    && (s.owners[r].key in s.calls ==> CallOk(s, s.owners[r].key))
  }

  lemma RefuseCore(s: State, r: Id)
    requires Moving(s, r) && RefuseAt(s, r).Some?
    ensures Core(RefuseAt(s, r).value)
  {
    RefuseTouches(s, r);
    LocalCore(s, RefuseAt(s, r).value, r);
  }

  lemma FreeCore(s: State, r: Id)
    requires Moving(s, r) && FreeAt(s, r).Some?
    ensures Core(FreeAt(s, r).value)
  {
    FreeTouches(s, r);
    LocalCore(s, FreeAt(s, r).value, r);
  }

  lemma DebitCore(s: State, r: Id, price: int)
    requires Moving(s, r) && DebitAt(s, r, price).Some?
    ensures Core(DebitAt(s, r, price).value)
  {
    DebitTouches(s, r, price);
    LocalCore(s, DebitAt(s, r, price).value, r);
  }

  lemma QuoteCore(s: State, r: Id)
    requires Moving(s, r) && QuoteAt(s, r).Some?
    ensures Core(QuoteAt(s, r).value)
  {
    QuoteTouches(s, r);
    LocalCore(s, QuoteAt(s, r).value, r);
  }

  lemma ChargeCore(s: State, r: Id)
    requires Moving(s, r) && ChargeAt(s, r).Some?
    ensures Core(ChargeAt(s, r).value)
  {
    ChargeTouches(s, r);
    LocalCore(s, ChargeAt(s, r).value, r);
  }

  lemma StartCore(s: State, r: Id)
    requires Moving(s, r) && StartAt(s, r).Some?
    ensures Core(StartAt(s, r).value)
  {
    StartTouches(s, r);
    LocalCore(s, StartAt(s, r).value, r);
  }

  lemma ReturnCore(s: State, r: Id, o: Outcome)
    requires Moving(s, r) && ReturnAt(s, r, o).Some?
    ensures Core(ReturnAt(s, r, o).value)
  {
    ReturnTouches(s, r, o);
    LocalCore(s, ReturnAt(s, r, o).value, r);
  }

  lemma RepayCore(s: State, r: Id)
    requires Moving(s, r) && RepayAt(s, r).Some?
    ensures Core(RepayAt(s, r).value)
  {
    RepayTouches(s, r);
    LocalCore(s, RepayAt(s, r).value, r);
  }

  lemma RecordCore(s: State, r: Id)
    requires Moving(s, r) && RecordAt(s, r).Some?
    ensures Core(RecordAt(s, r).value)
  {
    RecordTouches(s, r);
    LocalCore(s, RecordAt(s, r).value, r);
  }

  lemma OutcomeCore(s: State, r: Id)
    requires Moving(s, r) && OutcomeAt(s, r).Some?
    ensures Core(OutcomeAt(s, r).value)
  {
    OutcomeTouches(s, r);
    LocalCore(s, OutcomeAt(s, r).value, r);
  }

  lemma CloseCore(s: State, r: Id)
    requires Moving(s, r) && CloseAt(s, r).Some?
    ensures Core(CloseAt(s, r).value)
  {
    CloseTouches(s, r);
    LocalCore(s, CloseAt(s, r).value, r);
  }

  predicate IsEarly(l: Label) {
    l.Refuse? || l.Free? || l.Debit? || l.Quote? || l.JournalCharge?
  }

  lemma EarlyStepCore(s: State, l: Label)
    requires IsOwnerStep(l) && IsEarly(l) && OwnerStep(s, l).Some? && Moving(s, l.r)
    ensures Core(OwnerStep(s, l).value)
  {
    if l.Refuse? {
      RefuseCore(s, l.r);
    } else if l.Free? {
      FreeCore(s, l.r);
    } else if l.Debit? {
      DebitCore(s, l.r, l.price);
    } else if l.Quote? {
      QuoteCore(s, l.r);
    } else {
      ChargeCore(s, l.r);
    }
  }

  lemma LateStepCore(s: State, l: Label)
    requires IsOwnerStep(l) && !IsEarly(l) && OwnerStep(s, l).Some? && Moving(s, l.r)
    ensures Core(OwnerStep(s, l).value)
  {
    if l.Start? {
      StartCore(s, l.r);
    } else if l.Return? {
      ReturnCore(s, l.r, l.o);
    } else if l.Repay? {
      RepayCore(s, l.r);
    } else if l.Record? {
      RecordCore(s, l.r);
    } else if l.JournalOutcome? {
      OutcomeCore(s, l.r);
    } else {
      CloseCore(s, l.r);
    }
  }

  lemma OwnerMoves(s: State, l: Label)
    requires Core(s) && IsOwnerStep(l) && OwnerStep(s, l).Some?
    ensures Moving(s, l.r)
  {
    assert OwnerOk(s, l.r) && (s.owners[l.r].key in s.calls ==> CallOk(s, s.owners[l.r].key));
  }

  lemma OwnerStepCore(s: State, l: Label)
    requires Core(s) && IsOwnerStep(l) && OwnerStep(s, l).Some?
    ensures Core(OwnerStep(s, l).value)
  {
    OwnerMoves(s, l);
    if IsEarly(l) {
      EarlyStepCore(s, l);
    } else {
      LateStepCore(s, l);
    }
  }

  /** Steps that leave owners, claims and records alone. */
  lemma QuietCore(s: State, s': State)
    requires Core(s) && s'.mode == s.mode && s.nextId <= s'.nextId
    requires s'.owners == s.owners && s'.calls == s.calls && s'.recs == s.recs
    requires forall w :: w in s'.waiters ==> w < s'.nextId && s'.waiters[w] in s.recs
    requires s.mode != Up ==> s'.waiters == map[]
    ensures Core(s')
  {
    forall r | r in s'.recs ensures RecordOk(s', r) {
      assert RecordOk(s, r);
    }
    forall r | r in s'.owners ensures OwnerOk(s', r) {
      assert OwnerOk(s, r);
    }
    forall k | k in s'.calls ensures CallOk(s', k) {
      assert CallOk(s, k);
    }
  }

  lemma WaitersOk(s: State)
    requires Core(s)
    ensures forall w :: w in s.waiters ==> w < s.nextId && s.waiters[w] in s.recs
  {
    forall w | w in s.waiters ensures w < s.nextId && s.waiters[w] in s.recs {
      assert WaiterOk(s, w);
    }
  }

  lemma SweepCore(s: State)
    requires Core(s) && Linked(s)
    ensures Core(SweptState(s))
  {
    var s' := SweptState(s);
    forall r | r in s'.recs ensures RecordOk(s', r) {
      assert RecordOk(s, r);
    }
    forall r | r in s'.owners ensures OwnerOk(s', r) {
      assert OwnerOk(s, r);
    }
    forall k | k in s'.calls ensures CallOk(s', k) {
      assert CallOk(s, k);
    }
    forall w | w in s'.waiters ensures WaiterOk(s', w) {
      assert WaiterOk(s, w);
    }
  }

  lemma EnterCore(s: State, key: string, peer: string)
    requires Core(s) && s.mode == Up && key !in s.calls
    ensures Core(Entered(s, key, peer))
  {
    var s', r := Entered(s, key, peer), Fresh(s.nextId);
    assert r in s.recs ==> RecordOk(s, r);
    forall q | q in s'.recs ensures RecordOk(s', q) {
      assert q in s.recs ==> RecordOk(s, q);
    }
    forall q | q in s'.owners && q != r ensures OwnerOk(s', q) {
      assert OwnerOk(s, q);
    }
    forall k | k in s.calls ensures CallOk(s', k) {
      assert CallOk(s, k);
    }
    assert CallOk(s', key);
    forall w | w in s'.waiters ensures WaiterOk(s', w) {
      assert WaiterOk(s, w);
    }
  }

  lemma ParkCore(s: State, key: string)
    requires Core(s) && s.mode == Up && key in s.calls
    ensures Core(Parked(s, key))
  {
    WaitersOk(s);
    assert CallOk(s, key);
    QuietCore(s, Parked(s, key));
  }

  lemma ClaimCore(s: State, peer: string, callKey: string)
    requires Core(s) && Linked(s) && s.mode == Up
    ensures Core(ClaimStep(s, peer, callKey))
  {
    SweepCore(s);
    var key := peer + "|" + callKey;
    if key in SweptState(s).calls {
      ParkCore(SweptState(s), key);
    } else {
      EnterCore(SweptState(s), key, peer);
    }
  }

  lemma BootDoneCore(s: State)
    requires Core(s) && s.mode == Booting({}, None)
    ensures Core(BootDoneStep(s))
  {
    var s', loaded := BootDoneStep(s), ReloadedRecords(s.journal, s.now);
    forall r | r in s'.recs ensures RecordOk(s', r) {
    }
    forall k | k in s'.calls ensures CallOk(s', k) {
      assert Loaded(k, s.nextId) in s'.recs;
    }
  }

  lemma BootStepCore(s: State, l: Label)
    requires Core(s) && IsBootStep(l) && BootStep(s, l).Some?
    ensures Core(BootStep(s, l).value)
  {
    if l.BootDone? {
      BootDoneCore(s);
    }
  }

  lemma StepCore(s: State, l: Label)
    requires Core(s) && Step(s, l).Some?
    ensures Core(Step(s, l).value)
  {
    WaitersOk(s);
    if IsOwnerStep(l) {
      OwnerStepCore(s, l);
    } else if IsBootStep(l) {
      BootStepCore(s, l);
    } else if l.Claim? {
      ClaimCore(s, l.peer, l.callKey);
    } else {
      QuietCore(s, Step(s, l).value);
    }
  }

  // ---------------------------------------------------------------------------------------------
  // Steps nobody hears of

  /** Steps up to the end of the handler, and releases. */
  predicate IsUnheard(l: Label) {
    IsOwnerStep(l) && !l.Record? && !l.JournalOutcome? && !l.Close?
  }

  /** The owner of r moves on, and nothing is answered, filed or recorded. */
  ghost predicate Unheard(s: State, s': State, r: Id) {
    && r in s.owners && r in s'.owners
    && !Answering(s.owners[r].phase) && !Answering(s'.owners[r].phase)
    && s'.recs == s.recs && s'.hist.replies == s.hist.replies
    && s'.hist.runs == s.hist.runs && s'.hist.ran == s.hist.ran
    && s'.hist.doneUntil == s.hist.doneUntil && s'.hist.outcomes == s.hist.outcomes
  }

  lemma RefuseUnheard(s: State, r: Id)
    requires r in s.owners && RefuseAt(s, r).Some?
    ensures Unheard(s, RefuseAt(s, r).value, r)
  {
  }

  lemma FreeUnheard(s: State, r: Id)
    requires r in s.owners && FreeAt(s, r).Some?
    ensures Unheard(s, FreeAt(s, r).value, r)
  {
  }

  lemma DebitUnheard(s: State, r: Id, price: int)
    requires r in s.owners && DebitAt(s, r, price).Some?
    ensures Unheard(s, DebitAt(s, r, price).value, r)
  {
  }

  lemma QuoteUnheard(s: State, r: Id)
    requires r in s.owners && QuoteAt(s, r).Some?
    ensures Unheard(s, QuoteAt(s, r).value, r)
  {
  }

  lemma ChargeUnheard(s: State, r: Id)
    requires r in s.owners && ChargeAt(s, r).Some?
    ensures Unheard(s, ChargeAt(s, r).value, r)
  {
  }

  lemma StartUnheard(s: State, r: Id)
    requires r in s.owners && StartAt(s, r).Some?
    ensures Unheard(s, StartAt(s, r).value, r)
  {
  }

  lemma ReturnUnheard(s: State, r: Id, o: Outcome)
    requires r in s.owners && ReturnAt(s, r, o).Some?
    ensures Unheard(s, ReturnAt(s, r, o).value, r)
  {
  }

  lemma RepayUnheard(s: State, r: Id)
    requires r in s.owners && RepayAt(s, r).Some?
    ensures Unheard(s, RepayAt(s, r).value, r)
  {
  }

  lemma StepUnheard(s: State, l: Label)
    requires IsUnheard(l) && OwnerStep(s, l).Some?
    ensures Unheard(s, OwnerStep(s, l).value, l.r)
  {
    if l.Refuse? {
      RefuseUnheard(s, l.r);
    } else if l.Free? {
      FreeUnheard(s, l.r);
    } else if l.Debit? {
      DebitUnheard(s, l.r, l.price);
    } else if l.Quote? {
      QuoteUnheard(s, l.r);
    } else if l.JournalCharge? {
      ChargeUnheard(s, l.r);
    } else if l.Start? {
      StartUnheard(s, l.r);
    } else if l.Return? {
      ReturnUnheard(s, l.r, l.o);
    } else {
      RepayUnheard(s, l.r);
    }
  }

  // ---------------------------------------------------------------------------------------------
  // The journal

  /** A paid owner in progress has its charge in the journal as an open entry of exactly its price. */
  ghost predicate PaperOk(s: State, r: Id)
    requires r in s.owners
  {
    var o := s.owners[r];
    && (o.phase.Recorded? ==> o.key in s.calls && s.calls[o.key] == r)
    && (Charged(o.phase) && 0 < o.price ==> o.key in s.journal && s.journal[o.key] == OpenEntry(o.peer, o.price))
  }

  /** A completed entry retains the latest outcome executed for its key. */
  ghost predicate Retains(s: State, k: string)
    requires k in s.journal
  {
    s.journal[k].done ==>
      var e := s.journal[k];
      && k in s.hist.outcomes && Returnable(s.hist.outcomes[k])
      && e == Finished(OpenEntry(e.peer, e.atoms), s.hist.outcomes[k], e.expires * SECOND)
  }

  /** What the record of k answers about the outcome executed for it. */
  function AnswerOf(r: Id, o: Outcome): Outcome {
    if r.Fresh? then o else Replayed(o)
  }

  /** An open entry belongs to an owner in progress; a completed one to a record that outlives it and answers it. */
  ghost predicate EntryOk(s: State, k: string)
    requires k in s.journal
  {
    && 0 < s.journal[k].atoms
    && Retains(s, k)
    && (s.mode == Up ==>
          && k in s.calls && s.calls[k] in s.recs
          && var r := s.calls[k];
             if s.journal[k].done then
               && s.recs[r].expires.Some? && s.recs[r].expires.value >= s.journal[k].expires * SECOND
               && s.recs[r].outcome == AnswerOf(r, s.hist.outcomes[k])
               && (r in s.owners ==> s.owners[r].phase.Closing?)
             else
               r in s.owners && Charged(s.owners[r].phase) && 0 < s.owners[r].price)
  }

  /** Within its journaled expiry the latest paid outcome of a key is in the journal. */
  ghost predicate OnceOk(s: State, k: string)
    requires k in s.hist.doneUntil
  {
    s.now <= s.hist.doneUntil[k] * SECOND ==>
      k in s.journal && s.journal[k].done && s.journal[k].expires == s.hist.doneUntil[k]
  }

  /** A restart has still to refund exactly the open entries. */
  ghost predicate BootOk(s: State) {
    s.mode.Booting? ==>
      && s.mode.todo == InterruptedIn(s.journal).Keys
      && (s.mode.credited.Some? ==> s.mode.credited.value in s.mode.todo)
  }

  /** What the journal says of one key. */
  ghost predicate PaperFor(s: State, k: string) {
    && BootOk(s)
    && (forall r {:trigger PaperOk(s, r)} :: r in s.owners && s.owners[r].key == k ==> PaperOk(s, r))
    && (k in s.journal ==> EntryOk(s, k))
    && (k in s.hist.doneUntil ==> OnceOk(s, k))
  }

  ghost predicate Paper(s: State) {
    forall k {:trigger PaperFor(s, k)} :: PaperFor(s, k)
  }

  ghost predicate ShapeFor(s: State, k: string) {
    Core(s) && PaperFor(s, k)
  }

  ghost predicate Shape(s: State) {
    Core(s) && Paper(s)
  }

  lemma ShapeIsForAll(s: State)
    requires Shape(s)
    ensures forall k :: ShapeFor(s, k)
    ensures forall r :: r in s.owners ==> PaperOk(s, r)
    ensures forall k :: k in s.journal ==> EntryOk(s, k)
    ensures forall k :: k in s.hist.doneUntil ==> OnceOk(s, k)
  {
    forall k ensures ShapeFor(s, k) && (k in s.journal ==> EntryOk(s, k)) && (k in s.hist.doneUntil ==> OnceOk(s, k)) {
      assert PaperFor(s, k);
    }
    forall r | r in s.owners ensures PaperOk(s, r) {
      assert PaperFor(s, s.owners[r].key);
    }
  }

  /** What is known of the papers of an owner about to move. */
  ghost predicate Filed(s: State, r: Id) {
    Core(s) && Moving(s, r) && PaperFor(s, s.owners[r].key) && PaperOk(s, r)
  }

  /** A step of the owner of r leaves the papers of other keys as they are. */
  lemma OthersPaper(s: State, s': State, r: Id, k: string)
    requires ShapeFor(s, k) && s.mode == Up && OwnerTouches(s, s', r) && s.owners[r].key != k
    ensures PaperFor(s', k)
  {
    assert SameAt(s'.calls, s.calls, k) && SameAt(s'.journal, s.journal, k);
    assert SameAt(s'.hist.outcomes, s.hist.outcomes, k) && SameAt(s'.hist.doneUntil, s.hist.doneUntil, k);
    forall q | q in s'.owners && s'.owners[q].key == k ensures PaperOk(s', q) {
      assert SameAt(s'.owners, s.owners, q) && PaperOk(s, q);
    }
    if k in s'.journal {
      assert CallOk(s, k);
      assert SameAt(s'.owners, s.owners, s.calls[k]) && SameAt(s'.recs, s.recs, s.calls[k]);
    }
  }

  /** Enough to check after a step of the owner of r. */
  lemma LocalPaper(s: State, s': State, r: Id)
    requires Filed(s, r) && OwnerTouches(s, s', r)
    requires Active(s.owners[r].phase) || (s'.calls == s.calls && s'.journal == s.journal)
    requires r in s'.owners ==> PaperOk(s', r)
    requires s.owners[r].key in s'.journal ==> EntryOk(s', s.owners[r].key)
    requires s.owners[r].key in s'.hist.doneUntil ==> OnceOk(s', s.owners[r].key)
    ensures PaperFor(s', s.owners[r].key)
  {
    forall q | q in s'.owners && q != r && s'.owners[q].key == s.owners[r].key ensures PaperOk(s', q) {
      assert SameAt(s'.owners, s.owners, q) && PaperOk(s, q) && OwnerOk(s, q) && OwnerOk(s, r);
    }
  }

  lemma RefusePaper(s: State, r: Id)
    requires Filed(s, r) && RefuseAt(s, r).Some?
    ensures PaperFor(RefuseAt(s, r).value, s.owners[r].key)
  {
    RefuseTouches(s, r);
    LocalPaper(s, RefuseAt(s, r).value, r);
  }

  lemma FreePaper(s: State, r: Id)
    requires Filed(s, r) && FreeAt(s, r).Some?
    ensures PaperFor(FreeAt(s, r).value, s.owners[r].key)
  {
    FreeTouches(s, r);
    LocalPaper(s, FreeAt(s, r).value, r);
  }

  lemma DebitPaper(s: State, r: Id, price: int)
    requires Filed(s, r) && DebitAt(s, r, price).Some?
    ensures PaperFor(DebitAt(s, r, price).value, s.owners[r].key)
  {
    DebitTouches(s, r, price);
    LocalPaper(s, DebitAt(s, r, price).value, r);
  }

  lemma QuotePaper(s: State, r: Id)
    requires Filed(s, r) && QuoteAt(s, r).Some?
    ensures PaperFor(QuoteAt(s, r).value, s.owners[r].key)
  {
    QuoteTouches(s, r);
    LocalPaper(s, QuoteAt(s, r).value, r);
  }

  lemma ChargePaper(s: State, r: Id)
    requires Filed(s, r) && ChargeAt(s, r).Some?
    ensures PaperFor(ChargeAt(s, r).value, s.owners[r].key)
  {
    ChargeTouches(s, r);
    LocalPaper(s, ChargeAt(s, r).value, r);
  }

  lemma StartPaper(s: State, r: Id)
    requires Filed(s, r) && StartAt(s, r).Some?
    ensures PaperFor(StartAt(s, r).value, s.owners[r].key)
  {
    StartTouches(s, r);
    LocalPaper(s, StartAt(s, r).value, r);
  }

  lemma ReturnPaper(s: State, r: Id, o: Outcome)
    requires Filed(s, r) && ReturnAt(s, r, o).Some?
    ensures PaperFor(ReturnAt(s, r, o).value, s.owners[r].key)
  {
    ReturnTouches(s, r, o);
    LocalPaper(s, ReturnAt(s, r, o).value, r);
  }

  lemma RepayPaper(s: State, r: Id)
    requires Filed(s, r) && RepayAt(s, r).Some?
    ensures PaperFor(RepayAt(s, r).value, s.owners[r].key)
  {
    RepayTouches(s, r);
    LocalPaper(s, RepayAt(s, r).value, r);
  }

  lemma RecordPaper(s: State, r: Id)
    requires Filed(s, r) && RecordAt(s, r).Some?
    ensures PaperFor(RecordAt(s, r).value, s.owners[r].key)
  {
    RecordTouches(s, r);
    LocalPaper(s, RecordAt(s, r).value, r);
  }

  lemma OutcomePaper(s: State, r: Id)
    requires Filed(s, r) && OutcomeAt(s, r).Some?
    ensures PaperFor(OutcomeAt(s, r).value, s.owners[r].key)
  {
    OutcomeTouches(s, r);
    LocalPaper(s, OutcomeAt(s, r).value, r);
  }

  lemma ClosePaper(s: State, r: Id)
    requires Filed(s, r) && CloseAt(s, r).Some?
    ensures PaperFor(CloseAt(s, r).value, s.owners[r].key)
  {
    CloseTouches(s, r);
    LocalPaper(s, CloseAt(s, r).value, r);
  }

  lemma OwnerIsFiled(s: State, r: Id)
    requires Core(s) && s.mode == Up && r in s.owners && PaperFor(s, s.owners[r].key)
    ensures Filed(s, r)
  {
    var key := s.owners[r].key;
    assert OwnerOk(s, r) && PaperOk(s, r);
    assert key in s.calls ==> CallOk(s, key);
  }

  lemma EarlyStepPaper(s: State, l: Label)
    requires IsOwnerStep(l) && IsEarly(l) && OwnerStep(s, l).Some? && Filed(s, l.r)
    ensures PaperFor(OwnerStep(s, l).value, s.owners[l.r].key)
  {
    if l.Refuse? {
      RefusePaper(s, l.r);
    } else if l.Free? {
      FreePaper(s, l.r);
    } else if l.Debit? {
      DebitPaper(s, l.r, l.price);
    } else if l.Quote? {
      QuotePaper(s, l.r);
    } else {
      ChargePaper(s, l.r);
    }
  }

  lemma LateStepPaper(s: State, l: Label)
    requires IsOwnerStep(l) && !IsEarly(l) && OwnerStep(s, l).Some? && Filed(s, l.r)
    ensures PaperFor(OwnerStep(s, l).value, s.owners[l.r].key)
  {
    if l.Start? {
      StartPaper(s, l.r);
    } else if l.Return? {
      ReturnPaper(s, l.r, l.o);
    } else if l.Repay? {
      RepayPaper(s, l.r);
    } else if l.Record? {
      RecordPaper(s, l.r);
    } else if l.JournalOutcome? {
      OutcomePaper(s, l.r);
    } else {
      ClosePaper(s, l.r);
    }
  }

  lemma OwnerStepPaper(s: State, l: Label, k: string)
    requires ShapeFor(s, k) && IsOwnerStep(l) && OwnerStep(s, l).Some?
    ensures PaperFor(OwnerStep(s, l).value, k)
  {
    if s.owners[l.r].key != k {
      OwnerStepTouches(s, l);
      OthersPaper(s, OwnerStep(s, l).value, l.r, k);
    } else {
      OwnerIsFiled(s, l.r);
      if IsEarly(l) {
        EarlyStepPaper(s, l);
      } else {
        LateStepPaper(s, l);
      }
    }
  }

  /**
   * The one assumption on timing: when a claim, of any key, sweeps the table, no outcome of k already written to its
   * record has outlived that record's expiry without having reached the journal.
   */
  ghost predicate TimelyFor(s: State, l: Label, k: string)
    requires Linked(s)
  {
    l.Claim? ==>
      forall r :: r in s.owners && s.owners[r].key == k && s.owners[r].phase.Recorded? ==> !Expired(s.recs[r], s.now)
  }

  /** Timely for every key. */
  ghost predicate Timely(s: State, l: Label)
    requires Linked(s)
  {
    l.Claim? ==> forall r :: r in s.owners && s.owners[r].phase.Recorded? ==> !Expired(s.recs[r], s.now)
  }

  /** Sweeping the table and collecting the journal at one instant drop an outcome from both or from neither. */
  lemma SweepPaper(s: State, k: string)
    requires ShapeFor(s, k) && Linked(s) && s.mode == Up && TimelyFor(s, Claim("", ""), k)
    ensures PaperFor(SweptState(s), k)
  {
    var s' := SweptState(s);
    forall r | r in s'.owners && s'.owners[r].key == k ensures PaperOk(s', r) {
      assert PaperOk(s, r) && OwnerOk(s, r);
    }
    if k in s'.journal {
      assert CallOk(s, k);
      if s.calls[k] in s.owners {
        assert OwnerOk(s, s.calls[k]);
      }
    }
  }

  /** Steps that touch no claim in use, no owner, no record and no paper. */
  lemma QuietPaper(s: State, s': State, k: string)
    requires PaperFor(s, k) && s'.mode == s.mode && s.now <= s'.now
    requires s'.journal == s.journal && s'.hist.doneUntil == s.hist.doneUntil && s'.hist.outcomes == s.hist.outcomes
    requires s'.owners == s.owners && s'.recs == s.recs && s'.calls == s.calls
    ensures PaperFor(s', k)
  {
    forall r | r in s'.owners && s'.owners[r].key == k ensures PaperOk(s', r) {
      assert PaperOk(s, r);
    }
  }

  lemma EnterPaper(s: State, key: string, peer: string, k: string)
    requires ShapeFor(s, k) && s.mode == Up && key !in s.calls
    ensures PaperFor(Entered(s, key, peer), k)
  {
    var s', r := Entered(s, key, peer), Fresh(s.nextId);
    assert r in s.recs ==> RecordOk(s, r);
    forall q | q in s'.owners && s'.owners[q].key == k ensures PaperOk(s', q) {
      if q in s.owners && q != r {
        assert PaperOk(s, q) && OwnerOk(s, q);
      }
    }
  }

  lemma ClaimPaper(s: State, peer: string, callKey: string, k: string)
    requires ShapeFor(s, k) && Linked(s) && s.mode == Up && TimelyFor(s, Claim(peer, callKey), k)
    ensures PaperFor(ClaimStep(s, peer, callKey), k)
  {
    SweepCore(s);
    SweepPaper(s, k);
    var key := peer + "|" + callKey;
    if key in SweptState(s).calls {
      QuietPaper(SweptState(s), Parked(SweptState(s), key), k);
    } else {
      EnterPaper(SweptState(s), key, peer, k);
    }
  }

  /** A rebuilt record answers what the journal retains of the execution. */
  lemma RebuiltAnswers(s: State, k: string)
    requires k in s.journal && s.journal[k].done && Retains(s, k)
    ensures Reloaded(s.journal[k]).outcome == Replayed(s.hist.outcomes[k])
  {
    ReloadReplays(s.journal[k].peer, s.journal[k].atoms, s.hist.outcomes[k], s.journal[k].expires * SECOND);
  }

  lemma BootDonePaper(s: State, k: string)
    requires ShapeFor(s, k) && s.mode == Booting({}, None)
    ensures PaperFor(BootDoneStep(s), k)
  {
    var s' := BootDoneStep(s);
    if k in s'.journal {
      assert s.journal[k].done by {
        assert k !in InterruptedIn(s.journal);
      }
      RebuiltAnswers(s, k);
      assert s'.calls[k] == Loaded(k, s.nextId) && s'.recs[Loaded(k, s.nextId)] == Reloaded(s.journal[k]);
    }
  }

  lemma BootStepPaper(s: State, l: Label, k: string)
    requires ShapeFor(s, k) && IsBootStep(l) && BootStep(s, l).Some?
    ensures PaperFor(BootStep(s, l).value, k)
  {
    if l.BootDone? {
      BootDonePaper(s, k);
    }
  }

  /** The invariant of one key asks for timeliness of that key alone. */
  lemma {:induction false} StepKeepsFor(s: State, l: Label, k: string)
    requires ShapeFor(s, k) && Step(s, l).Some? && TimelyFor(s, l, k)
    ensures ShapeFor(Step(s, l).value, k)
  {
    StepCore(s, l);
    if IsOwnerStep(l) {
      OwnerStepPaper(s, l, k);
    } else if IsBootStep(l) {
      BootStepPaper(s, l, k);
    } else if l.Claim? {
      ClaimPaper(s, l.peer, l.callKey, k);
    } else {
      QuietPaper(s, Step(s, l).value, k);
    }
  }

  lemma {:induction false} StepKeepsShape(s: State, l: Label)
    requires Shape(s) && Step(s, l).Some? && Timely(s, l)
    ensures Shape(Step(s, l).value)
  {
    StepCore(s, l);
    forall k ensures PaperFor(Step(s, l).value, k) {
      assert PaperFor(s, k);
      StepKeepsFor(s, l, k);
    }
  }
}
