/** The serving machine's dealings with one key while it stays up and requests for the key come in time. */
module OneKey {
  import opened Wrappers
  import opened CallJournal
  import opened ServerLedger
  import opened ServingHarness
  import opened Serving
  import opened ServingInvariant

  function KeyOf(l: Label): string
    requires l.Claim?
  {
    l.peer + "|" + l.callKey
  }

  /** The server does not crash, and requests for key that still arrive do so before its outcome expires. */
  ghost predicate Calm(s: State, l: Label, key: string) {
    && !l.Crash?
    && (l.Claim? && KeyOf(l) == key && key in s.hist.until ==> s.now <= s.hist.until[key])
  }

  /** The price the owner of key holds right now. */
  function HeldBy(o: Owner): int {
    if o.phase.Paid? || o.phase.Ready? || o.phase.Running? || o.phase.Failed?
       || (o.phase.Finishing? && o.phase.o.err.None?)
    then o.price else 0
  }

  function Held(s: State, key: string): int {
    if key in s.calls && s.calls[key] in s.owners then HeldBy(s.owners[s.calls[key]]) else 0
  }

  function KeptOf(run: (int, Outcome)): int {
    if run.1.err.None? then run.0 else 0
  }

  predicate Before(p: Phase) {
    p.Claimed? || p.Short? || p.Paid? || p.Ready?
  }

  predicate During(p: Phase) {
    p.Running? || p.Failed? || p.Finishing?
  }

  /** An owner of key is before, in or after the one execution, as the history says. */
  ghost predicate PlaceOk(s: State, key: string, r: Id)
    requires r in s.owners
  {
    s.owners[r].key == key ==>
      && (Before(s.owners[r].phase) ==> key !in s.hist.until && CountOf(s.hist.starts, key) == 0)
      && (During(s.owners[r].phase) ==> key !in s.hist.until && CountOf(s.hist.starts, key) == 1)
  }

  /** After the execution its record stays in the table until it expires. */
  ghost predicate Afterwards(s: State, key: string)
    requires key in s.hist.until
  {
    && CountOf(s.hist.starts, key) == 1
    && |RunsOf(s.hist.runs, key)| == 1
    && 0 <= RunsOf(s.hist.runs, key)[0].0
    && NetOf(s.hist.net, key) == KeptOf(RunsOf(s.hist.runs, key)[0])
    && (s.now <= s.hist.until[key] ==>
          key in s.calls && s.calls[key] in s.recs && s.recs[s.calls[key]].expires == Some(s.hist.until[key]))
  }

  /** Before it ends only the owner of the claim holds a charge. */
  ghost predicate Beforehand(s: State, key: string) {
    && CountOf(s.hist.starts, key) <= 1
    && RunsOf(s.hist.runs, key) == []
    && NetOf(s.hist.net, key) == Held(s, key)
    && (CountOf(s.hist.starts, key) == 1 ==>
          key in s.calls && s.calls[key] in s.owners && During(s.owners[s.calls[key]].phase))
  }

  ghost predicate Account(s: State, key: string) {
    if key in s.hist.until then Afterwards(s, key) else Beforehand(s, key)
  }

  ghost predicate KeyOnce(s: State, key: string) {
    && s.mode == Up
    && Account(s, key)
    && (forall r {:trigger PlaceOk(s, key, r)} :: r in s.owners ==> PlaceOk(s, key, r))
    && (forall r :: r in s.hist.replies && s.hist.replies[r].0 == key ==> r.Fresh?)
  }

  ghost predicate KeyUnused(s: State, key: string) {
    && key !in s.calls && key !in s.hist.starts && key !in s.hist.net && key !in s.hist.runs && key !in s.hist.until
    && (forall r :: r in s.owners ==> s.owners[r].key != key)
    && (forall r :: r in s.hist.replies ==> s.hist.replies[r].0 != key)
  }

  lemma UnusedKeyIsOnce(s: State, key: string)
    requires s.mode == Up && KeyUnused(s, key)
    ensures KeyOnce(s, key)
  {
  }

  // ---------------------------------------------------------------------------------------------
  // Steps of owners

  lemma RepliesFresh(s: State, s': State, r: Id, key: string)
    requires Core(s) && KeyOnce(s, key) && OwnerTouches(s, s', r)
    ensures forall q :: q in s'.hist.replies && s'.hist.replies[q].0 == key ==> q.Fresh?
  {
    assert OwnerOk(s, r);
    forall q | q in s'.hist.replies && s'.hist.replies[q].0 == key ensures q.Fresh? {
      if q != r {
        assert SameAt(s'.hist.replies, s.hist.replies, q);
      }
    }
  }

  /** An owner of some other key has moved. */
  lemma OthersOnce(s: State, s': State, r: Id, key: string)
    requires Core(s) && KeyOnce(s, key) && OwnerTouches(s, s', r) && s.owners[r].key != key
    ensures KeyOnce(s', key)
  {
    RepliesFresh(s, s', r, key);
    var h, h' := s.hist, s'.hist;
    assert SameAt(s'.calls, s.calls, key) && SameAt(h'.starts, h.starts, key) && SameAt(h'.net, h.net, key);
    assert SameAt(h'.runs, h.runs, key) && SameAt(h'.until, h.until, key);
    if key in s.calls {
      assert CallOk(s, key);
      assert SameAt(s'.owners, s.owners, s.calls[key]) && SameAt(s'.recs, s.recs, s.calls[key]);
    }
    forall q | q in s'.owners ensures PlaceOk(s', key, q) {
      if q != r {
        assert SameAt(s'.owners, s.owners, q) && PlaceOk(s, key, q);
      }
    }
  }

  /** What is known when an owner of key is about to move. */
  ghost predicate Own(s: State, r: Id, key: string) {
    && Core(s) && KeyOnce(s, key) && Moving(s, r) && s.owners[r].key == key
    && PlaceOk(s, key, r)
  }

  /** Enough to check after a step of an owner of key. */
  lemma OwnOnce(s: State, s': State, r: Id, key: string)
    requires Own(s, r, key) && OwnerTouches(s, s', r) && Account(s', key) && (r in s'.owners ==> PlaceOk(s', key, r))
    requires Holding(s.owners[r].phase) || (s'.hist.starts == s.hist.starts && s'.hist.until == s.hist.until)
    ensures KeyOnce(s', key)
  {
    RepliesFresh(s, s', r, key);
    forall q | q in s'.owners && q != r ensures PlaceOk(s', key, q) {
      assert SameAt(s'.owners, s.owners, q) && PlaceOk(s, key, q) && OwnerOk(s, q);
    }
  }

  lemma RefuseOnce(s: State, r: Id, key: string)
    requires Own(s, r, key) && RefuseAt(s, r).Some?
    ensures KeyOnce(RefuseAt(s, r).value, key)
  {
    RefuseTouches(s, r);
    OwnOnce(s, RefuseAt(s, r).value, r, key);
  }

  lemma FreeOnce(s: State, r: Id, key: string)
    requires Own(s, r, key) && FreeAt(s, r).Some?
    ensures KeyOnce(FreeAt(s, r).value, key)
  {
    FreeTouches(s, r);
    OwnOnce(s, FreeAt(s, r).value, r, key);
  }

  lemma DebitOnce(s: State, r: Id, price: int, key: string)
    requires Own(s, r, key) && DebitAt(s, r, price).Some?
    ensures KeyOnce(DebitAt(s, r, price).value, key)
  {
    DebitTouches(s, r, price);
    OwnOnce(s, DebitAt(s, r, price).value, r, key);
  }

  lemma QuoteOnce(s: State, r: Id, key: string)
    requires Own(s, r, key) && QuoteAt(s, r).Some?
    ensures KeyOnce(QuoteAt(s, r).value, key)
  {
    QuoteTouches(s, r);
    OwnOnce(s, QuoteAt(s, r).value, r, key);
  }

  lemma ChargeOnce(s: State, r: Id, key: string)
    requires Own(s, r, key) && ChargeAt(s, r).Some?
    ensures KeyOnce(ChargeAt(s, r).value, key)
  {
    ChargeTouches(s, r);
    OwnOnce(s, ChargeAt(s, r).value, r, key);
  }

  lemma StartOnce(s: State, r: Id, key: string)
    requires Own(s, r, key) && StartAt(s, r).Some?
    ensures KeyOnce(StartAt(s, r).value, key)
  {
    StartTouches(s, r);
    OwnOnce(s, StartAt(s, r).value, r, key);
  }

  /** The handler has returned: the execution is not over before its outcome is recorded. */
  lemma EndsOnce(s: State, r: Id, phase: Phase, key: string)
    requires Own(s, r, key) && s.owners[r].phase.Running? && During(phase)
    requires HeldBy(s.owners[r].(phase := phase)) == s.owners[r].price
    ensures KeyOnce(At(s, r, phase), key)
  {
    AtTouches(s, r, phase);
    OwnOnce(s, At(s, r, phase), r, key);
  }

  lemma ReturnOnce(s: State, r: Id, o: Outcome, key: string)
    requires Own(s, r, key) && ReturnAt(s, r, o).Some?
    ensures KeyOnce(ReturnAt(s, r, o).value, key)
  {
    EndsOnce(s, r, if o.err.Some? && s.owners[r].price > 0 then Failed(o) else Finishing(o), key);
  }

  lemma RepayOnce(s: State, r: Id, key: string)
    requires Own(s, r, key) && RepayAt(s, r).Some?
    ensures KeyOnce(RepayAt(s, r).value, key)
  {
    RepayTouches(s, r);
    OwnOnce(s, RepayAt(s, r).value, r, key);
  }

  lemma RecordOnce(s: State, r: Id, key: string)
    requires Own(s, r, key) && RecordAt(s, r).Some?
    ensures KeyOnce(RecordAt(s, r).value, key)
  {
    RecordTouches(s, r);
    OwnOnce(s, RecordAt(s, r).value, r, key);
  }

  lemma OutcomeOnce(s: State, r: Id, key: string)
    requires Own(s, r, key) && OutcomeAt(s, r).Some?
    ensures KeyOnce(OutcomeAt(s, r).value, key)
  {
    OutcomeTouches(s, r);
    OwnOnce(s, OutcomeAt(s, r).value, r, key);
  }

  lemma CloseOnce(s: State, r: Id, key: string)
    requires Own(s, r, key) && CloseAt(s, r).Some?
    ensures KeyOnce(CloseAt(s, r).value, key)
  {
    CloseTouches(s, r);
    OwnOnce(s, CloseAt(s, r).value, r, key);
  }

  lemma OwnStepOnce(s: State, l: Label, key: string)
    requires IsOwnerStep(l) && OwnerStep(s, l).Some? && Own(s, l.r, key)
    ensures KeyOnce(OwnerStep(s, l).value, key)
  {
    match l {
      case Refuse(r) => RefuseOnce(s, r, key);
      case Free(r) => FreeOnce(s, r, key);
      case Debit(r, price) => DebitOnce(s, r, price, key);
      case Quote(r) => QuoteOnce(s, r, key);
      case JournalCharge(r) => ChargeOnce(s, r, key);
      case Start(r) => StartOnce(s, r, key);
      case Return(r, o) => ReturnOnce(s, r, o, key);
      case Repay(r) => RepayOnce(s, r, key);
      case Record(r) => RecordOnce(s, r, key);
      case JournalOutcome(r) => OutcomeOnce(s, r, key);
      case Close(r) => CloseOnce(s, r, key);
    }
  }

  lemma OwnerStepOnce(s: State, l: Label, key: string)
    requires Core(s) && KeyOnce(s, key) && IsOwnerStep(l) && OwnerStep(s, l).Some?
    ensures KeyOnce(OwnerStep(s, l).value, key)
  {
    if s.owners[l.r].key == key {
      assert OwnerOk(s, l.r) && PlaceOk(s, key, l.r) && (key in s.calls ==> CallOk(s, key));
      OwnStepOnce(s, l, key);
    } else {
      OwnerStepTouches(s, l);
      OthersOnce(s, OwnerStep(s, l).value, l.r, key);
    }
  }

  // ---------------------------------------------------------------------------------------------
  // Other steps

  /** A sweep leaves the record of key alone until it expires. */
  lemma SweepOnce(s: State, key: string)
    requires Core(s) && KeyOnce(s, key) && Linked(s)
    ensures KeyOnce(SweptState(s), key)
  {
    var s1 := SweptState(s);
    if key in s.calls && s.calls[key] in s.owners {
      assert CallOk(s, key) && OwnerOk(s, s.calls[key]);
    }
    forall r | r in s1.owners ensures PlaceOk(s1, key, r) {
      assert PlaceOk(s, key, r);
    }
  }

  lemma EnterOnce(s: State, key: string, other: string, peer: string)
    requires Core(s) && KeyOnce(s, key) && other !in s.calls
    requires other == key && key in s.hist.until ==> s.now <= s.hist.until[key]
    ensures KeyOnce(Entered(s, other, peer), key)
  {
    var s', r := Entered(s, other, peer), Fresh(s.nextId);
    assert (r in s.recs ==> RecordOk(s, r)) && (key in s.calls ==> CallOk(s, key));
    forall q | q in s'.owners ensures PlaceOk(s', key, q) {
      if q in s.owners && q != r {
        assert PlaceOk(s, key, q);
      }
    }
  }

  lemma QuietOnce(s: State, s': State, key: string)
    requires KeyOnce(s, key) && s'.mode == Up && s.now <= s'.now
    requires s'.calls == s.calls && s'.owners == s.owners && s'.recs == s.recs && s'.hist.replies == s.hist.replies
    requires s'.hist.starts == s.hist.starts && s'.hist.net == s.hist.net && s'.hist.runs == s.hist.runs
    requires s'.hist.until == s.hist.until
    ensures KeyOnce(s', key)
  {
    forall r | r in s'.owners ensures PlaceOk(s', key, r) {
      assert PlaceOk(s, key, r);
    }
  }

  lemma ClaimOnce(s: State, l: Label, key: string)
    requires Core(s) && KeyOnce(s, key) && Linked(s) && l.Claim? && Calm(s, l, key)
    ensures KeyOnce(ClaimStep(s, l.peer, l.callKey), key)
  {
    SweepOnce(s, key);
    SweepCore(s);
    if KeyOf(l) in SweptState(s).calls {
      QuietOnce(SweptState(s), Parked(SweptState(s), KeyOf(l)), key);
    } else {
      EnterOnce(SweptState(s), key, KeyOf(l), l.peer);
    }
  }

  /** Each key is executed at most once, and costs what its execution costs, whatever other keys are up to. */
  lemma {:induction false} StepOnce(s: State, l: Label, key: string)
    requires Core(s) && KeyOnce(s, key) && Step(s, l).Some? && Calm(s, l, key)
    ensures KeyOnce(Step(s, l).value, key)
  {
    if IsOwnerStep(l) {
      OwnerStepOnce(s, l, key);
    } else if l.Claim? {
      ClaimOnce(s, l, key);
    } else {
      QuietOnce(s, Step(s, l).value, key);
    }
  }
}
