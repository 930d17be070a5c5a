/** What holds in every run of the serving machine, crashes and restarts included. */
module ServingRuns {
  import opened Wrappers
  import opened MapSums
  import opened CallJournal
  import opened ServerLedger
  import opened ServingHarness
  import opened Serving
  import opened ServingInvariant
  import opened ServingBooks

  /** Any steps the machine can make. */
  ghost predicate Play(s: State, ls: seq<Label>, t: State)
    decreases |ls|
  {
    if ls == [] then s == t
    else Step(s, ls[0]).Some? && Play(Step(s, ls[0]).value, ls[1..], t)
  }

  /** Steps in which claims are timely. */
  ghost predicate Run(s: State, ls: seq<Label>, t: State)
    decreases |ls|
  {
    if ls == [] then s == t
    else Step(s, ls[0]).Some? && Timely(s, ls[0]) && Run(Step(s, ls[0]).value, ls[1..], t)
  }

  /** Steps in which claims are timely for one key. */
  ghost predicate RunFor(s: State, ls: seq<Label>, t: State, k: string)
    decreases |ls|
  {
    if ls == [] then s == t
    else Step(s, ls[0]).Some? && TimelyFor(s, ls[0], k) && RunFor(Step(s, ls[0]).value, ls[1..], t, k)
  }

  lemma {:induction false} RunIsForAll(s: State, ls: seq<Label>, t: State, k: string)
    requires Run(s, ls, t)
    ensures RunFor(s, ls, t, k)
    decreases |ls|
  {
    if ls != [] {
      RunIsForAll(Step(s, ls[0]).value, ls[1..], t, k);
    }
  }

  lemma {:induction false} RunPlays(s: State, ls: seq<Label>, t: State, k: string)
    requires RunFor(s, ls, t, k)
    ensures Play(s, ls, t)
    decreases |ls|
  {
    if ls != [] {
      RunPlays(Step(s, ls[0]).value, ls[1..], t, k);
    }
  }

  lemma InitialInv(s: State)
    requires Initial(s)
    ensures Inv(s)
  {
  }

  /** Timely or not, no run loses a reference: the machine is never stuck for want of a record. */
  lemma {:induction false} PlayIsLinked(s: State, ls: seq<Label>, t: State)
    requires Core(s) && Play(s, ls, t)
    ensures Core(t) && Linked(t)
    decreases |ls|
  {
    if ls == [] {
      CoreLinks(t);
    } else {
      StepCore(s, ls[0]);
      PlayIsLinked(Step(s, ls[0]).value, ls[1..], t);
    }
  }

  lemma {:induction false} RunKeepsFor(s: State, ls: seq<Label>, t: State, k: string)
    requires ShapeFor(s, k) && RunFor(s, ls, t, k)
    ensures ShapeFor(t, k)
    decreases |ls|
  {
    if ls != [] {
      StepKeepsFor(s, ls[0], k);
      RunKeepsFor(Step(s, ls[0]).value, ls[1..], t, k);
    }
  }

  lemma {:induction false} RunKeeps(s: State, ls: seq<Label>, t: State)
    requires Inv(s) && Run(s, ls, t)
    ensures Inv(t)
    decreases |ls|
  {
    if ls != [] {
      StepKeeps(s, ls[0]);
      RunKeeps(Step(s, ls[0]).value, ls[1..], t);
    }
  }

  /** Time never goes back, and only crashes cost anything. */
  lemma StepBasics(s: State, l: Label)
    requires Step(s, l).Some?
    ensures var s' := Step(s, l).value;
            s.now <= s'.now && (!l.Crash? ==> s'.hist.lost == s.hist.lost && s'.hist.over == s.hist.over)
  {
    if IsOwnerStep(l) {
      OwnerStepTouches(s, l);
    }
  }

  lemma {:induction false} NowMonotone(s: State, ls: seq<Label>, t: State)
    requires Play(s, ls, t)
    ensures s.now <= t.now
    decreases |ls|
  {
    if ls != [] {
      StepBasics(s, ls[0]);
      NowMonotone(Step(s, ls[0]).value, ls[1..], t);
    }
  }

  // ---------------------------------------------------------------------------------------------
  // Conservation of atoms

  /** Atoms between two writes: debited but not journaled, or refunded while the journal still says open. */
  ghost function InTransit(s: State): int {
    LostSum(s.owners) - OverpaidSum(s.owners) - HalfRefunded(s)
  }

  /** No call stands in a window where a crash would unbalance the books. */
  ghost predicate WindowsClosed(s: State) {
    && (forall r :: r in s.owners ==> LostBy(s.owners[r]) == 0 && OverpaidBy(s.owners[r]) == 0)
    && !(s.mode.Booting? && s.mode.credited.Some?)
  }

  ghost predicate CrashesAvoidWindows(s: State, ls: seq<Label>)
    decreases |ls|
  {
    ls == [] ||
    (Step(s, ls[0]).Some? && (ls[0].Crash? ==> WindowsClosed(s))
     && CrashesAvoidWindows(Step(s, ls[0]).value, ls[1..]))
  }

  /** A crash costs nobody anything exactly when no window is open. */
  lemma CrashCost(s: State)
    requires Shape(s)
    ensures 0 <= LostSum(s.owners) && 0 <= OverpaidSum(s.owners) && 0 <= HalfRefunded(s)
    ensures WindowsClosed(s) <==> LostSum(s.owners) == 0 && OverpaidSum(s.owners) + HalfRefunded(s) == 0
  {
    var lost := map r | r in s.owners :: LostBy(s.owners[r]);
    var over := map r | r in s.owners :: OverpaidBy(s.owners[r]);
    forall r | r in s.owners ensures 0 <= lost[r] && 0 <= over[r] {
      assert OwnerOk(s, r);
    }
    SumNonNegative(lost);
    SumNonNegative(over);
    forall r | r in s.owners ensures lost[r] <= LostSum(s.owners) && over[r] <= OverpaidSum(s.owners) {
      SumCovers(lost, r);
      SumCovers(over, r);
    }
    if s.mode.Booting? && s.mode.credited.Some? {
      assert PaperFor(s, s.mode.credited.value);
    }
    if WindowsClosed(s) {
      SumSupport(lost, map[]);
      SumSupport(over, map[]);
    }
  }

  /** A step costs something exactly when it is a crash in an open window. */
  lemma StepCost(s: State, l: Label)
    requires Shape(s) && Step(s, l).Some?
    ensures var h, h' := s.hist, Step(s, l).value.hist;
            && h.lost <= h'.lost && h.over <= h'.over
            && ((l.Crash? ==> WindowsClosed(s)) <==> h'.lost == h.lost && h'.over == h.over)
  {
    if l.Crash? {
      CrashCost(s);
    } else {
      StepBasics(s, l);
    }
  }

  lemma {:induction false} CostOfCrashes(s: State, ls: seq<Label>, t: State)
    requires Inv(s) && Run(s, ls, t)
    ensures s.hist.lost <= t.hist.lost && s.hist.over <= t.hist.over
    ensures CrashesAvoidWindows(s, ls) <==> t.hist.lost == s.hist.lost && t.hist.over == s.hist.over
    decreases |ls|
  {
    if ls != [] {
      StepKeeps(s, ls[0]);
      StepCost(s, ls[0]);
      CostOfCrashes(Step(s, ls[0]).value, ls[1..], t);
    }
  }

  /**
   * Conservation: balances, open journaled charges and the prices of calls that completed without error
   * add up to all atoms ever credited, up to atoms in transit and what crashes cost; and crashes cost
   * nothing exactly when each of them avoids the three windows.
   */
  lemma ConservationOfAtoms(s: State, ls: seq<Label>, t: State)
    requires Initial(s) && Run(s, ls, t)
    ensures Sum(t.ledger) + OpenCharges(t.journal) + t.hist.earned + InTransit(t)
            == t.hist.credited - t.hist.lost + t.hist.over
    ensures 0 <= t.hist.lost && 0 <= t.hist.over
    ensures CrashesAvoidWindows(s, ls) <==> t.hist.lost == 0 && t.hist.over == 0
    ensures forall uid :: 0 <= BalanceOf(t.ledger, uid)
  {
    InitialInv(s);
    RunKeeps(s, ls, t);
    CostOfCrashes(s, ls, t);
  }

  /** Between calls, with no crash in a window, the three sums are exactly what was credited. */
  lemma BooksAtRest(s: State, ls: seq<Label>, t: State)
    requires Initial(s) && Run(s, ls, t) && CrashesAvoidWindows(s, ls) && WindowsClosed(t)
    ensures Sum(t.ledger) + OpenCharges(t.journal) + t.hist.earned == t.hist.credited
  {
    ConservationOfAtoms(s, ls, t);
    InitialInv(s);
    RunKeeps(s, ls, t);
    CrashCost(t);
  }

  // ---------------------------------------------------------------------------------------------
  // At most once

  /**
   * In every run, however late claims come and whatever crashes, no two calls under one key are between claim and
   * record at the same time: their handlers never overlap, as a claim in progress has no expiry and is never swept.
   */
  lemma OneExecutionPerKey(s: State, ls: seq<Label>, t: State, q: Id, r: Id)
    requires Initial(s) && Play(s, ls, t)
    requires q in t.owners && r in t.owners && Holding(t.owners[q].phase) && Holding(t.owners[r].phase)
    requires t.owners[q].key == t.owners[r].key
    ensures q == r
  {
    InitialInv(s);
    PlayIsLinked(s, ls, t);
    assert OwnerOk(t, q) && OwnerOk(t, r);
  }

  /** With timely claims of the key, not even a finished call that is not journaled yet overlaps another one. */
  lemma OneOwnerPerKey(s: State, ls: seq<Label>, t: State, q: Id, r: Id)
    requires q in t.owners && r in t.owners && Active(t.owners[q].phase) && Active(t.owners[r].phase)
    requires t.owners[q].key == t.owners[r].key
    requires Initial(s) && RunFor(s, ls, t, t.owners[q].key)
    ensures q == r
  {
    InitialInv(s);
    ShapeIsForAll(s);
    RunKeepsFor(s, ls, t, t.owners[q].key);
    assert OwnerOk(t, q) && OwnerOk(t, r) && PaperOk(t, q) && PaperOk(t, r);
  }

  /** Whoever works on key k holds it in the table. */
  ghost predicate Possessed(s: State, k: string) {
    forall r :: r in s.owners && Active(s.owners[r].phase) && s.owners[r].key == k ==> k in s.calls && s.calls[k] == r
  }

  /**
   * The timing assumption on claims is exact, key by key: a claim leaves every active owner of k in possession of it
   * if and only if no unjournaled outcome of k has outlived its record.
   */
  lemma TimelinessIsExact(s: State, peer: string, callKey: string, k: string)
    requires ShapeFor(s, k) && s.mode == Up && Linked(s)
    ensures TimelyFor(s, Claim(peer, callKey), k) <==> Possessed(ClaimStep(s, peer, callKey), k)
  {
    var s' := ClaimStep(s, peer, callKey);
    if TimelyFor(s, Claim(peer, callKey), k) {
      ClaimCore(s, peer, callKey);
      ClaimPaper(s, peer, callKey, k);
      forall r | r in s'.owners && Active(s'.owners[r].phase) && s'.owners[r].key == k
        ensures k in s'.calls && s'.calls[k] == r
      {
        assert OwnerOk(s', r) && PaperOk(s', r);
      }
    } else {
      var r :| r in s.owners && s.owners[r].key == k && s.owners[r].phase.Recorded? && Expired(s.recs[r], s.now);
      LosesItsKey(s, peer, callKey, r);
    }
  }

  /** The sweep takes the claim of an owner whose record has expired. */
  lemma LosesItsKey(s: State, peer: string, callKey: string, r: Id)
    requires s.mode == Up && Linked(s) && r in s.owners && ShapeFor(s, s.owners[r].key)
    requires r in s.owners && s.owners[r].phase.Recorded? && Expired(s.recs[r], s.now)
    ensures var s', key := ClaimStep(s, peer, callKey), s.owners[r].key;
            r in s'.owners && s'.owners[r] == s.owners[r] && (key in s'.calls ==> s'.calls[key] != r)
  {
    assert OwnerOk(s, r) && PaperOk(s, r);
    assert s.owners[r].key !in SweptCalls(s);
  }

  /** Every step but the journal write keeps what is remembered of journaled outcomes. */
  lemma SameOutcomes(s: State, l: Label)
    requires IsOwnerStep(l) && OwnerStep(s, l).Some? && !l.JournalOutcome?
    ensures OwnerStep(s, l).value.hist.doneUntil == s.hist.doneUntil
    ensures OwnerStep(s, l).value.hist.outcomes == s.hist.outcomes
  {
    if !l.Record? && !l.Close? {
      StepUnheard(s, l);
    }
  }

  /** The latest journaled outcome of key and its expiry are the same in both states. */
  ghost predicate Stands(s: State, s': State, key: string) {
    && key in s.hist.doneUntil && key in s'.hist.doneUntil && s'.hist.doneUntil[key] == s.hist.doneUntil[key]
    && key in s.hist.outcomes && key in s'.hist.outcomes && s'.hist.outcomes[key] == s.hist.outcomes[key]
  }

  /** A step of an owner of another key leaves what stands of this one. */
  lemma OthersOutcomeStands(s: State, s': State, r: Id, key: string)
    requires OwnerTouches(s, s', r) && s.owners[r].key != key && key in s.hist.doneUntil && key in s.hist.outcomes
    ensures Stands(s, s', key)
  {
    assert SameAt(s'.hist.doneUntil, s.hist.doneUntil, key) && SameAt(s'.hist.outcomes, s.hist.outcomes, key);
  }

  /** No owner of key can be past its charge while a completed entry of key is in force. */
  lemma OwnOutcomeStands(s: State, l: Label, key: string)
    requires ShapeFor(s, key) && IsOwnerStep(l) && OwnerStep(s, l).Some? && key in s.hist.doneUntil
    requires s.now <= s.hist.doneUntil[key] * SECOND
    ensures Stands(s, OwnerStep(s, l).value, key)
    ensures l.Start? ==> s.owners[l.r].key != key
  {
    assert OnceOk(s, key) && EntryOk(s, key);
    assert OwnerOk(s, l.r) && (s.owners[l.r].key == key ==> PaperOk(s, l.r));
    OwnerStepTouches(s, l);
    if s.owners[l.r].key != key {
      OthersOutcomeStands(s, OwnerStep(s, l).value, l.r, key);
    } else if !l.JournalOutcome? {
      SameOutcomes(s, l);
    }
  }

  /** While a paid outcome is within its journaled expiry, no step replaces it or starts the handler for its key. */
  lemma OutcomeStandsOneStep(s: State, l: Label, key: string)
    requires ShapeFor(s, key) && Step(s, l).Some? && key in s.hist.doneUntil
    requires s.now <= s.hist.doneUntil[key] * SECOND
    ensures Stands(s, Step(s, l).value, key)
    ensures l.Start? ==> s.owners[l.r].key != key
  {
    assert OnceOk(s, key) && EntryOk(s, key);
    if IsOwnerStep(l) {
      OwnOutcomeStands(s, l, key);
    } else {
      NoNewOutcomes(s, l);
    }
  }

  lemma NoNewOutcomes(s: State, l: Label)
    requires !IsOwnerStep(l) && Step(s, l).Some?
    ensures Step(s, l).value.hist.doneUntil == s.hist.doneUntil
    ensures Step(s, l).value.hist.outcomes == s.hist.outcomes
  {
  }

  lemma {:induction false} OutcomeKept(s: State, ls: seq<Label>, t: State, key: string)
    requires ShapeFor(s, key) && RunFor(s, ls, t, key) && key in s.hist.doneUntil && key in s.hist.outcomes
    requires t.now <= s.hist.doneUntil[key] * SECOND
    ensures Stands(s, t, key)
    decreases |ls|
  {
    if ls != [] {
      RunPlays(s, ls, t, key);
      NowMonotone(s, ls, t);
      OutcomeStandsOneStep(s, ls[0], key);
      StepKeepsFor(s, ls[0], key);
      OutcomeKept(Step(s, ls[0]).value, ls[1..], t, key);
    }
  }

  /**
   * Until its expiry a journaled paid outcome stays what it is: the journal retains it as completed, and while the
   * server is up the key's record answers it, rebuilt records as the journal replays it.
   */
  lemma OutcomeStands(s: State, ls: seq<Label>, t: State, key: string)
    requires ShapeFor(s, key) && RunFor(s, ls, t, key) && key in s.hist.doneUntil && key in s.hist.outcomes
    requires t.now <= s.hist.doneUntil[key] * SECOND
    ensures var o := s.hist.outcomes[key];
            && key in t.journal
            && t.journal[key] == Finished(OpenEntry(t.journal[key].peer, t.journal[key].atoms), o,
                                          s.hist.doneUntil[key] * SECOND)
            && (t.mode == Up ==> key in t.calls && t.calls[key] in t.recs
                                 && t.recs[t.calls[key]].outcome == AnswerOf(t.calls[key], o))
  {
    OutcomeKept(s, ls, t, key);
    RunKeepsFor(s, ls, t, key);
    assert OnceOk(t, key) && EntryOk(t, key);
  }

  lemma JournaledOutcome(s: State, q: Id)
    requires Step(s, JournalOutcome(q)).Some? && s.owners[q].price > 0 && ShapeFor(s, s.owners[q].key)
    ensures var s' := Step(s, JournalOutcome(q)).value;
            && ShapeFor(s', s.owners[q].key) && q in s.recs && s.recs[q].expires.Some?
            && s.owners[q].key in s'.hist.doneUntil
            && s.owners[q].key in s'.hist.outcomes
            && s'.hist.doneUntil[s.owners[q].key] == UnixOf(s.recs[q].expires.value)
  {
    StepKeepsFor(s, JournalOutcome(q), s.owners[q].key);
  }

  /**
   * At most once across restarts: once the outcome of a paid call is journaled, the handler starts again
   * for that key only after the journaled expiry, whatever calls, crashes and restarts come in between. Only claims
   * that would sweep an unjournaled outcome of that very key are excluded.
   */
  lemma NeverTwiceBeforeExpiry(s: State, before: seq<Label>, paid: State, q: Id, between: seq<Label>, start: State,
                               r: Id)
    requires Step(paid, JournalOutcome(q)).Some? && paid.owners[q].price > 0
    requires Initial(s) && RunFor(s, before, paid, paid.owners[q].key)
    requires RunFor(Step(paid, JournalOutcome(q)).value, between, start, paid.owners[q].key)
    requires Step(start, Start(r)).Some? && start.owners[r].key == paid.owners[q].key
    ensures start.now > UnixOf(paid.recs[q].expires.value) * SECOND
  {
    var after, key := Step(paid, JournalOutcome(q)).value, paid.owners[q].key;
    InitialInv(s);
    ShapeIsForAll(s);
    RunKeepsFor(s, before, paid, key);
    JournaledOutcome(paid, q);
    RunKeepsFor(after, between, start, key);
    if start.now <= UnixOf(paid.recs[q].expires.value) * SECOND {
      OutcomeKept(after, between, start, key);
      OutcomeStandsOneStep(start, Start(r), key);
    }
  }
}
