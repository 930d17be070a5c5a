/**
 * One agent-visible call end to end: the bridge's relay loop, a network that may lose, delay and
 * duplicate requests and replies at will, and the serving machine with everything else it is doing.
 */
module EndToEnd {
  import opened Wrappers
  import opened CallJournal
  import opened ServerLedger
  import opened ServingHarness
  import opened Serving
  import opened ServingInvariant
  import opened ServingBooks
  import opened ServingRuns
  import opened ServingReplies
  import opened OneKey
  import P = Passthrough

  /** The relay's own run so far, and the server. Requests sent are the calls of the run. */
  datatype World = World(trace: P.Trace, server: State)

  datatype Move = ServerMove(l: Label) | ClientMove(e: P.Event)

  /** The server answered a claim on key with this quote. */
  ghost predicate QuotedFor(s: State, key: string, price: int, shortfall: int) {
    exists r :: r in s.hist.replies && s.hist.replies[r] == (key, Quoted(price, shortfall))
  }

  /** The owner of a claim on key answered what its handler returned. */
  ghost predicate OwnerSaid(s: State, key: string, o: Outcome) {
    exists r :: r in s.hist.replies && s.hist.replies[r] == (key, Answered(o))
  }

  /** A duplicate that had waited on a claim on key answered this. */
  ghost predicate DuplicateSaid(s: State, key: string, o: Outcome) {
    exists w :: w in s.hist.heard && s.hist.heard[w].0 in s.hist.replies
                && s.hist.replies[s.hist.heard[w].0].0 == key && s.hist.heard[w].1 == o
  }

  /** A reply may arrive, any number of times, if the server sent it; refusals it may always have sent. */
  ghost predicate Sent(s: State, key: string, reply: P.Reply) {
    match reply
    case PaymentRequired(price, shortfall) => QuotedFor(s, key, price, shortfall)
    case Result(Said(o)) => OwnerSaid(s, key, o) || DuplicateSaid(s, key, o)
    case Result(Refusal) => true
  }

  /** A request may arrive any number of times once sent. */
  ghost function WorldStep(w: World, m: Move, key: string): Option<World> {
    match m
    case ServerMove(l) =>
      if Calm(w.server, l, key)
         && (l.Claim? && KeyOf(l) == key ==> P.Calls(w.trace) > 0)
         && Step(w.server, l).Some?
      then Some(w.(server := Step(w.server, l).value)) else None
    case ClientMove(e) =>
      if (e.Replied? ==> Sent(w.server, key, e.reply)) && P.After(P.Then(w.trace, e)).Some?
      then Some(w.(trace := P.Then(w.trace, e))) else None
  }

  ghost predicate WorldRun(w: World, ms: seq<Move>, key: string, end: World)
    decreases |ms|
  {
    if ms == [] then w == end
    else WorldStep(w, ms[0], key).Some? && WorldRun(WorldStep(w, ms[0], key).value, ms[1..], key, end)
  }

  // ---------------------------------------------------------------------------------------------
  // Quotes are honest

  predicate Honest(reply: Reply) {
    reply.Quoted? ==> 0 < reply.price && reply.shortfall <= reply.price
  }

  predicate HonestPhase(p: Phase) {
    && (p.Short? ==> 0 < p.price)
    && (p.Releasing? ==> Honest(p.reply))
  }

  ghost predicate HonestQuotes(s: State) {
    && (forall r :: r in s.owners ==> HonestPhase(s.owners[r].phase))
    && (forall r :: r in s.hist.replies ==> Honest(s.hist.replies[r].1))
  }

  /** An owner that moves files an honest reply, if it files one. */
  lemma OwnerStaysHonest(s: State, l: Label)
    requires Solvent(s.ledger) && HonestQuotes(s) && IsOwnerStep(l) && OwnerStep(s, l).Some?
    ensures var s' := OwnerStep(s, l).value;
            && (l.r in s'.owners ==> HonestPhase(s'.owners[l.r].phase))
            && (l.r in s'.hist.replies ==> Honest(s'.hist.replies[l.r].1))
  {
    if l.Close? {
      assert HonestPhase(s.owners[l.r].phase);
    } else {
      StaysSilent(s, l);
    }
  }

  lemma StaysSilent(s: State, l: Label)
    requires Solvent(s.ledger) && HonestQuotes(s) && IsOwnerStep(l) && OwnerStep(s, l).Some? && !l.Close?
    ensures OwnerStep(s, l).value.hist.replies == s.hist.replies
    ensures l.r in OwnerStep(s, l).value.owners && HonestPhase(OwnerStep(s, l).value.owners[l.r].phase)
  {
    if IsUnheard(l) {
      StepUnheard(s, l);
    }
    if IsEarly(l) {
      EarlyHonest(s, l);
    } else {
      LateHonest(s, l);
    }
  }

  lemma EarlyHonest(s: State, l: Label)
    requires Solvent(s.ledger) && HonestQuotes(s) && IsOwnerStep(l) && IsEarly(l) && OwnerStep(s, l).Some?
    requires l.r in OwnerStep(s, l).value.owners
    ensures HonestPhase(OwnerStep(s, l).value.owners[l.r].phase)
  {
    if l.Quote? {
      assert HonestPhase(s.owners[l.r].phase);
    }
  }

  lemma LateHonest(s: State, l: Label)
    requires IsOwnerStep(l) && !IsEarly(l) && !l.Close? && OwnerStep(s, l).Some?
    ensures l.r in OwnerStep(s, l).value.owners && HonestPhase(OwnerStep(s, l).value.owners[l.r].phase)
  {
  }

  /** What was answered stays answered, and off the same execution, if any. */
  ghost predicate ReplyStays(s: State, s': State, r: Id) {
    r in s.hist.replies ==> SameAt(s'.hist.replies, s.hist.replies, r) && SameAt(s'.hist.ran, s.hist.ran, r)
  }

  ghost predicate RepliesStay(s: State, s': State) {
    forall r {:trigger ReplyStays(s, s', r)} :: ReplyStays(s, s', r)
  }

  lemma OwnerStepHonest(s: State, l: Label)
    requires Core(s) && SharedFate(s) && Solvent(s.ledger) && HonestQuotes(s)
    requires IsOwnerStep(l) && OwnerStep(s, l).Some?
    ensures HonestQuotes(OwnerStep(s, l).value) && RepliesStay(s, OwnerStep(s, l).value)
  {
    var s' := OwnerStep(s, l).value;
    OwnerStepTouches(s, l);
    OwnerStaysHonest(s, l);
    assert OwnerOk(s, l.r) && (l.r in s.hist.replies ==> ReplyOk(s, l.r));
    forall q | q in s'.owners ensures HonestPhase(s'.owners[q].phase) {
      assert q != l.r ==> SameAt(s'.owners, s.owners, q);
    }
    forall q | q in s'.hist.replies ensures Honest(s'.hist.replies[q].1) {
      assert q != l.r ==> SameAt(s'.hist.replies, s.hist.replies, q);
    }
    forall q ensures ReplyStays(s, s', q) {
      assert q != l.r ==> SameAt(s'.hist.replies, s.hist.replies, q) && SameAt(s'.hist.ran, s.hist.ran, q);
    }
  }

  /** Replies a restart adds are under identities of the new life, and quote nothing. */
  lemma BootDoneHonest(s: State)
    requires SharedFate(s) && HonestQuotes(s)
    ensures HonestQuotes(BootDoneStep(s)) && RepliesStay(s, BootDoneStep(s))
  {
    forall r | r in s.hist.replies ensures r !in LoadedReplies(ReloadedRecords(s.journal, s.now), s.hist, s.nextId) {
      assert ReplyOk(s, r);
    }
  }

  /** Quotes stay honest, and what was answered once stays answered. */
  lemma StepHonest(s: State, l: Label)
    requires Core(s) && SharedFate(s) && Solvent(s.ledger) && HonestQuotes(s) && Step(s, l).Some?
    ensures HonestQuotes(Step(s, l).value) && RepliesStay(s, Step(s, l).value)
  {
    if IsOwnerStep(l) {
      OwnerStepHonest(s, l);
    } else if l.BootDone? {
      BootDoneHonest(s);
    } else {
      RestHonest(s, l);
    }
  }

  lemma RestHonest(s: State, l: Label)
    requires HonestQuotes(s) && Step(s, l).Some? && !IsOwnerStep(l) && !l.BootDone?
    ensures HonestQuotes(Step(s, l).value) && RepliesStay(s, Step(s, l).value)
  {
    NothingFiled(s, l);
  }

  /** New owners have just claimed, and nothing is filed. */
  lemma NothingFiled(s: State, l: Label)
    requires Step(s, l).Some? && !IsOwnerStep(l) && !l.BootDone?
    ensures var s' := Step(s, l).value;
            && s'.hist.replies == s.hist.replies && s'.hist.ran == s.hist.ran
            && forall r :: r in s'.owners ==>
                 (r in s.owners && s'.owners[r] == s.owners[r]) || s'.owners[r].phase == Claimed
  {
  }

  lemma StepSolvent(s: State, l: Label)
    requires Core(s) && Solvent(s.ledger) && s.mode == Up && Step(s, l).Some?
    ensures Solvent(Step(s, l).value.ledger)
  {
    if l.Debit? {
      DebitRemoves(s.ledger, s.owners[l.r].peer, l.price);
    } else if l.Repay? {
      assert OwnerOk(s, l.r);
    } else if IsOwnerStep(l) {
      SameLedger(s, l);
    }
  }

  lemma SameLedger(s: State, l: Label)
    requires IsOwnerStep(l) && OwnerStep(s, l).Some? && !l.Debit? && !l.Repay?
    ensures OwnerStep(s, l).value.ledger == s.ledger
  {
  }

  // ---------------------------------------------------------------------------------------------
  // The composed system

  /** A payment made, or about to be made, answers a quote the server gave for this very key. */
  ghost predicate Justified(s: State, key: string, amount: int) {
    exists price, shortfall :: QuotedFor(s, key, price, shortfall) && 1 <= amount <= price
  }

  /** The handler finished exactly once for key, with this outcome. */
  ghost predicate OnlyRan(s: State, key: string, o: Outcome) {
    exists price :: RunsOf(s.hist.runs, key) == [(price, o)]
  }

  /** A claim on key was given up, with a refusal or a quote. */
  ghost predicate Released(s: State, key: string) {
    exists r :: r in s.hist.replies && s.hist.replies[r].0 == key && !s.hist.replies[r].1.Answered?
  }

  /**
   * o came off record r of key, which was answered if and only if the handler ran for it: then o is what that one
   * execution returned, and else it is three nils.
   */
  ghost predicate CameOff(s: State, key: string, r: Id, o: Outcome) {
    && r in s.hist.replies && s.hist.replies[r].0 == key
    && (s.hist.replies[r].1.Answered? <==> r in s.hist.ran)
    && if r in s.hist.ran then o == s.hist.ran[r] && OnlyRan(s, key, o) else o == NILS
  }

  ghost predicate Earned(s: State, key: string, o: Outcome) {
    exists r :: CameOff(s, key, r, o)
  }

  /** What the agent was told is earned. */
  ghost predicate ToldTrue(s: State, key: string, c: P.Client) {
    match c
    case Done(Relayed(Said(o))) => Earned(s, key, o)
    case _ => true
  }

  ghost predicate WorldInv(w: World, key: string) {
    && Core(w.server) && SharedFate(w.server) && Solvent(w.server.ledger) && HonestQuotes(w.server)
    && KeyOnce(w.server, key)
    && P.After(w.trace).Some? && ToldTrue(w.server, key, P.After(w.trace).value)
    && (P.After(w.trace).value.Settling? ==> Justified(w.server, key, P.After(w.trace).value.amount))
    && (forall a :: a in P.Payments(w.trace) ==> Justified(w.server, key, a))
  }

  lemma QuoteStays(s: State, s': State, key: string, amount: int)
    requires Justified(s, key, amount) && RepliesStay(s, s')
    ensures Justified(s', key, amount)
  {
    var price, shortfall :| QuotedFor(s, key, price, shortfall) && 1 <= amount <= price;
    var r :| r in s.hist.replies && s.hist.replies[r] == (key, Quoted(price, shortfall));
    assert ReplyStays(s, s', r);
    assert QuotedFor(s', key, price, shortfall);
  }

  /** A key that ran at all ran exactly once. */
  lemma RanIsOnly(s: State, key: string, o: Outcome)
    requires KeyOnce(s, key) && HasRun(s.hist, key, o)
    ensures OnlyRan(s, key, o)
  {
    var price :| (price, o) in RunsOf(s.hist.runs, key);
    assert RunsOf(s.hist.runs, key) == [(price, o)];
  }

  lemma StepRunsGrow(s: State, l: Label)
    requires Step(s, l).Some?
    ensures RunsGrow(s.hist, Step(s, l).value.hist)
  {
    if IsOwnerStep(l) {
      OwnerRunsGrow(s, l);
    }
  }

  lemma OnlyRanStays(s: State, l: Label, key: string, o: Outcome)
    requires Step(s, l).Some? && KeyOnce(Step(s, l).value, key) && OnlyRan(s, key, o)
    ensures OnlyRan(Step(s, l).value, key, o)
  {
    var price :| RunsOf(s.hist.runs, key) == [(price, o)];
    assert (price, o) in RunsOf(s.hist.runs, key);
    StepRunsGrow(s, l);
    RanIsOnly(Step(s, l).value, key, o);
  }

  lemma EarnedStays(s: State, l: Label, key: string, o: Outcome)
    requires Step(s, l).Some? && RepliesStay(s, Step(s, l).value) && KeyOnce(Step(s, l).value, key)
    requires Earned(s, key, o)
    ensures Earned(Step(s, l).value, key, o)
  {
    var r :| CameOff(s, key, r, o);
    assert ReplyStays(s, Step(s, l).value, r);
    if r in s.hist.ran {
      OnlyRanStays(s, l, key, o);
    }
    assert CameOff(Step(s, l).value, key, r, o);
  }

  /** What is told of a record of this life came off it. */
  lemma ToldCameOff(s: State, key: string, r: Id, o: Outcome)
    requires SharedFate(s) && KeyOnce(s, key)
    requires r in s.hist.replies && s.hist.replies[r].0 == key && o == Told(r, s.hist.replies[r].1)
    ensures CameOff(s, key, r, o)
  {
    assert ReplyOk(s, r);
    if s.hist.replies[r].1.Answered? {
      RanIsOnly(s, key, o);
    }
  }

  /** Whatever the server sends as a result came off a record of the key. */
  lemma SentIsEarned(s: State, key: string, o: Outcome)
    requires SharedFate(s) && KeyOnce(s, key) && Sent(s, key, P.Result(P.Said(o)))
    ensures Earned(s, key, o)
  {
    if OwnerSaid(s, key, o) {
      var r :| r in s.hist.replies && s.hist.replies[r] == (key, Answered(o));
      ToldCameOff(s, key, r, o);
    } else {
      var w :| w in s.hist.heard && s.hist.heard[w].0 in s.hist.replies
               && s.hist.replies[s.hist.heard[w].0].0 == key && s.hist.heard[w].1 == o;
      assert HeardOk(s, w);
      ToldCameOff(s, key, s.hist.heard[w].0, o);
    }
  }

  lemma ServerKeeps(s: State, l: Label, key: string)
    requires Core(s) && SharedFate(s) && Solvent(s.ledger) && HonestQuotes(s) && KeyOnce(s, key)
    requires Calm(s, l, key) && Step(s, l).Some?
    ensures var s' := Step(s, l).value;
            && Core(s') && SharedFate(s') && Solvent(s'.ledger) && HonestQuotes(s') && KeyOnce(s', key)
            && RepliesStay(s, s')
  {
    StepCore(s, l);
    StepShares(s, l);
    StepSolvent(s, l);
    StepHonest(s, l);
    StepOnce(s, l, key);
  }

  lemma ServerMoveKeeps(w: World, l: Label, key: string)
    requires WorldInv(w, key) && WorldStep(w, ServerMove(l), key).Some?
    ensures WorldInv(WorldStep(w, ServerMove(l), key).value, key)
  {
    var s, c := w.server, P.After(w.trace).value;
    ServerKeeps(s, l, key);
    forall a | Justified(s, key, a) ensures Justified(Step(s, l).value, key, a) {
      QuoteStays(s, Step(s, l).value, key, a);
    }
    if c.Done? && c.answer.Relayed? && c.answer.body.Said? {
      EarnedStays(s, l, key, c.answer.body.outcome);
    }
  }

  lemma ClientMoveKeeps(w: World, e: P.Event, key: string)
    requires WorldInv(w, key) && WorldStep(w, ClientMove(e), key).Some?
    ensures WorldInv(WorldStep(w, ClientMove(e), key).value, key)
  {
    var c := P.After(P.Then(w.trace, e)).value;
    if e.Replied? && c.Settling? {
      assert QuotedFor(w.server, key, e.reply.price, e.reply.shortfall);
      assert 1 <= c.amount <= e.reply.price;
    }
    if e.Replied? && e.reply.Result? && e.reply.body.Said? {
      SentIsEarned(w.server, key, e.reply.body.outcome);
    }
  }

  lemma {:induction false} WorldKeeps(w: World, ms: seq<Move>, key: string, end: World)
    requires WorldInv(w, key) && WorldRun(w, ms, key, end)
    ensures WorldInv(end, key)
    decreases |ms|
  {
    if ms != [] {
      match ms[0] {
        case ServerMove(l) => ServerMoveKeeps(w, l, key);
        case ClientMove(e) => ClientMoveKeeps(w, e, key);
      }
      WorldKeeps(WorldStep(w, ms[0], key).value, ms[1..], key, end);
    }
  }

  /** A server that is up, with good books and quotes, to which the key is new. */
  ghost predicate FreshCall(w: World, key: string) {
    && w.trace == P.Begin && w.server.mode == Up && KeyUnused(w.server, key)
    && Core(w.server) && SharedFate(w.server) && Solvent(w.server.ledger) && HonestQuotes(w.server)
  }

  lemma {:induction false} RunHonest(s: State, ls: seq<Label>, t: State)
    requires Inv(s) && SharedFate(s) && HonestQuotes(s) && Run(s, ls, t)
    ensures Inv(t) && SharedFate(t) && HonestQuotes(t)
    decreases |ls|
  {
    if ls != [] {
      StepKeeps(s, ls[0]);
      StepShares(s, ls[0]);
      StepHonest(s, ls[0]);
      RunHonest(Step(s, ls[0]).value, ls[1..], t);
    }
  }

  lemma InitialHonest(s: State)
    requires Initial(s)
    ensures Inv(s) && SharedFate(s) && HonestQuotes(s)
  {
    InitialInv(s);
  }

  /** Whatever has happened to a server since its first start, a call under a key it has not seen is fresh. */
  lemma UnseenKeyIsFresh(s: State, ls: seq<Label>, t: State, key: string)
    requires Initial(s) && Run(s, ls, t) && t.mode == Up && KeyUnused(t, key)
    ensures FreshCall(World(P.Begin, t), key)
  {
    InitialHonest(s);
    RunHonest(s, ls, t);
  }

  lemma FreshCallInv(w: World, key: string)
    requires FreshCall(w, key)
    ensures WorldInv(w, key)
  {
    UnusedKeyIsOnce(w.server, key);
  }

  /**
   * Over any network, one agent-visible call under a fresh key makes at most seven remote calls, hands the rail
   * at most one payment and then an amount between one atom and a price the server quoted for it, starts the
   * handler at most once, and costs the caller exactly the price of that execution if it succeeded and
   * nothing if it failed, provided reissues arrive before the outcome expires and the server stays up.
   */
  lemma OneCallOneExecutionOneCharge(w: World, ms: seq<Move>, key: string, end: World)
    requires FreshCall(w, key) && WorldRun(w, ms, key, end)
    ensures P.Calls(end.trace) <= 7
    ensures |P.Payments(end.trace)| <= 1
    ensures forall a :: a in P.Payments(end.trace) ==> Justified(end.server, key, a)
    ensures CountOf(end.server.hist.starts, key) <= 1
    ensures |RunsOf(end.server.hist.runs, key)| <= CountOf(end.server.hist.starts, key)
    ensures forall run :: run in RunsOf(end.server.hist.runs, key) ==>
              NetOf(end.server.hist.net, key) == if run.1.err.None? then run.0 else 0
    ensures RunsOf(end.server.hist.runs, key) == [] ==> NetOf(end.server.hist.net, key) == Held(end.server, key)
  {
    FreshCallInv(w, key);
    WorldKeeps(w, ms, key, end);
    P.AtMostSevenCallsOnePayment(end.trace);
  }

  /**
   * What the relay hands to the agent as an outcome came off a record of its key: it is what the one execution of the
   * key returned if and only if that record was answered, and three nils if and only if the claim was given up instead.
   * Where no claim on the key was given up, it is the execution's.
   */
  lemma TheAgentHearsTheExecution(w: World, ms: seq<Move>, key: string, end: World, o: Outcome) returns (r: Id)
    requires FreshCall(w, key) && WorldRun(w, ms, key, end)
    requires P.After(end.trace) == Some(P.Done(P.Relayed(P.Said(o))))
    ensures r in end.server.hist.replies && end.server.hist.replies[r].0 == key
    ensures end.server.hist.replies[r].1.Answered? <==> r in end.server.hist.ran
    ensures r in end.server.hist.ran ==> o == end.server.hist.ran[r] && OnlyRan(end.server, key, o)
    ensures r !in end.server.hist.ran ==> o == NILS && Released(end.server, key)
    ensures !Released(end.server, key) || o != NILS ==> OnlyRan(end.server, key, o)
  {
    FreshCallInv(w, key);
    WorldKeeps(w, ms, key, end);
    r :| CameOff(end.server, key, r, o);
  }
}
