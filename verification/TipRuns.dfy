/**
 * What runs of the tip payer guarantee: every terminal event has one destination, and matching is first come, first
 * served.
 */
module TipRuns {
  import opened Wrappers
  import opened Search
  import opened TipMatcher
  import opened Tips

  datatype Trace = Begin | Then(before: Trace, step: Step)

  ghost function End(t: Trace): Option<Payer> {
    match t
    case Begin => Some(Payer([], map[], 0, [], [], []))
    case Then(before, step) => if End(before).None? then None else Next(End(before).value, step)
  }

  lemma {:induction false} RunKeeps(t: Trace)
    requires End(t).Some?
    ensures Inv(End(t).value)
  {
    if t.Then? {
      RunKeeps(t.before);
      NextKeeps(End(t.before).value, t.step);
    }
  }

  // ------------------------------------------------------------ first come, first served

  /** Events of one payment key were given to payments in the order the payments began, each to another one. */
  ghost predicate InTurn(p: Payer, e: nat, f: nat) {
    e < f < |p.fates| && f < |p.events| ==>
      forall a, b :: GaveTo(p.fates[e], a) && GaveTo(p.fates[f], b) ==>
        a != b && (EventKey(p.events[e]) == EventKey(p.events[f]) ==> a < b)
  }

  /** Whoever still waits began after every payment of the same key that was given an event. */
  ghost predicate Ahead(p: Payer, e: nat, w: nat) {
    && e < |p.fates| && e < |p.events| && w in p.waiters && w in p.calls
    && EventKey(p.events[e]) == CallKey(p.calls[w])
    ==>
      forall a: nat :: GaveTo(p.fates[e], a) ==> a < w
  }

  ghost predicate Fair(p: Payer) {
    && (forall e, f {:trigger InTurn(p, e, f)} :: InTurn(p, e, f))
    && (forall e, w {:trigger Ahead(p, e, w)} :: Ahead(p, e, w))
  }

  /** Steps that feed nothing: fates only leave a waiter or stay with it, and no waiter joins except the newest. */
  ghost predicate Quiet(p: Payer, p': Payer) {
    && p'.events == p.events && |p'.fates| == |p.fates|
    && (forall e :: 0 <= e < |p.fates| ==> forall a :: GaveTo(p'.fates[e], a) ==> GaveTo(p.fates[e], a))
    && (forall w :: w in p'.waiters ==>
        w == p.next || (w in p.waiters && w in p.calls && w in p'.calls && CallKey(p'.calls[w]) == CallKey(p.calls[w])))
  }

  lemma QuietFair(p: Payer, p': Payer)
    requires Inv(p) && Fair(p) && Quiet(p, p')
    ensures Fair(p')
  {
    forall e, f ensures InTurn(p', e, f) {
      assert InTurn(p, e, f);
    }
    forall e, w ensures Ahead(p', e, w) {
      assert Ahead(p, e, w) && EventOk(p, e);
    }
  }

  lemma FedFair(p: Payer, e: Event)
    requires Inv(p) && Fair(p)
    ensures Fair(Fed(p, e))
  {
    var i := First(p.waiters, Awaiting(p.calls, EventKey(e)));
    if i < |p.waiters| {
      GivenFair(p, e, i);
    } else {
      var p' := Fed(p, e);
      forall k, f ensures InTurn(p', k, f) {
        assert InTurn(p, k, f);
      }
      forall k, w ensures Ahead(p', k, w) {
        assert Ahead(p, k, w);
      }
    }
  }

  lemma GivenInTurn(p: Payer, e: Event, i: nat, k: nat, f: nat)
    requires Inv(p) && Fair(p) && i < |p.waiters| && i == First(p.waiters, Awaiting(p.calls, EventKey(e)))
    ensures InTurn(Fed(p, e), k, f)
  {
    var id := p.waiters[i];
    assert Awaiting(p.calls, EventKey(e))(id) && WaiterOk(p, i);
    assert InTurn(p, k, f) && Ahead(p, k, id) && EventOk(p, k);
  }

  lemma GivenAhead(p: Payer, e: Event, i: nat, k: nat, w: nat)
    requires Inv(p) && Fair(p) && i < |p.waiters| && i == First(p.waiters, Awaiting(p.calls, EventKey(e)))
    ensures Ahead(Fed(p, e), k, w)
  {
    var p' := Fed(p, e);
    assert Awaiting(p.calls, EventKey(e))(p.waiters[i]) && WaiterOk(p, i) && Ahead(p, k, w);
    WithoutOrdered(p.waiters, i);
    if k == |p.events| && w in p'.waiters && w in p'.calls && EventKey(e) == CallKey(p'.calls[w]) {
      var j :| 0 <= j < |p.waiters| && p.waiters[j] == w;
      assert Awaiting(p.calls, EventKey(e))(p.waiters[j]);
      assert i < j;
    }
  }

  lemma GivenFair(p: Payer, e: Event, i: nat)
    requires Inv(p) && Fair(p) && i < |p.waiters| && i == First(p.waiters, Awaiting(p.calls, EventKey(e)))
    ensures Fair(Fed(p, e))
  {
    forall k, f ensures InTurn(Fed(p, e), k, f) {
      GivenInTurn(p, e, i, k, f);
    }
    forall k, w ensures Ahead(Fed(p, e), k, w) {
      GivenAhead(p, e, i, k, w);
    }
  }

  /** The dispatch of a payment errs, before its tip left or past the deadline. */
  predicate EndsDispatch(s: Step) {
    s.DispatchFails? || s.DispatchExpires?
  }

  lemma WaitersAreCalls(p: Payer)
    requires Inv(p)
    ensures forall w :: w in p.waiters ==> w in p.calls
  {
    forall w | w in p.waiters ensures w in p.calls {
      var i :| 0 <= i < |p.waiters| && p.waiters[i] == w;
      assert WaiterOk(p, i);
    }
  }

  lemma BoxFate(p: Payer, id: nat)
    requires Inv(p) && id in p.calls
    ensures p.calls[id].box.Some? ==>
              p.calls[id].box.value.event < |p.fates| && p.fates[p.calls[id].box.value.event] == InBox(id)
  {
    assert CallOk(p, id);
  }

  /** The event that leaves the box was given to nobody else. */
  lemma EmptiedQuiet(p: Payer, p': Payer, id: nat, phase: Phase, fate: Fate)
    requires Inv(p) && id in p.calls && (forall a :: GaveTo(fate, a) ==> a == id)
    requires p'.fates == Emptied(p, id, phase, fate).fates && p'.calls == Emptied(p, id, phase, fate).calls
    requires p'.events == p.events && forall w :: w in p'.waiters ==> w in p.waiters
    ensures Quiet(p, p')
  {
    WaitersAreCalls(p);
    BoxFate(p, id);
  }

  lemma DispatchQuiet(p: Payer, s: Step)
    requires Inv(p) && EndsDispatch(s) && Next(p, s).Some?
    ensures Quiet(p, Next(p, s).value)
  {
    LeftSpec(p.waiters, s.id);
    EmptiedQuiet(p, Next(p, s).value, s.id, Returned(if s.DispatchFails? then Refused(s.err) else TimedOut), Lost);
  }

  lemma TakeQuiet(p: Payer, id: nat)
    requires Inv(p) && Next(p, Take(id)).Some?
    ensures Quiet(p, Next(p, Take(id)).value)
  {
    var ret := RetOf(p.calls[id].box.value.verdict);
    EmptiedQuiet(p, Next(p, Take(id)).value, id, Returned(ret), Taken(id));
  }

  lemma DrainQuiet(p: Payer, id: nat)
    requires Inv(p) && In(p, id, Draining)
    ensures Quiet(p, Drained(p, id))
  {
    EmptiedQuiet(p, Drained(p, id), id, Returned(TimedOut), Queued);
  }

  lemma FinishQuiet(p: Payer, id: nat)
    requires Inv(p) && id in p.calls && p.calls[id].phase.Returned?
    ensures Quiet(p, p.(calls := p.calls - {id}))
  {
    WaitersAreCalls(p);
    NotWaiting(p, id);
  }

  lemma RestQuiet(p: Payer, s: Step)
    requires Inv(p) && Next(p, s).Some?
    requires s.Expect? || s.Leave? || s.Dispatched? || s.Expire? || s.Handle? || s.Crash?
    ensures Quiet(p, Next(p, s).value)
  {
    WaitersAreCalls(p);
    if s.Expire? {
      LeftSpec(p.waiters, s.id);
    }
  }

  lemma NextQuiet(p: Payer, s: Step)
    requires Inv(p) && Next(p, s).Some? && !s.Progress?
    ensures Quiet(p, Next(p, s).value)
  {
    match s {
      case DispatchFails(_, _) => DispatchQuiet(p, s);
      case DispatchExpires(_) => DispatchQuiet(p, s);
      case Take(id) => TakeQuiet(p, id);
      case Drain(id) => DrainQuiet(p, id);
      case Finish(id) => FinishQuiet(p, id);
      case _ => RestQuiet(p, s);
    }
  }

  lemma NextFair(p: Payer, s: Step)
    requires Inv(p) && Fair(p) && Next(p, s).Some?
    ensures Fair(Next(p, s).value)
  {
    if s.Progress? {
      var v := VerdictOf(s.completed, s.attemptErr, s.willRetry);
      if v.Some? {
        FedFair(p, Event(s.uid, s.matoms, s.completed, v.value));
      }
    } else {
      NextQuiet(p, s);
      QuietFair(p, Next(p, s).value);
    }
  }

  lemma {:induction false} RunFair(t: Trace)
    requires End(t).Some?
    ensures Fair(End(t).value)
  {
    if t.Then? {
      RunFair(t.before);
      RunKeeps(t.before);
      NextFair(End(t.before).value, t.step);
    }
  }

  /**
   * In every run, two events are never given to one payment, and of two events for the same payee and amount
   * the earlier one went to the payment that began earlier.
   */
  lemma FirstComeFirstServed(t: Trace, p: Payer, e: nat, f: nat, a: nat, b: nat)
    requires End(t) == Some(p) && e < f < |p.events| == |p.fates|
    requires GaveTo(p.fates[e], a) && GaveTo(p.fates[f], b)
    ensures a != b
    ensures EventKey(p.events[e]) == EventKey(p.events[f]) ==> a < b
  {
    RunFair(t);
    assert InTurn(p, e, f);
  }

  // ------------------------------------------------------------ nothing vanishes

  lemma HolderIsOpen(p: Payer, e: nat)
    requires Inv(p) && e < |p.events|
    ensures p.fates[e].InBox? ==> p.fates[e].id in p.calls && !p.calls[p.fates[e].id].phase.Returned?
  {
    if p.fates[e].InBox? {
      assert EventOk(p, e) && CallOk(p, p.fates[e].id);
    }
  }

  /**
   * When no payment is still open and nothing is on its way to the late handler, every terminal event of whole atoms
   * was returned by a payment, handed to the late handler, or lost; and only those of other amounts were ignored.
   */
  lemma EveryEventArrives(t: Trace, p: Payer, e: nat)
    requires End(t) == Some(p) && e < |p.events|
    requires p.queue == [] && forall id :: id in p.calls ==> p.calls[id].phase.Returned?
    ensures |p.fates| == |p.events|
    ensures if WholeAtoms(p.events[e].matoms) then p.fates[e].Taken? || p.fates[e] == Handled || p.fates[e] == Lost
            else p.fates[e] == Ignored
  {
    RunKeeps(t);
    assert EventOk(p, e) && QueuedOk(p, e);
    HolderIsOpen(p, e);
  }

  lemma HolderBox(p: Payer, e: nat)
    requires Inv(p) && e < |p.fates| && p.fates[e].InBox?
    ensures p.fates[e].id in p.calls && p.calls[p.fates[e].id].box.Some? && p.calls[p.fates[e].id].box.value.event == e
  {
    assert EventOk(p, e);
  }

  predicate Loses(p: Payer, s: Step, e: nat)
    requires e < |p.fates|
  {
    || (p.fates[e].InBox? && (s.Crash? || (EndsDispatch(s) && s.id == p.fates[e].id)))
    || (p.fates[e].Queued? && s.Crash?)
  }

  /**
   * A step loses an event exactly when it crashes while a payment holds the event or the event is on its way to the
   * late handler, or errs in the dispatch of the payment that was already given the event.
   */
  lemma LossIsExact(p: Payer, s: Step, e: nat)
    requires Inv(p) && Next(p, s).Some? && e < |p.fates| && p.fates[e] != Lost
    ensures e < |Next(p, s).value.fates|
    ensures Next(p, s).value.fates[e] == Lost <==> Loses(p, s, e)
  {
    if EndsDispatch(s) || s.Take? || s.Drain? {
      BoxLoss(p, s, e);
    }
  }

  lemma BoxLoss(p: Payer, s: Step, e: nat)
    requires Inv(p) && Next(p, s).Some? && e < |p.fates| && p.fates[e] != Lost
    requires EndsDispatch(s) || s.Take? || s.Drain?
    ensures e < |Next(p, s).value.fates|
    ensures Next(p, s).value.fates[e] == Lost <==> Loses(p, s, e)
  {
    BoxFate(p, s.id);
    if p.fates[e].InBox? {
      HolderBox(p, e);
    }
  }

  /** Events are lost only by a crash or a failed dispatch. */
  ghost predicate Smooth(t: Trace) {
    t.Then? ==> Smooth(t.before) && !t.step.Crash? && !EndsDispatch(t.step)
  }

  lemma {:induction false} NothingLost(t: Trace, e: nat)
    requires End(t).Some? && Smooth(t) && e < |End(t).value.fates|
    ensures End(t).value.fates[e] != Lost
  {
    if t.Then? {
      var p := End(t.before).value;
      if e < |p.fates| {
        NothingLost(t.before, e);
      }
    }
  }

  // ------------------------------------------------------------ nothing arrives twice

  /** The step calls the late handler with the outcome of event e. */
  predicate Hands(p: Payer, s: Step, e: nat) {
    s.Handle? && s.index < |p.queue| && p.queue[s.index].event == e
  }

  /** The step lets a payment return with event e. */
  predicate Yields(p: Payer, s: Step, e: nat) {
    s.Take? && s.id in p.calls && p.calls[s.id].box.Some? && p.calls[s.id].box.value.event == e
  }

  /** How often the run called the late handler with the outcome of e. */
  ghost function Handlings(t: Trace, e: nat): nat {
    match t
    case Begin => 0
    case Then(before, s) =>
      Handlings(before, e) + (if End(before).Some? && Hands(End(before).value, s, e) then 1 else 0)
  }

  /** How often a payment returned with e. */
  ghost function Takings(t: Trace, e: nat): nat {
    match t
    case Begin => 0
    case Then(before, s) =>
      Takings(before, e) + (if End(before).Some? && Yields(End(before).value, s, e) then 1 else 0)
  }

  predicate IsHandled(p: Payer, e: nat) {
    e < |p.fates| && p.fates[e] == Handled
  }

  predicate IsTaken(p: Payer, e: nat) {
    e < |p.fates| && p.fates[e].Taken?
  }

  lemma HandledByHandling(p: Payer, s: Step, e: nat)
    requires Inv(p) && Next(p, s).Some?
    ensures IsHandled(Next(p, s).value, e) <==> IsHandled(p, e) || Hands(p, s, e)
    ensures !(IsHandled(p, e) && Hands(p, s, e))
  {
    match s {
      case DispatchFails(id, _) => BoxFate(p, id);
      case DispatchExpires(id) => BoxFate(p, id);
      case Take(id) => BoxFate(p, id);
      case Drain(id) => BoxFate(p, id);
      case Handle(index) => assert ForwardOk(p, index);
      case _ =>
    }
  }

  lemma TakenByTaking(p: Payer, s: Step, e: nat)
    requires Inv(p) && Next(p, s).Some?
    ensures IsTaken(Next(p, s).value, e) <==> IsTaken(p, e) || Yields(p, s, e)
    ensures !(IsTaken(p, e) && Yields(p, s, e))
  {
    match s {
      case DispatchFails(id, _) => BoxFate(p, id);
      case DispatchExpires(id) => BoxFate(p, id);
      case Take(id) => BoxFate(p, id);
      case Drain(id) => BoxFate(p, id);
      case Handle(index) => assert ForwardOk(p, index);
      case _ =>
    }
  }

  /**
   * In every run an event is handed over at most once, by a payment that returns with it or by a call of the late
   * handler, and exactly when its fate says so.
   */
  lemma {:induction false} HandedOverOnce(t: Trace, p: Payer, e: nat)
    requires End(t) == Some(p)
    ensures Handlings(t, e) == if IsHandled(p, e) then 1 else 0
    ensures Takings(t, e) == if IsTaken(p, e) then 1 else 0
    ensures Handlings(t, e) + Takings(t, e) <= 1
  {
    if t.Then? {
      var before := End(t.before).value;
      HandedOverOnce(t.before, before, e);
      RunKeeps(t.before);
      HandledByHandling(before, t.step, e);
      TakenByTaking(before, t.step, e);
    }
  }

  /** An event is recorded as settled exactly when the rail said that the tip completed. */
  ghost predicate VerdictsTrue(p: Payer) {
    forall e :: 0 <= e < |p.events| ==>
      (p.events[e].completed <==> p.events[e].verdict.Settled?)
  }

  lemma NextVerdicts(p: Payer, s: Step)
    requires VerdictsTrue(p) && Next(p, s).Some?
    ensures VerdictsTrue(Next(p, s).value)
  {
    if s.Progress? {
      VerdictIs(s.completed, s.attemptErr, s.willRetry);
    }
  }

  lemma {:induction false} RunVerdicts(t: Trace)
    requires End(t).Some?
    ensures VerdictsTrue(End(t).value)
  {
    if t.Then? {
      RunVerdicts(t.before);
      NextVerdicts(End(t.before).value, t.step);
    }
  }

  ghost predicate TookEvent(p: Payer, id: nat) {
    exists e: nat :: e < |p.fates| && p.fates[e] == Taken(id)
  }

  lemma TakenStays(p: Payer, s: Step, e: nat)
    requires Inv(p) && Next(p, s).Some? && e < |p.fates| && p.fates[e].Taken?
    ensures e < |Next(p, s).value.fates| && Next(p, s).value.fates[e] == p.fates[e]
  {
    match s {
      case DispatchFails(id, _) => BoxFate(p, id);
      case DispatchExpires(id) => BoxFate(p, id);
      case Take(id) => BoxFate(p, id);
      case Drain(id) => BoxFate(p, id);
      case Handle(index) => assert ForwardOk(p, index);
      case _ =>
    }
  }

  lemma TookStays(p: Payer, s: Step, id: nat)
    requires Inv(p) && Next(p, s).Some? && TookEvent(p, id)
    ensures TookEvent(Next(p, s).value, id)
  {
    var e: nat :| e < |p.fates| && p.fates[e] == Taken(id);
    TakenStays(p, s, e);
  }

  /** Only taking an event makes a payment return success. */
  lemma PaidByTaking(p: Payer, s: Step, id: nat)
    requires Inv(p) && Next(p, s).Some? && In(Next(p, s).value, id, Returned(Paid)) && !In(p, id, Returned(Paid))
    ensures TookEvent(Next(p, s).value, id)
  {
    assert CallOk(p, id);
    if s.Take? {
      assert Next(p, s).value.fates[p.calls[id].box.value.event] == Taken(id);
    }
  }

  lemma {:induction false} PaidTook(t: Trace, id: nat)
    requires End(t).Some? && In(End(t).value, id, Returned(Paid))
    ensures TookEvent(End(t).value, id)
  {
    if t.Then? {
      RunKeeps(t.before);
      if In(End(t.before).value, id, Returned(Paid)) {
        PaidTook(t.before, id);
        TookStays(End(t.before).value, t.step, id);
      } else {
        PaidByTaking(End(t.before).value, t.step, id);
      }
    }
  }

  /**
   * A payment returns success only after an event that a tip of its payee and amount completed, which was given to it
   * and to nobody else.
   */
  lemma {:induction false} SuccessIsSettled(t: Trace, p: Payer, id: nat) returns (e: nat)
    requires End(t) == Some(p) && In(p, id, Returned(Paid))
    ensures e < |p.events| && |p.events| == |p.fates|
    ensures p.fates[e] == Taken(id) && EventKey(p.events[e]) == CallKey(p.calls[id])
    ensures p.events[e].completed && p.events[e].verdict == Settled
  {
    RunKeeps(t);
    RunVerdicts(t);
    PaidTook(t, id);
    e :| e < |p.fates| && p.fates[e] == Taken(id);
    assert EventOk(p, e);
  }
}
