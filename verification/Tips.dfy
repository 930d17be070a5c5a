/**
 * Every interleaving of the tip payer (bridge/tippayer.go): payments that start waiting, tips that leave,
 * terminal events, deadlines and crashes. Events of any flow may arrive, in any order.
 */
module Tips {
  import opened Wrappers
  import opened Search
  import opened Uids
  import opened TipMatcher

  datatype Event = Event(uid: string, matoms: int, completed: bool, verdict: Verdict)

  /** What Pay returns; TimedOut covers the deadline and the cancelled call. */
  datatype Ret = Paid | Refused(err: string) | TimedOut

  /**
   * Dialing: waiting, the tip not started; Away: the tip is on the rail; Sent: dispatch returned; Draining: past the
   * deadline.
   */
  datatype Phase = Dialing | Away | Sent | Draining | Returned(ret: Ret)

  /** The result delivered to a waiter: which event, and its verdict. */
  datatype Given = Given(event: nat, verdict: Verdict)

  /** One run of Pay. tag is the caller's name for it. */
  datatype Call = Call(uid: string, atoms: int, tag: nat, phase: Phase, box: Option<Given>)

  /**
   * Where a terminal event is: with a waiter, returned by its Pay, on its way to the late handler, handed to the late
   * handler, nobody's, or lost.
   */
  datatype Fate = InBox(id: nat) | Taken(id: nat) | Queued | Handled | Ignored | Lost

  /** An outcome on its way to the late handler, and the event it is of. */
  datatype Forward = Forward(event: nat, outcome: Outcome)

  /** waiters are call ids, oldest first; queue is what the late handler is about to be called with. */
  datatype Payer = Payer(waiters: seq<nat>, calls: map<nat, Call>, next: nat, queue: seq<Forward>, events: seq<Event>,
                         fates: seq<Fate>)

  datatype Step =
    | Expect(uid: string, atoms: int, tag: nat)
    | Leave(id: nat)
    | Dispatched(id: nat)
    | DispatchFails(id: nat, err: string)
    | DispatchExpires(id: nat)
    | Take(id: nat)
    | Expire(id: nat)
    | Drain(id: nat)
    | Progress(uid: string, matoms: int, completed: bool, attemptErr: Option<string>, willRetry: bool)
    | Handle(index: nat)
    | Finish(id: nat)
    | Crash

  /** What payments and events are matched by. */
  datatype Key = Key(uid: string, matoms: int)

  function KeyOf(uid: string, matoms: int): Key {
    Key(Lower(uid), matoms)
  }

  function CallKey(c: Call): Key {
    KeyOf(c.uid, c.atoms * 1000)
  }

  function EventKey(e: Event): Key {
    KeyOf(e.uid, e.matoms)
  }

  // ------------------------------------------------------------ counting events

  function OfKey(k: Key): Key -> bool {
    (j: Key) => j == k
  }

  function EventFor(k: Key): Event -> bool {
    (e: Event) => EventKey(e) == k
  }

  function FailureFor(k: Key): Event -> bool {
    (e: Event) => EventKey(e) == k && e.verdict.Failed?
  }

  function SettlementFor(k: Key): Event -> bool {
    (e: Event) => EventKey(e) == k && e.verdict.Settled?
  }

  lemma {:induction false} VerdictsSplit(events: seq<Event>, k: Key)
    ensures Count(events, EventFor(k)) == Count(events, SettlementFor(k)) + Count(events, FailureFor(k))
  {
    if events != [] {
      VerdictsSplit(events[..|events| - 1], k);
    }
  }

  // ------------------------------------------------------------ the steps

  function Awaiting(calls: map<nat, Call>, key: Key): nat -> bool {
    (id: nat) => id in calls && CallKey(calls[id]) == key
  }

  function Exactly(id: nat): nat -> bool {
    (w: nat) => w == id
  }

  /** Cancel. */
  function Left(waiters: seq<nat>, id: nat): seq<nat> {
    var i := First(waiters, Exactly(id));
    if i < |waiters| then Without(waiters, i) else waiters
  }

  predicate In(p: Payer, id: nat, phase: Phase) {
    id in p.calls && p.calls[id].phase == phase
  }

  function WithPhase(p: Payer, id: nat, phase: Phase): Payer
    requires id in p.calls
  {
    p.(calls := p.calls[id := p.calls[id].(phase := phase)])
  }

  /** The call ends or drains with its box emptied; the event in it, if any, meets the fate. */
  function Emptied(p: Payer, id: nat, phase: Phase, fate: Fate): Payer
    requires id in p.calls
  {
    var c := p.calls[id];
    p.(calls := p.calls[id := c.(phase := phase, box := None)],
       fates := if c.box.Some? && c.box.value.event < |p.fates| then p.fates[c.box.value.event := fate] else p.fates)
  }

  function RetOf(v: Verdict): Ret {
    match v case Settled => Paid case Failed(err) => Refused(err)
  }

  function Fed(p: Payer, e: Event): Payer {
    var i := First(p.waiters, Awaiting(p.calls, EventKey(e)));
    var n := |p.events|;
    if i < |p.waiters| then
      var id := p.waiters[i];
      p.(waiters := Without(p.waiters, i),
         calls := p.calls[id := p.calls[id].(box := Some(Given(n, e.verdict)))],
         events := p.events + [e],
         fates := p.fates + [InBox(id)])
    else if WholeAtoms(e.matoms) then
      p.(queue := p.queue + [Forward(n, Outcome(e.uid, e.matoms / 1000, e.verdict))], events := p.events + [e],
         fates := p.fates + [Queued])
    else
      p.(events := p.events + [e], fates := p.fates + [Ignored])
  }

  /** What becomes of an event in a crash: what a call held, or the handler had not got yet, is lost. */
  function FateInCrash(f: Fate): Fate {
    if f.InBox? || f.Queued? then Lost else f
  }

  /** A crash forgets the calls, and what was on its way to the handler. */
  function Crashed(p: Payer): Payer {
    p.(waiters := [], calls := map[], queue := [],
       fates := seq(|p.fates|, i requires 0 <= i < |p.fates| => FateInCrash(p.fates[i])))
  }

  /** The late handler is called with an outcome. */
  function HandledAt(p: Payer, index: nat): Payer
    requires index < |p.queue|
  {
    var e := p.queue[index].event;
    p.(queue := Without(p.queue, index), fates := if e < |p.fates| then p.fates[e := Handled] else p.fates)
  }

  /** An outcome found in the box past the deadline goes to the late handler. */
  function Drained(p: Payer, id: nat): Payer
    requires id in p.calls
  {
    var c := p.calls[id];
    var more := if c.box.Some? then [Forward(c.box.value.event, Outcome(c.uid, c.atoms, c.box.value.verdict))] else [];
    Emptied(p, id, Returned(TimedOut), Queued).(queue := p.queue + more)
  }

  function Next(p: Payer, s: Step): Option<Payer> {
    match s
    case Expect(uid, atoms, tag) =>
      Some(p.(waiters := p.waiters + [p.next],
              calls := p.calls[p.next := Call(uid, atoms, tag, Dialing, None)],
              next := p.next + 1))
    case Leave(id) => if In(p, id, Dialing) then Some(WithPhase(p, id, Away)) else None
    case Dispatched(id) => if In(p, id, Away) then Some(WithPhase(p, id, Sent)) else None
    case DispatchFails(id, err) =>
      if In(p, id, Dialing) then Some(Emptied(p, id, Returned(Refused(err)), Lost).(waiters := Left(p.waiters, id)))
      else None
    case DispatchExpires(id) =>
      if In(p, id, Away) then Some(Emptied(p, id, Returned(TimedOut), Lost).(waiters := Left(p.waiters, id))) else None
    case Take(id) =>
      if In(p, id, Sent) && p.calls[id].box.Some?
      then Some(Emptied(p, id, Returned(RetOf(p.calls[id].box.value.verdict)), Taken(id)))
      else None
    case Expire(id) =>
      if In(p, id, Sent) then Some(WithPhase(p, id, Draining).(waiters := Left(p.waiters, id))) else None
    case Drain(id) => if In(p, id, Draining) then Some(Drained(p, id)) else None
    case Progress(uid, matoms, completed, attemptErr, willRetry) =>
      var v := VerdictOf(completed, attemptErr, willRetry);
      Some(if v.None? then p else Fed(p, Event(uid, matoms, completed, v.value)))
    case Handle(index) => if index < |p.queue| then Some(HandledAt(p, index)) else None
    case Finish(id) => if id in p.calls && p.calls[id].phase.Returned? then Some(p.(calls := p.calls - {id})) else None
    case Crash => Some(Crashed(p))
  }

  // ------------------------------------------------------------ the invariant

  predicate Listening(phase: Phase) {
    phase == Dialing || phase == Away || phase == Sent
  }

  ghost predicate WaiterOk(p: Payer, i: nat) {
    i < |p.waiters| ==>
      && p.waiters[i] in p.calls
      && Listening(p.calls[p.waiters[i]].phase)
      && p.calls[p.waiters[i]].box == None
  }

  ghost predicate Ordered(waiters: seq<nat>) {
    forall i, j :: 0 <= i < j < |waiters| ==> waiters[i] < waiters[j]
  }

  ghost predicate CallOk(p: Payer, id: nat) {
    id in p.calls ==>
      var c := p.calls[id];
      && id < p.next
      && (Listening(c.phase) && c.box == None ==> id in p.waiters)
      && (c.phase.Returned? ==> c.box == None)
      && (c.box.Some? ==>
            && c.box.value.event < |p.events| && c.box.value.event < |p.fates|
            && p.fates[c.box.value.event] == InBox(id)
            && p.events[c.box.value.event].verdict == c.box.value.verdict)
  }

  /** Whom an event was given to. */
  predicate GaveTo(f: Fate, id: nat) {
    f == InBox(id) || f == Taken(id)
  }

  ghost predicate EventOk(p: Payer, e: nat) {
    e < |p.events| && e < |p.fates| ==>
      var f := p.fates[e];
      && (f.InBox? ==> f.id in p.calls && p.calls[f.id].box.Some? && p.calls[f.id].box.value.event == e)
      && (f.InBox? || f.Taken? ==>
            && f.id < p.next
            && (f.id in p.calls ==> CallKey(p.calls[f.id]) == EventKey(p.events[e])))
      && (f.Taken? && f.id in p.calls ==> p.calls[f.id].phase == Returned(RetOf(p.events[e].verdict)))
      && (f == Ignored <==> !WholeAtoms(p.events[e].matoms))
  }

  /** Waiters are calls that listen and hold nothing, oldest first; boxes and fates agree. */
  ghost predicate Boxed(p: Payer) {
    && |p.fates| == |p.events|
    && Ordered(p.waiters)
    && (forall i {:trigger WaiterOk(p, i)} :: WaiterOk(p, i))
    && (forall id {:trigger CallOk(p, id)} :: CallOk(p, id))
    && (forall e {:trigger EventOk(p, e)} :: EventOk(p, e))
  }

  ghost predicate InQueue(queue: seq<Forward>, e: nat) {
    exists i :: 0 <= i < |queue| && queue[i].event == e
  }

  /** What is on its way to the handler is an event's outcome. */
  ghost predicate ForwardOk(p: Payer, i: nat) {
    i < |p.queue| ==>
      var f := p.queue[i];
      && f.event < |p.fates| && f.event < |p.events| && p.fates[f.event] == Queued
      && f.outcome.verdict == p.events[f.event].verdict
      && KeyOf(f.outcome.uid, f.outcome.atoms * 1000) == EventKey(p.events[f.event])
  }

  /** No event is on its way twice. */
  ghost predicate Apart(queue: seq<Forward>) {
    forall i, j :: 0 <= i < j < |queue| ==> queue[i].event != queue[j].event
  }

  /** An event is on its way exactly when it says so. */
  ghost predicate QueuedOk(p: Payer, e: nat) {
    e < |p.fates| && p.fates[e] == Queued ==> InQueue(p.queue, e)
  }

  ghost predicate Tied(p: Payer) {
    && |p.fates| == |p.events|
    && Apart(p.queue)
    && (forall i {:trigger ForwardOk(p, i)} :: ForwardOk(p, i))
    && (forall e {:trigger QueuedOk(p, e)} :: QueuedOk(p, e))
  }

  ghost predicate Inv(p: Payer) {
    Boxed(p) && Tied(p)
  }

  lemma LeftSpec(waiters: seq<nat>, id: nat)
    requires Ordered(waiters)
    ensures Ordered(Left(waiters, id)) && id !in Left(waiters, id)
    ensures forall w :: w in Left(waiters, id) ==> w in waiters
    ensures forall w :: w in waiters && w != id ==> w in Left(waiters, id)
  {
    var i := First(waiters, Exactly(id));
    var left := Left(waiters, id);
    if i < |waiters| {
      assert Exactly(id)(waiters[i]);
      forall w | w in waiters && w != id ensures w in left {
        var j :| 0 <= j < |waiters| && waiters[j] == w;
        assert w == if j < i then left[j] else left[j - 1];
      }
    } else {
      forall j | 0 <= j < |waiters| ensures waiters[j] != id {
        assert !Exactly(id)(waiters[j]);
      }
    }
  }

  /** Only the call id, the fate of its event, and the waiters of that id change. */
  ghost predicate Local(p: Payer, p': Payer, id: nat) {
    && id in p.calls && p'.next == p.next && p'.events == p.events && |p'.fates| == |p.fates|
    && (p'.waiters == p.waiters || p'.waiters == Left(p.waiters, id))
    && (forall w :: w != id ==> (w in p.calls <==> w in p'.calls) && (w in p.calls ==> p.calls[w] == p'.calls[w]))
    && (forall e :: 0 <= e < |p.fates| && !(p.calls[id].box.Some? && p.calls[id].box.value.event == e) ==>
        p'.fates[e] == p.fates[e])
  }

  /** It is enough to look at what changed. */
  lemma LocalKeeps(p: Payer, p': Payer, id: nat)
    requires Boxed(p) && Local(p, p', id) && CallOk(p', id)
    requires id in p'.waiters ==> id in p'.calls && Listening(p'.calls[id].phase) && p'.calls[id].box == None
    requires p.calls[id].box.Some? ==> EventOk(p', p.calls[id].box.value.event)
    requires id in p'.calls ==> CallKey(p'.calls[id]) == CallKey(p.calls[id])
    requires id in p'.calls && p.calls[id].phase.Returned? ==> p'.calls[id].phase == p.calls[id].phase
    requires p.calls[id].box == None ==> id !in p'.calls || p'.calls[id].box == None
    ensures Boxed(p')
  {
    assert CallOk(p, id);
    LeftSpec(p.waiters, id);
    forall i | 0 <= i < |p'.waiters| ensures WaiterOk(p', i) {
      var w := p'.waiters[i];
      var j :| 0 <= j < |p.waiters| && p.waiters[j] == w;
      assert WaiterOk(p, j);
    }
    forall w | w in p'.calls ensures CallOk(p', w) {
      if w != id {
        assert CallOk(p, w);
      }
    }
    forall e | 0 <= e < |p'.events| ensures EventOk(p', e) {
      assert EventOk(p, e);
    }
  }

  lemma PhaseKeeps(p: Payer, id: nat, phase: Phase)
    requires Boxed(p) && id in p.calls && Listening(p.calls[id].phase) && Listening(phase)
    ensures Boxed(WithPhase(p, id, phase))
  {
    assert CallOk(p, id);
    if p.calls[id].box.Some? {
      assert EventOk(p, p.calls[id].box.value.event);
    }
    forall i | 0 <= i < |p.waiters| && p.waiters[i] == id ensures p.calls[id].box == None {
      assert WaiterOk(p, i);
    }
    LocalKeeps(p, WithPhase(p, id, phase), id);
  }

  lemma ExpireKeeps(p: Payer, id: nat)
    requires Boxed(p) && In(p, id, Sent)
    ensures Boxed(Next(p, Expire(id)).value)
  {
    assert CallOk(p, id);
    if p.calls[id].box.Some? {
      assert EventOk(p, p.calls[id].box.value.event);
    }
    LeftSpec(p.waiters, id);
    LocalKeeps(p, Next(p, Expire(id)).value, id);
  }

  /** Ending a call, with its event taken, late or lost. */
  lemma EmptiedKeeps(p: Payer, id: nat, ret: Ret, fate: Fate, waiters: seq<nat>)
    requires Boxed(p) && id in p.calls && !p.calls[id].phase.Returned?
    requires fate == Queued || fate == Lost
         || (fate == Taken(id) && p.calls[id].box.Some? && ret == RetOf(p.calls[id].box.value.verdict))
    requires waiters == p.waiters || waiters == Left(p.waiters, id)
    requires id !in waiters
    ensures Boxed(Emptied(p, id, Returned(ret), fate).(waiters := waiters))
  {
    var p' := Emptied(p, id, Returned(ret), fate).(waiters := waiters);
    assert CallOk(p, id);
    if p.calls[id].box.Some? {
      assert EventOk(p, p.calls[id].box.value.event);
      assert EventOk(p', p.calls[id].box.value.event);
    }
    LocalKeeps(p, p', id);
  }

  /** A call that holds something, or is past its deadline, does not wait. */
  lemma NotWaiting(p: Payer, id: nat)
    requires Boxed(p) && id in p.calls && (p.calls[id].box.Some? || !Listening(p.calls[id].phase))
    ensures id !in p.waiters
  {
    forall i | 0 <= i < |p.waiters| ensures p.waiters[i] != id {
      assert WaiterOk(p, i);
    }
  }

  lemma FinishKeeps(p: Payer, id: nat)
    requires Boxed(p) && id in p.calls && p.calls[id].phase.Returned?
    ensures Boxed(p.(calls := p.calls - {id}))
  {
    NotWaiting(p, id);
    assert CallOk(p, id);
    LocalKeeps(p, p.(calls := p.calls - {id}), id);
  }

  lemma ExpectKeeps(p: Payer, s: Step)
    requires Boxed(p) && s.Expect?
    ensures Boxed(Next(p, s).value)
  {
    var p' := Next(p, s).value;
    assert CallOk(p, p.next);
    forall i | 0 <= i < |p'.waiters| ensures WaiterOk(p', i) && p'.waiters[i] <= p.next {
      assert WaiterOk(p, i);
      assert i < |p.waiters| ==> CallOk(p, p.waiters[i]);
    }
    forall i, j | 0 <= i < j < |p'.waiters| ensures p'.waiters[i] < p'.waiters[j] {
      assert WaiterOk(p, i) && CallOk(p, p.waiters[i]);
    }
    forall id | id in p'.calls ensures CallOk(p', id) {
      assert CallOk(p, id);
      assert p'.waiters[|p.waiters|] == p.next;
    }
    forall e | 0 <= e < |p.events| ensures EventOk(p', e) {
      assert EventOk(p, e);
    }
  }

  /** A new event that no waiter matches changes no call. */
  lemma UnmatchedKeeps(p: Payer, e: Event, fate: Fate, queue: seq<Forward>)
    requires Boxed(p) && (fate == if WholeAtoms(e.matoms) then Queued else Ignored)
    ensures Boxed(p.(queue := queue, events := p.events + [e], fates := p.fates + [fate]))
  {
    var p' := p.(queue := queue, events := p.events + [e], fates := p.fates + [fate]);
    forall i ensures WaiterOk(p', i) {
      assert WaiterOk(p, i);
    }
    forall id ensures CallOk(p', id) {
      assert CallOk(p, id);
    }
    forall k ensures EventOk(p', k) {
      assert EventOk(p, k);
    }
  }

  lemma WithoutOrdered(waiters: seq<nat>, i: nat)
    requires Ordered(waiters) && i < |waiters|
    ensures Ordered(Without(waiters, i)) && waiters[i] !in Without(waiters, i)
    ensures forall w :: w in Without(waiters, i) ==> w in waiters
    ensures forall w :: w in waiters && w != waiters[i] ==> w in Without(waiters, i)
  {
    forall w | w in waiters && w != waiters[i] ensures w in Without(waiters, i) {
      var j :| 0 <= j < |waiters| && waiters[j] == w;
      assert w == if j < i then Without(waiters, i)[j] else Without(waiters, i)[j - 1];
    }
  }

  /** The event of one waiter: it gets the box, stops waiting, and nobody else is touched. */
  lemma GivenKeeps(p: Payer, e: Event, i: nat)
    requires Boxed(p) && i < |p.waiters| && i == First(p.waiters, Awaiting(p.calls, EventKey(e)))
    ensures Boxed(Fed(p, e))
  {
    var p', id := Fed(p, e), p.waiters[i];
    assert Awaiting(p.calls, EventKey(e))(id);
    WithoutOrdered(p.waiters, i);
    assert WaiterOk(p, i) && CallOk(p, id);
    forall k | 0 <= k < |p'.waiters| ensures WaiterOk(p', k) {
      var j :| 0 <= j < |p.waiters| && p.waiters[j] == p'.waiters[k];
      assert WaiterOk(p, j);
    }
    forall w | w in p'.calls ensures CallOk(p', w) {
      assert CallOk(p, w);
    }
    forall k | 0 <= k < |p'.events| ensures EventOk(p', k) {
      assert EventOk(p, k);
    }
  }

  lemma FedBoxed(p: Payer, e: Event)
    requires Boxed(p)
    ensures Boxed(Fed(p, e))
  {
    var i := First(p.waiters, Awaiting(p.calls, EventKey(e)));
    if i < |p.waiters| {
      GivenKeeps(p, e, i);
    } else if WholeAtoms(e.matoms) {
      UnmatchedKeeps(p, e, Queued, Fed(p, e).queue);
    } else {
      UnmatchedKeeps(p, e, Ignored, p.queue);
    }
  }

  lemma CrashBoxed(p: Payer)
    requires Boxed(p)
    ensures Boxed(Crashed(p))
  {
    forall e ensures EventOk(Crashed(p), e) {
      assert EventOk(p, e);
    }
  }

  /** Only events on their way to the handler move. */
  lemma ForwardingKeeps(p: Payer, queue: seq<Forward>, fates: seq<Fate>)
    requires Boxed(p) && |fates| == |p.fates|
    requires forall e :: 0 <= e < |fates| ==> fates[e] == p.fates[e] || (p.fates[e] == Queued && fates[e] == Handled)
    ensures Boxed(p.(queue := queue, fates := fates))
  {
    var p' := p.(queue := queue, fates := fates);
    forall i ensures WaiterOk(p', i) {
      assert WaiterOk(p, i);
    }
    forall id ensures CallOk(p', id) {
      assert CallOk(p, id);
    }
    forall k ensures EventOk(p', k) {
      assert EventOk(p, k);
    }
  }

  lemma HandleBoxed(p: Payer, index: nat)
    requires Inv(p) && index < |p.queue|
    ensures Boxed(HandledAt(p, index))
  {
    assert ForwardOk(p, index);
    ForwardingKeeps(p, HandledAt(p, index).queue, HandledAt(p, index).fates);
  }

  lemma DispatchBoxed(p: Payer, s: Step)
    requires Boxed(p) && (s.DispatchFails? || s.DispatchExpires?) && Next(p, s).Some?
    ensures Boxed(Next(p, s).value)
  {
    LeftSpec(p.waiters, s.id);
    EmptiedKeeps(p, s.id, if s.DispatchFails? then Refused(s.err) else TimedOut, Lost, Left(p.waiters, s.id));
  }

  lemma TakeBoxed(p: Payer, id: nat)
    requires Boxed(p) && Next(p, Take(id)).Some?
    ensures Boxed(Next(p, Take(id)).value)
  {
    NotWaiting(p, id);
    EmptiedKeeps(p, id, RetOf(p.calls[id].box.value.verdict), Taken(id), p.waiters);
  }

  lemma DrainBoxed(p: Payer, id: nat)
    requires Boxed(p) && In(p, id, Draining)
    ensures Boxed(Drained(p, id))
  {
    NotWaiting(p, id);
    EmptiedKeeps(p, id, TimedOut, Queued, p.waiters);
    var p' := Emptied(p, id, Returned(TimedOut), Queued);
    ForwardingKeeps(p', Drained(p, id).queue, p'.fates);
  }

  lemma NextBoxed(p: Payer, s: Step)
    requires Inv(p) && Next(p, s).Some?
    ensures Boxed(Next(p, s).value)
  {
    match s {
      case Expect(_, _, _) => ExpectKeeps(p, s);
      case Leave(id) => PhaseKeeps(p, id, Away);
      case Dispatched(id) => PhaseKeeps(p, id, Sent);
      case DispatchFails(_, _) => DispatchBoxed(p, s);
      case DispatchExpires(_) => DispatchBoxed(p, s);
      case Take(id) => TakeBoxed(p, id);
      case Expire(id) => ExpireKeeps(p, id);
      case Drain(id) => DrainBoxed(p, id);
      case Progress(uid, matoms, completed, attemptErr, willRetry) =>
        var v := VerdictOf(completed, attemptErr, willRetry);
        if v.Some? {
          FedBoxed(p, Event(uid, matoms, completed, v.value));
        }
      case Handle(index) => HandleBoxed(p, index);
      case Finish(id) => FinishKeeps(p, id);
      case Crash => CrashBoxed(p);
    }
  }

  // ------------------------------------------------------------ on the way to the handler

  predicate IsQueued(fates: seq<Fate>, e: int) {
    0 <= e < |fates| && fates[e] == Queued
  }

  /** Events may be added; of those there were, and of new ones, only e may come to be on its way or cease to be. */
  ghost predicate QueuedBut(p: Payer, p': Payer, e: int) {
    && |p'.fates| == |p'.events| && |p.events| <= |p'.events|
    && (forall k :: 0 <= k < |p.events| ==> p'.events[k] == p.events[k])
    && (forall k :: k != e ==> (IsQueued(p'.fates, k) <==> IsQueued(p.fates, k)))
  }

  lemma SameTied(p: Payer, p': Payer)
    requires Tied(p) && p'.queue == p.queue && QueuedBut(p, p', -1)
    ensures Tied(p')
  {
    forall i: nat ensures ForwardOk(p', i) {
      assert ForwardOk(p, i);
      assert i < |p.queue| ==> IsQueued(p.fates, p.queue[i].event);
    }
    forall e: nat ensures QueuedOk(p', e) {
      assert QueuedOk(p, e) && (IsQueued(p'.fates, e) ==> IsQueued(p.fates, e));
    }
  }

  /** One more event is on its way. */
  lemma AddedTied(p: Payer, p': Payer, f: Forward)
    requires Tied(p) && p'.queue == p.queue + [f] && QueuedBut(p, p', f.event) && !IsQueued(p.fates, f.event)
    requires ForwardOk(p', |p.queue|)
    ensures Tied(p')
  {
    forall i: nat ensures ForwardOk(p', i) {
      assert ForwardOk(p, i);
      assert i < |p.queue| ==> IsQueued(p.fates, p.queue[i].event);
    }
    forall i | 0 <= i < |p.queue| ensures p.queue[i].event != f.event {
      assert ForwardOk(p, i);
    }
    forall e: nat ensures QueuedOk(p', e) {
      assert QueuedOk(p, e) && (e != f.event && IsQueued(p'.fates, e) ==> IsQueued(p.fates, e));
      if IsQueued(p.fates, e) {
        var i :| 0 <= i < |p.queue| && p.queue[i].event == e;
        assert p'.queue[i].event == e;
      }
      assert p'.queue[|p.queue|].event == f.event;
    }
  }

  lemma HandleTied(p: Payer, index: nat)
    requires Tied(p) && index < |p.queue|
    ensures Tied(HandledAt(p, index))
  {
    var p', e := HandledAt(p, index), p.queue[index].event;
    assert ForwardOk(p, index);
    forall i: nat ensures ForwardOk(p', i) {
      if i < |p'.queue| {
        assert ForwardOk(p, if i < index then i else i + 1);
      }
    }
    forall k: nat ensures QueuedOk(p', k) {
      assert QueuedOk(p, k);
      if IsQueued(p'.fates, k) {
        var i :| 0 <= i < |p.queue| && p.queue[i].event == k;
        assert p'.queue[if i < index then i else i - 1].event == k;
      }
    }
  }

  lemma FedTied(p: Payer, e: Event)
    requires Inv(p)
    ensures Tied(Fed(p, e))
  {
    var p', n := Fed(p, e), |p.events|;
    if First(p.waiters, Awaiting(p.calls, EventKey(e))) == |p.waiters| && WholeAtoms(e.matoms) {
      AddedTied(p, p', Forward(n, Outcome(e.uid, e.matoms / 1000, e.verdict)));
    } else {
      SameTied(p, p');
    }
  }

  lemma DrainTied(p: Payer, id: nat)
    requires Inv(p) && In(p, id, Draining)
    ensures Tied(Drained(p, id))
  {
    var p', c := Drained(p, id), p.calls[id];
    assert CallOk(p, id);
    if c.box.Some? {
      var e := c.box.value.event;
      assert EventOk(p, e);
      AddedTied(p, p', Forward(e, Outcome(c.uid, c.atoms, c.box.value.verdict)));
    } else {
      SameTied(p, p');
    }
  }

  lemma EmptiedTied(p: Payer, p': Payer, id: nat, phase: Phase, fate: Fate)
    requires Inv(p) && id in p.calls && fate != Queued
    requires p' == Emptied(p, id, phase, fate).(waiters := p'.waiters)
    ensures Tied(p')
  {
    assert CallOk(p, id);
    SameTied(p, p');
  }

  lemma NextTied(p: Payer, s: Step)
    requires Inv(p) && Next(p, s).Some?
    ensures Tied(Next(p, s).value)
  {
    var p' := Next(p, s).value;
    match s {
      case DispatchFails(id, err) => EmptiedTied(p, p', id, Returned(Refused(err)), Lost);
      case DispatchExpires(id) => EmptiedTied(p, p', id, Returned(TimedOut), Lost);
      case Take(id) => EmptiedTied(p, p', id, p'.calls[id].phase, Taken(id));
      case Drain(id) => DrainTied(p, id);
      case Handle(index) => HandleTied(p, index);
      case Crash =>
      case Progress(uid, matoms, completed, attemptErr, willRetry) =>
        var v := VerdictOf(completed, attemptErr, willRetry);
        if v.Some? {
          FedTied(p, Event(uid, matoms, completed, v.value));
        }
      case _ => SameTied(p, p');
    }
  }

  lemma NextKeeps(p: Payer, s: Step)
    requires Inv(p) && Next(p, s).Some?
    ensures Inv(Next(p, s).value)
  {
    NextBoxed(p, s);
    NextTied(p, s);
  }

  /** Calls keep payee, amount and tag; new ones are as asked. */
  lemma CallsStay(p: Payer, s: Step, id: nat)
    requires Inv(p) && Next(p, s).Some? && id in Next(p, s).value.calls
    ensures var c := Next(p, s).value.calls[id];
            if id in p.calls then c.uid == p.calls[id].uid && c.atoms == p.calls[id].atoms && c.tag == p.calls[id].tag
            else s == Expect(c.uid, c.atoms, c.tag)
  {
    assert CallOk(p, id);
    if s.Progress? && VerdictOf(s.completed, s.attemptErr, s.willRetry).Some? {
      var i := First(p.waiters, Awaiting(p.calls, KeyOf(s.uid, s.matoms)));
      assert i < |p.waiters| ==> WaiterOk(p, i);
    }
  }
}
