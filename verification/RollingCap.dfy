/**
 * A spending cap over a rolling window, checked first and recorded later: what the check-then-record
 * pattern of bridge/payment.go and directory/registrant.go guarantees when several payments overlap.
 */
module RollingCap {
  import opened Wrappers
  import opened MapSums

  /** One recorded spend; counts tells whether its atoms moved or may still move. Times are in seconds. */
  datatype Spend = Spend(ts: int, atoms: int, counts: bool)

  /** The window length, the cap per window and the cap per payment. */
  datatype Policy = Policy(window: nat, cap: int, perCall: int)

  /**
   * inflight holds the payments that passed the check and are not recorded yet; stamped holds those that have read the
   * clock for their record already and wait to append it.
   */
  datatype Meter = Meter(now: int, log: seq<Spend>, inflight: map<nat, int>, stamped: map<nat, Spend>)

  /**
   * Check reads the log with a window ending at a clock read earlier. Record stamps and appends at once. Note records
   * a refusal; Void marks a recorded spend as one that moved nothing.
   */
  datatype Step =
    | Tick(secs: nat)
    | Check(id: nat, atoms: int, at: int)
    | Drop(ids: set<nat>)
    | Record(id: nat)
    | Stamp(id: nat)
    | Append(id: nat)
    | Note(atoms: int)
    | Void(index: nat)

  function Weight(s: Spend, from: int, to: int): int {
    if s.counts && from <= s.ts <= to then s.atoms else 0
  }

  /** The counted atoms of spends between two instants, both included. */
  function CountedIn(log: seq<Spend>, from: int, to: int): int {
    if log == [] then 0
    else CountedIn(log[..|log| - 1], from, to) + Weight(log[|log| - 1], from, to)
  }

  predicate Passes(m: Meter, p: Policy, atoms: int, at: int) {
    at <= m.now && 0 < atoms <= p.perCall && CountedIn(m.log, at - p.window, m.now) + atoms <= p.cap
  }

  function Stamped(m: Meter, id: nat): Meter
    requires id in m.inflight
  {
    m.(inflight := m.inflight - {id}, stamped := m.stamped[id := Spend(m.now, m.inflight[id], true)])
  }

  function Appended(m: Meter, id: nat): Meter
    requires id in m.stamped
  {
    m.(log := m.log + [m.stamped[id]], stamped := m.stamped - {id})
  }

  /** A crash drops payments between check and record, stamped or not. */
  function Next(m: Meter, p: Policy, s: Step): Option<Meter> {
    match s
    case Tick(secs) => Some(m.(now := m.now + secs))
    case Check(id, atoms, at) =>
      if id in m.inflight || id in m.stamped || !Passes(m, p, atoms, at) then None
      else Some(m.(inflight := m.inflight[id := atoms]))
    case Drop(ids) => Some(m.(inflight := m.inflight - ids, stamped := m.stamped - ids))
    case Record(id) =>
      if id !in m.inflight || id in m.stamped then None
      else Some(m.(log := m.log + [Spend(m.now, m.inflight[id], true)], inflight := m.inflight - {id}))
    case Stamp(id) => if id !in m.inflight || id in m.stamped then None else Some(Stamped(m, id))
    case Append(id) => if id !in m.stamped then None else Some(Appended(m, id))
    case Note(atoms) => Some(m.(log := m.log + [Spend(m.now, atoms, false)]))
    case Void(index) =>
      if index >= |m.log| then None else Some(m.(log := m.log[index := m.log[index].(counts := false)]))
  }

  /** Recording appends, and appended spends weigh what they weigh. */
  lemma CountedAppend(log: seq<Spend>, s: Spend, from: int, to: int)
    ensures CountedIn([], from, to) == 0
    ensures CountedIn(log + [s], from, to)
         == CountedIn(log, from, to) + (if s.counts && from <= s.ts <= to then s.atoms else 0)
  {
    assert (log + [s])[..|log|] == log;
  }

  lemma {:induction false} CountedVoid(log: seq<Spend>, i: nat, from: int, to: int)
    requires i < |log| && (log[i].counts ==> 0 <= log[i].atoms)
    ensures CountedIn(log[i := log[i].(counts := false)], from, to) <= CountedIn(log, from, to)
  {
    var n := |log| - 1;
    var voided := log[i := log[i].(counts := false)];
    if i < n {
      assert voided[..n] == log[..n][i := log[..n][i].(counts := false)];
      CountedVoid(log[..n], i, from, to);
    } else {
      assert voided[..n] == log[..n];
    }
  }

  /** No counted spend is negative or in the future. */
  predicate Plain(log: seq<Spend>, now: int) {
    forall i :: 0 <= i < |log| ==> log[i].ts <= now && (log[i].counts ==> 0 <= log[i].atoms)
  }

  lemma {:induction false} CountedNonNegative(log: seq<Spend>, from: int, to: int, now: int)
    requires Plain(log, now)
    ensures 0 <= CountedIn(log, from, to)
  {
    if log != [] {
      CountedNonNegative(log[..|log| - 1], from, to, now);
    }
  }

  /** An interval that starts no earlier counts no more when nothing is later than the end of the other one. */
  lemma {:induction false} CountedNarrow(log: seq<Spend>, from: int, to: int, from': int, to': int)
    requires from <= from' && Plain(log, to)
    ensures CountedIn(log, from', to') <= CountedIn(log, from, to)
  {
    if log != [] {
      CountedNarrow(log[..|log| - 1], from, to, from', to');
    }
  }

  // ------------------------------------------------------------ stamped payments

  function Weights(stamped: map<nat, Spend>, from: int, to: int): map<nat, int> {
    map id | id in stamped :: Weight(stamped[id], from, to)
  }

  /** The atoms of stamped payments between two instants. */
  ghost function StampedIn(stamped: map<nat, Spend>, from: int, to: int): int {
    Sum(Weights(stamped, from, to))
  }

  /** Everything recorded between two instants, or certain to be recorded as of then unless a crash drops it. */
  ghost function TotalIn(m: Meter, from: int, to: int): int {
    CountedIn(m.log, from, to) + StampedIn(m.stamped, from, to)
  }

  /** Stamped payments count, are within the cap per payment and not in the future. */
  ghost predicate StampsOk(stamped: map<nat, Spend>, perCall: int, now: int) {
    forall id :: id in stamped ==>
      stamped[id].counts && 0 < stamped[id].atoms <= perCall && stamped[id].ts <= now
  }

  lemma StampedAdd(stamped: map<nat, Spend>, id: nat, s: Spend, from: int, to: int)
    requires id !in stamped
    ensures StampedIn(stamped[id := s], from, to) == StampedIn(stamped, from, to) + Weight(s, from, to)
  {
    SumStore(Weights(stamped, from, to), id, Weight(s, from, to));
    assert Weights(stamped[id := s], from, to) == Weights(stamped, from, to)[id := Weight(s, from, to)];
  }

  lemma StampedTake(stamped: map<nat, Spend>, id: nat, from: int, to: int)
    requires id in stamped
    ensures StampedIn(stamped - {id}, from, to) == StampedIn(stamped, from, to) - Weight(stamped[id], from, to)
  {
    SumDrop(Weights(stamped, from, to), id);
    assert Weights(stamped - {id}, from, to) == Weights(stamped, from, to) - {id};
  }

  /** An interval that starts no earlier, of fewer payments, holds no more. */
  lemma StampedNarrow(some: map<nat, Spend>, all: map<nat, Spend>, from: int, to: int, from': int, to': int,
                      perCall: int)
    requires StampsOk(all, perCall, to) && from <= from'
    requires some.Keys <= all.Keys && forall id :: id in some ==> some[id] == all[id]
    ensures 0 <= StampedIn(some, from', to') <= StampedIn(all, from, to)
  {
    SumNonNegative(Weights(some, from', to'));
    SumMonotone(Weights(some, from', to'), Weights(all, from, to));
  }

  lemma StampedBound(stamped: map<nat, Spend>, perCall: int, now: int, from: int, to: int)
    requires StampsOk(stamped, perCall, now) && 0 <= perCall
    ensures StampedIn(stamped, from, to) <= Repeated(|stamped|, perCall)
  {
    SumBound(Weights(stamped, from, to), perCall);
    assert Weights(stamped, from, to).Keys == stamped.Keys;
  }

  // ------------------------------------------------------------ the bound

  /** What a window can hold at most; nothing is ever counted when a cap is not positive. */
  function Bound(p: Policy, k: nat): int {
    if p.cap <= 0 || p.perCall <= 0 || k == 0 then 0 else p.cap + Repeated(k - 1, p.perCall)
  }

  ghost predicate WithinWindows(m: Meter, p: Policy, k: nat) {
    forall from, to :: to <= from + p.window ==> TotalIn(m, from, to) <= Bound(p, k)
  }

  ghost predicate AmountsOk(inflight: map<nat, int>, perCall: int) {
    forall id :: id in inflight ==> 0 < inflight[id] <= perCall
  }

  /** The current window has room for all payments in flight. */
  ghost predicate Room(m: Meter, p: Policy, k: nat) {
    TotalIn(m, m.now - p.window, m.now) + Sum(m.inflight) <= Bound(p, k)
  }

  ghost predicate Sound(m: Meter, p: Policy, k: nat) {
    && 1 <= k && AmountsOk(m.inflight, p.perCall) && StampsOk(m.stamped, p.perCall, m.now) && Plain(m.log, m.now)
    && Room(m, p, k) && WithinWindows(m, p, k)
  }

  /** Payments between check and record. */
  function Overlapping(m: Meter): nat {
    |m.inflight| + |m.stamped|
  }

  lemma {:induction false} RepeatedAdds(a: nat, b: nat, c: int)
    ensures Repeated(a, c) + Repeated(b, c) == Repeated(a + b, c)
  {
    if b > 0 {
      RepeatedAdds(a, b - 1, c);
    }
  }

  lemma InFlightBound(inflight: map<nat, int>, perCall: int, id: nat, atoms: int)
    requires id !in inflight && AmountsOk(inflight, perCall)
    ensures Sum(inflight[id := atoms]) <= atoms + Repeated(|inflight|, perCall)
  {
    SumStore(inflight, id, atoms);
    SumBound(inflight, perCall);
  }

  /** What the payments between check and record can add to one that is just passing the check. */
  lemma OthersOverlap(inflight: map<nat, int>, stamped: map<nat, Spend>, perCall: int, now: int, k: nat, id: nat,
                      atoms: int, from: int, to: int)
    requires id !in inflight && 0 < perCall && |inflight| + |stamped| + 1 <= k
    requires AmountsOk(inflight, perCall) && StampsOk(stamped, perCall, now)
    ensures Sum(inflight[id := atoms]) + StampedIn(stamped, from, to) <= atoms + Repeated(k - 1, perCall)
  {
    InFlightBound(inflight, perCall, id, atoms);
    StampedBound(stamped, perCall, now, from, to);
    RepeatedAdds(|inflight|, |stamped|, perCall);
    RepeatedGrows(|inflight| + |stamped|, k - 1, perCall);
  }

  lemma WindowsHold(m: Meter, p: Policy, k: nat, from: int, to: int)
    requires WithinWindows(m, p, k) && to <= from + p.window
    ensures TotalIn(m, from, to) <= Bound(p, k)
  {
  }

  /** Windows see the log and the stamped payments, not what is in flight. */
  lemma SameWindows(m: Meter, m': Meter, p: Policy, k: nat)
    requires WithinWindows(m, p, k) && m'.log == m.log && m'.stamped == m.stamped
    ensures WithinWindows(m', p, k)
  {
    forall from, to | to <= from + p.window ensures TotalIn(m', from, to) <= Bound(p, k) {
      WindowsHold(m, p, k, from, to);
    }
  }

  /** The payment that passes leaves room for the k - 1 others, which hold that much. */
  lemma CheckFits(m: Meter, p: Policy, k: nat, atoms: int, at: int, others: int)
    requires 1 <= k && Plain(m.log, m.now) && Passes(m, p, atoms, at) && others <= Repeated(k - 1, p.perCall)
    ensures CountedIn(m.log, m.now - p.window, m.now) + atoms + others <= Bound(p, k)
  {
    CountedNonNegative(m.log, at - p.window, m.now, m.now);
    CountedNarrow(m.log, at - p.window, m.now, m.now - p.window, m.now);
  }

  lemma CheckLeavesRoom(m: Meter, p: Policy, k: nat, id: nat, atoms: int, at: int)
    requires 1 <= k && AmountsOk(m.inflight, p.perCall) && StampsOk(m.stamped, p.perCall, m.now) && Plain(m.log, m.now)
    requires id !in m.inflight && Passes(m, p, atoms, at) && Overlapping(m) + 1 <= k
    ensures Room(m.(inflight := m.inflight[id := atoms]), p, k)
  {
    var from := m.now - p.window;
    OthersOverlap(m.inflight, m.stamped, p.perCall, m.now, k, id, atoms, from, m.now);
    RoomFor(m, p, k, m.inflight[id := atoms], atoms, at);
  }

  lemma RoomFor(m: Meter, p: Policy, k: nat, inflight: map<nat, int>, atoms: int, at: int)
    requires 1 <= k && Plain(m.log, m.now) && Passes(m, p, atoms, at)
    requires Sum(inflight) + StampedIn(m.stamped, m.now - p.window, m.now) <= atoms + Repeated(k - 1, p.perCall)
    ensures Room(m.(inflight := inflight), p, k)
  {
    CheckFits(m, p, k, atoms, at, Sum(inflight) + StampedIn(m.stamped, m.now - p.window, m.now) - atoms);
  }

  lemma CheckKeeps(m: Meter, p: Policy, k: nat, id: nat, atoms: int, at: int)
    requires Sound(m, p, k) && Next(m, p, Check(id, atoms, at)).Some? && Overlapping(m) + 1 <= k
    ensures Sound(Next(m, p, Check(id, atoms, at)).value, p, k)
  {
    CheckLeavesRoom(m, p, k, id, atoms, at);
    SameWindows(m, m.(inflight := m.inflight[id := atoms]), p, k);
  }

  lemma OneMoreKey(inflight: map<nat, int>, id: nat, atoms: int)
    requires id !in inflight
    ensures |inflight[id := atoms]| == |inflight| + 1
  {
    assert inflight[id := atoms].Keys == inflight.Keys + {id};
  }

  /** Later or narrower windows hold no more. */
  lemma TotalNarrow(m: Meter, p: Policy, k: nat, from: int, from': int, to': int)
    requires Sound(m, p, k) && from <= from'
    ensures TotalIn(m, from', to') <= TotalIn(m, from, m.now)
  {
    CountedNarrow(m.log, from, m.now, from', to');
    StampedNarrow(m.stamped, m.stamped, from, m.now, from', to', p.perCall);
  }

  /** The payment moves from those in flight into the current window; older windows do not see it. */
  lemma StampKeeps(m: Meter, p: Policy, k: nat, id: nat)
    requires Sound(m, p, k) && id in m.inflight && id !in m.stamped
    ensures Sound(Stamped(m, id), p, k)
  {
    StampRoom(m, p, k, id);
    forall from, to | to <= from + p.window ensures TotalIn(Stamped(m, id), from, to) <= Bound(p, k) {
      StampWindow(m, p, k, id, from, to);
    }
  }

  lemma StampRoom(m: Meter, p: Policy, k: nat, id: nat)
    requires Room(m, p, k) && id in m.inflight && id !in m.stamped && 0 <= p.window
    ensures Room(Stamped(m, id), p, k)
  {
    SumDrop(m.inflight, id);
    StampedAdd(m.stamped, id, Spend(m.now, m.inflight[id], true), m.now - p.window, m.now);
  }

  lemma StampWindow(m: Meter, p: Policy, k: nat, id: nat, from: int, to: int)
    requires Sound(m, p, k) && id in m.inflight && id !in m.stamped && to <= from + p.window
    ensures TotalIn(Stamped(m, id), from, to) <= Bound(p, k)
  {
    StampedAdd(m.stamped, id, Spend(m.now, m.inflight[id], true), from, to);
    if from <= m.now <= to {
      SumCovers(m.inflight, id);
      TotalNarrow(m, p, k, m.now - p.window, from, to);
    } else {
      WindowsHold(m, p, k, from, to);
    }
  }

  /** A stamped payment counts the same wherever it is. */
  lemma AppendKeeps(m: Meter, p: Policy, k: nat, id: nat)
    requires Sound(m, p, k) && id in m.stamped
    ensures Sound(Appended(m, id), p, k)
  {
    StampedTake(m.stamped, id, m.now - p.window, m.now);
    CountedAppend(m.log, m.stamped[id], m.now - p.window, m.now);
    forall from, to | to <= from + p.window ensures TotalIn(Appended(m, id), from, to) <= Bound(p, k) {
      StampedTake(m.stamped, id, from, to);
      CountedAppend(m.log, m.stamped[id], from, to);
      WindowsHold(m, p, k, from, to);
    }
  }

  lemma RecordKeeps(m: Meter, p: Policy, k: nat, id: nat)
    requires Sound(m, p, k) && id in m.inflight && id !in m.stamped
    ensures Sound(Next(m, p, Record(id)).value, p, k)
  {
    StampKeeps(m, p, k, id);
    AppendKeeps(Stamped(m, id), p, k, id);
    assert m.stamped[id := Spend(m.now, m.inflight[id], true)] - {id} == m.stamped;
  }

  lemma NoteWeighsNothing(m: Meter, p: Policy, atoms: int, from: int, to: int)
    ensures TotalIn(Next(m, p, Note(atoms)).value, from, to) == TotalIn(m, from, to)
  {
    CountedAppend(m.log, Spend(m.now, atoms, false), from, to);
  }

  lemma NoteKeeps(m: Meter, p: Policy, k: nat, atoms: int)
    requires Sound(m, p, k)
    ensures Sound(Next(m, p, Note(atoms)).value, p, k)
  {
    var m' := Next(m, p, Note(atoms)).value;
    NoteWeighsNothing(m, p, atoms, m.now - p.window, m.now);
    forall from, to | to <= from + p.window ensures TotalIn(m', from, to) <= Bound(p, k) {
      NoteWeighsNothing(m, p, atoms, from, to);
      WindowsHold(m, p, k, from, to);
    }
  }

  lemma VoidKeeps(m: Meter, p: Policy, k: nat, i: nat)
    requires Sound(m, p, k) && i < |m.log|
    ensures Sound(Next(m, p, Void(i)).value, p, k)
  {
    var m' := Next(m, p, Void(i)).value;
    CountedVoid(m.log, i, m.now - p.window, m.now);
    forall from, to | to <= from + p.window ensures TotalIn(m', from, to) <= Bound(p, k) {
      CountedVoid(m.log, i, from, to);
      WindowsHold(m, p, k, from, to);
    }
  }

  lemma TickKeeps(m: Meter, p: Policy, k: nat, secs: nat)
    requires Sound(m, p, k)
    ensures Sound(m.(now := m.now + secs), p, k)
  {
    var m' := m.(now := m.now + secs);
    TotalNarrow(m, p, k, m.now - p.window, m'.now - p.window, m'.now);
    SameWindows(m, m', p, k);
  }

  /** m' has some of the payments of m between check and record, and is the same otherwise. */
  ghost predicate Fewer(m: Meter, m': Meter) {
    && m'.log == m.log && m'.now == m.now
    && m'.inflight.Keys <= m.inflight.Keys && (forall id :: id in m'.inflight ==> m'.inflight[id] == m.inflight[id])
    && m'.stamped.Keys <= m.stamped.Keys && (forall id :: id in m'.stamped ==> m'.stamped[id] == m.stamped[id])
  }

  lemma FewerKeeps(m: Meter, m': Meter, p: Policy, k: nat)
    requires Sound(m, p, k) && Fewer(m, m')
    ensures Sound(m', p, k)
  {
    SumMonotone(m'.inflight, m.inflight);
    StampedNarrow(m'.stamped, m.stamped, m.now - p.window, m.now, m.now - p.window, m.now, p.perCall);
    forall from, to | to <= from + p.window ensures TotalIn(m', from, to) <= Bound(p, k) {
      SumMonotone(Weights(m'.stamped, from, to), Weights(m.stamped, from, to));
      WindowsHold(m, p, k, from, to);
    }
  }

  lemma WriteKeeps(m: Meter, p: Policy, k: nat, s: Step)
    requires Sound(m, p, k) && Next(m, p, s).Some? && !(s.Tick? || s.Check? || s.Drop?)
    ensures Sound(Next(m, p, s).value, p, k)
  {
    match s {
      case Record(id) => RecordKeeps(m, p, k, id);
      case Stamp(id) => StampKeeps(m, p, k, id);
      case Append(id) => AppendKeeps(m, p, k, id);
      case Note(atoms) => NoteKeeps(m, p, k, atoms);
      case Void(index) => VoidKeeps(m, p, k, index);
    }
  }

  /** Every step keeps the meter sound while at most k payments are between check and record. */
  lemma NextKeeps(m: Meter, p: Policy, k: nat, s: Step)
    requires Sound(m, p, k) && Next(m, p, s).Some? && Overlapping(Next(m, p, s).value) <= k
    ensures Sound(Next(m, p, s).value, p, k)
  {
    match s {
      case Tick(secs) => TickKeeps(m, p, k, secs);
      case Check(id, atoms, at) =>
        OneMoreKey(m.inflight, id, atoms);
        CheckKeeps(m, p, k, id, atoms, at);
      case Drop(_) => FewerKeeps(m, Next(m, p, s).value, p, k);
      case _ => WriteKeeps(m, p, k, s);
    }
  }

  lemma FreshIsSound(now: int, p: Policy, k: nat)
    requires 1 <= k
    ensures Sound(Meter(now, [], map[], map[]), p, k)
  {
    if 0 < p.perCall {
      RepeatedGrows(0, k - 1, p.perCall);
    }
    forall from, to ensures StampedIn(map[], from, to) == 0 {
      assert Weights(map[], from, to) == map[];
    }
  }

  /** In a sound meter every window stays within the bound; with one payment at a time, within the cap. */
  lemma WindowBound(m: Meter, p: Policy, k: nat, from: int, to: int)
    requires Sound(m, p, k) && to <= from + p.window
    ensures CountedIn(m.log, from, to) <= if p.cap <= 0 || p.perCall <= 0 then 0 else p.cap + (k - 1) * p.perCall
    ensures k == 1 && 0 < p.cap ==> CountedIn(m.log, from, to) <= p.cap
  {
    RepeatedIs(k - 1, p.perCall);
    SumNonNegative(Weights(m.stamped, from, to));
    assert TotalIn(m, from, to) <= Bound(p, k);
  }
}
