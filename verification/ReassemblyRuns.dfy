/** Reassembly under any schedule: parts of many messages, in any order, with repeats. */
module ReassemblyRuns {
  import opened Wrappers
  import opened Bytes
  import opened MapSums
  import opened Wire
  import opened Reassembly
  import Decimal

  /** One inbound part. */
  datatype Arrival = Arrival(peer: string, part: Part, now: int)

  /** The message we follow: where it comes from, and its chunks. */
  datatype Target = Target(peer: string, sid: string, mid: string, exp: int, chunks: seq<Blob>) {
    function Key(): string {
      KeyOf(peer, sid, mid)
    }

    function PartAt(i: int): Part
      requires 1 <= i <= |chunks|
    {
      Part(sid, mid, i, |chunks|, exp, chunks[i - 1])
    }
  }

  function ArrivalKey(a: Arrival): string {
    KeyOf(a.peer, a.part.sid, a.part.mid)
  }

  ghost function After(p: Pending, c: Config, run: seq<Arrival>): Pending {
    if run == [] then p
    else
      var last := run[|run| - 1];
      Added(After(p, c, run[..|run| - 1]), c, last.peer, last.part, last.now).0
  }

  ghost function Answer(p: Pending, c: Config, run: seq<Arrival>): Outcome
    requires run != []
  {
    var last := run[|run| - 1];
    Added(After(p, c, run[..|run| - 1]), c, last.peer, last.part, last.now).1
  }

  /** The numbers of the target's parts that have arrived. */
  function Seen(run: seq<Arrival>, key: string): set<int> {
    set i | 0 <= i < |run| && ArrivalKey(run[i]) == key :: run[i].part.number
  }

  /** Every part under the target's key is one of its own. */
  ghost predicate Genuine(run: seq<Arrival>, t: Target) {
    forall i :: 0 <= i < |run| && ArrivalKey(run[i]) == t.Key() ==>
      && run[i].peer == t.peer
      && 1 <= run[i].part.number <= |t.chunks|
      && run[i].part == t.PartAt(run[i].part.number)
  }

  /** At this arrival nothing of the target's expires and none of the target's parts meets a bound. */
  ghost predicate Unhindered(p: Pending, c: Config, a: Arrival, t: Target) {
    var key, p1 := t.Key(), Collected(p, c, a.now);
    && (key in p ==>
          (0 < p[key].exp ==> a.now / 1_000_000_000 <= p[key].exp) && a.now - p[key].firstSeen <= c.timeout)
    && (ArrivalKey(a) == key ==>
          && (0 < t.exp ==> a.now / 1_000_000_000 <= t.exp)
          && (|t.chunks| == 1 ==> |a.part.chunk| <= c.maxMessageBytes)
          && (|t.chunks| != 1 ==>
                && (key !in p1 ==> |MessagesOf(p1, t.peer)| < c.maxPendingPerPeer)
                && (key !in p1 || a.part.number !in p1[key].parts ==>
                      && (if key in p1 then p1[key].bytes else 0) + |a.part.chunk| <= c.maxMessageBytes
                      && TotalBytes(p1) + |a.part.chunk| <= c.maxTotalBytes)))
  }

  ghost predicate Smooth(p: Pending, c: Config, run: seq<Arrival>, t: Target) {
    run != [] ==>
      && Smooth(p, c, run[..|run| - 1], t)
      && Unhindered(After(p, c, run[..|run| - 1]), c, run[|run| - 1], t)
  }

  /** The numbers 1 to n. */
  function Range(n: nat): set<int> {
    if n == 0 then {} else Range(n - 1) + {n}
  }

  lemma {:induction false} RangeMembers(n: nat)
    ensures forall i :: i in Range(n) <==> 1 <= i <= n
  {
    if n > 0 {
      RangeMembers(n - 1);
    }
  }

  lemma RangeHas(n: nat, i: int)
    ensures i in Range(n) <==> 1 <= i <= n
  {
    RangeMembers(n);
  }

  lemma {:induction false} RangeSize(n: nat)
    ensures |Range(n)| == n
  {
    if n > 0 {
      RangeSize(n - 1);
      RangeMembers(n - 1);
    }
  }

  /** All numbers are there exactly when there are as many as there should be. */
  lemma CompleteByCount(seen: set<int>, all: set<int>)
    requires seen <= all
    ensures |seen| <= |all| && (|seen| == |all| <==> seen == all)
  {
    assert all == seen + (all - seen);
  }

  lemma SeenGrows(run: seq<Arrival>, key: string)
    requires run != []
    ensures var last := run[|run| - 1];
            Seen(run, key) == Seen(run[..|run| - 1], key) + (if ArrivalKey(last) == key then {last.part.number} else {})
  {
    var n := |run| - 1;
    var last := run[n];
    var before, all := Seen(run[..n], key), Seen(run, key);
    forall x | x in all ensures x in before + (if ArrivalKey(last) == key then {last.part.number} else {}) {
      var i :| 0 <= i < |run| && ArrivalKey(run[i]) == key && run[i].part.number == x;
      if i < n {
        assert run[..n][i] == run[i];
      }
    }
    forall x | x in before ensures x in all {
      var i :| 0 <= i < n && ArrivalKey(run[..n][i]) == key && run[..n][i].part.number == x;
      assert run[..n][i] == run[i];
    }
  }

  /** While the target is incomplete, what is pending under its key is exactly what has been seen of it. */
  ghost predicate Holds(p: Pending, t: Target, seen: set<int>) {
    if seen == {} then t.Key() !in p
    else
      && t.Key() in p
      && p[t.Key()].total == |t.chunks|
      && p[t.Key()].parts.Keys == seen
      && forall i :: i in seen ==> 1 <= i <= |t.chunks| && p[t.Key()].parts[i] == t.chunks[i - 1]
  }

  /** Arrivals under other keys, or already expired ones, leave the target alone. */
  lemma OthersLeaveAlone(p: Pending, c: Config, a: Arrival, t: Target, seen: set<int>)
    requires Holds(p, t, seen) && ArrivalKey(a) != t.Key()
    requires t.Key() in p ==> !Stale(p[t.Key()], c, a.now)
    ensures Holds(Added(p, c, a.peer, a.part, a.now).0, t, seen)
  {
    var q := Added(p, c, a.peer, a.part, a.now).0;
    assert t.Key() in q <==> t.Key() in p;
    assert t.Key() in p ==> q[t.Key()] == p[t.Key()];
  }

  lemma {:induction false} JoinedIsAll(parts: map<int, Blob>, chunks: seq<Blob>, n: nat)
    requires n <= |chunks| && forall i :: 1 <= i <= n ==> i in parts && parts[i] == chunks[i - 1]
    ensures Joined(parts, n) == Flatten(chunks[..n])
  {
    if n > 0 {
      JoinedIsAll(parts, chunks, n - 1);
      assert chunks[..n][..n - 1] == chunks[..n - 1];
    }
  }

  function Flatten(chunks: seq<Blob>): Blob {
    if chunks == [] then [] else Flatten(chunks[..|chunks| - 1]) + chunks[|chunks| - 1]
  }

  /** A repeat of a part already held changes nothing. */
  lemma RepeatStep(p: Pending, c: Config, i: int, now: int, t: Target, seen: set<int>)
    requires 2 <= |t.chunks| && 1 <= i <= |t.chunks| && i in seen
    requires Holds(p, t, seen) && Unhindered(p, c, Arrival(t.peer, t.PartAt(i), now), t)
    ensures var (q, r) := Added(p, c, t.peer, t.PartAt(i), now); r == Partial && Holds(q, t, seen)
  {
    var p1 := Collected(p, c, now);
    assert t.Key() in p1 && p1[t.Key()] == p[t.Key()];
  }

  /** A part not held yet is added, or completes the target. */
  lemma NewPartStep(p: Pending, c: Config, i: int, now: int, t: Target, seen: set<int>)
    requires 2 <= |t.chunks| && 1 <= i <= |t.chunks| && i !in seen
    requires Holds(p, t, seen) && seen + {i} <= Range(|t.chunks|)
    requires Unhindered(p, c, Arrival(t.peer, t.PartAt(i), now), t)
    ensures var (q, r) := Added(p, c, t.peer, t.PartAt(i), now);
            if seen + {i} == Range(|t.chunks|) then r == Complete(Flatten(t.chunks)) && t.Key() !in q
            else r == Partial && Holds(q, t, seen + {i})
  {
    var p1 := Collected(p, c, now);
    var m := Opened(p1, t.Key(), t.peer, t.PartAt(i), now);
    assert t.Key() in p <==> t.Key() in p1;
    assert m.parts.Keys == seen && m.total == |t.chunks|;
    ExtendedOnly(p, c, i, now, t, m);
    GrownHolds(p1, i, t, m, seen);
  }

  /** The target's message with part i, stored or delivered as its count says. */
  function Outgrown(p1: Pending, i: int, t: Target, m: Message): (Pending, Outcome)
    requires 1 <= i <= |t.chunks|
  {
    var m' := Grown(m, i, t.chunks[i - 1]);
    if |m'.parts| < m.total then (p1[t.Key() := m'], Partial)
    else (p1 - {t.Key()}, Complete(Joined(m'.parts, m.total)))
  }

  lemma GrownHolds(p1: Pending, i: int, t: Target, m: Message, seen: set<int>)
    requires 1 <= i <= |t.chunks| && i !in seen && seen + {i} <= Range(|t.chunks|)
    requires m.parts.Keys == seen && m.total == |t.chunks|
    requires forall j :: j in seen ==> 1 <= j <= |t.chunks| && m.parts[j] == t.chunks[j - 1]
    ensures var (q, r) := Outgrown(p1, i, t, m);
            if seen + {i} == Range(|t.chunks|) then r == Complete(Flatten(t.chunks)) && t.Key() !in q
            else r == Partial && Holds(q, t, seen + {i})
  {
    GrownParts(i, t, m, seen);
    GrownCount(i, t, m, seen);
    if seen + {i} == Range(|t.chunks|) {
      AllJoined(Grown(m, i, t.chunks[i - 1]).parts, t.chunks);
    } else {
      assert i in seen + {i};
    }
  }

  lemma GrownCount(i: int, t: Target, m: Message, seen: set<int>)
    requires 1 <= i <= |t.chunks| && i !in seen && seen + {i} <= Range(|t.chunks|)
    requires m.parts.Keys == seen && m.total == |t.chunks|
    ensures |Grown(m, i, t.chunks[i - 1]).parts| < m.total <==> seen + {i} != Range(|t.chunks|)
  {
    RangeSize(|t.chunks|);
    CountOneMore(m.parts, i, t.chunks[i - 1], Range(|t.chunks|));
  }

  lemma GrownParts(i: int, t: Target, m: Message, seen: set<int>)
    requires 1 <= i <= |t.chunks| && m.parts.Keys == seen && m.total == |t.chunks|
    requires forall j :: j in seen ==> 1 <= j <= |t.chunks| && m.parts[j] == t.chunks[j - 1]
    ensures var m' := Grown(m, i, t.chunks[i - 1]);
            && m'.parts.Keys == seen + {i} && m'.total == |t.chunks|
            && forall j :: j in seen + {i} ==> 1 <= j <= |t.chunks| && m'.parts[j] == t.chunks[j - 1]
  {
  }

  /** Add comes down to extending the target's message. */
  lemma ExtendedOnly(p: Pending, c: Config, i: int, now: int, t: Target, m: Message)
    requires 2 <= |t.chunks| && 1 <= i <= |t.chunks|
    requires m == Opened(Collected(p, c, now), t.Key(), t.peer, t.PartAt(i), now)
    requires i !in m.parts && m.total == |t.chunks|
    requires Unhindered(p, c, Arrival(t.peer, t.PartAt(i), now), t)
    ensures Added(p, c, t.peer, t.PartAt(i), now) == Outgrown(Collected(p, c, now), i, t, m)
  {
    var part := t.PartAt(i);
    assert Added(p, c, t.peer, part, now) == AddedPart(Collected(p, c, now), c, t.peer, part, now);
  }

  /** A genuine part of the target is added to what is held, or completes it. */
  lemma TargetStep(p: Pending, c: Config, i: int, now: int, t: Target, seen: set<int>)
    requires 2 <= |t.chunks| && 1 <= i <= |t.chunks|
    requires Holds(p, t, seen) && seen < Range(|t.chunks|)
    requires Unhindered(p, c, Arrival(t.peer, t.PartAt(i), now), t)
    ensures var (q, r) := Added(p, c, t.peer, t.PartAt(i), now);
            if seen + {i} == Range(|t.chunks|) then r == Complete(Flatten(t.chunks)) && t.Key() !in q
            else r == Partial && Holds(q, t, seen + {i})
  {
    if i in seen {
      assert seen + {i} == seen;
      RepeatStep(p, c, i, now, t, seen);
    } else {
      RangeHas(|t.chunks|, i);
      NewPartStep(p, c, i, now, t, seen);
    }
  }

  /** With one more of its parts a message is complete by count exactly when it is complete. */
  lemma CountOneMore(parts: map<int, Blob>, i: int, chunk: Blob, all: set<int>)
    requires i !in parts && parts.Keys + {i} <= all
    ensures parts[i := chunk].Keys == parts.Keys + {i}
    ensures |parts[i := chunk]| < |all| <==> parts.Keys + {i} != all
  {
    CompleteByCount(parts.Keys + {i}, all);
    assert parts[i := chunk].Keys == parts.Keys + {i};
    assert |parts[i := chunk]| == |parts[i := chunk].Keys|;
  }

  lemma AllJoined(parts: map<int, Blob>, chunks: seq<Blob>)
    requires parts.Keys == Range(|chunks|)
    requires forall j :: j in parts.Keys ==> 1 <= j <= |chunks| && parts[j] == chunks[j - 1]
    ensures Joined(parts, |chunks|) == Flatten(chunks)
  {
    forall j | 1 <= j <= |chunks| ensures j in parts && parts[j] == chunks[j - 1] {
      RangeHas(|chunks|, j);
      assert j in parts.Keys;
    }
    JoinedIsAll(parts, chunks, |chunks|);
    assert chunks[..|chunks|] == chunks;
  }

  lemma FullStaysFull(seen: set<int>, more: set<int>, n: nat)
    requires more <= Range(n)
    ensures seen == Range(n) ==> seen + more == Range(n)
  {
  }

  lemma {:induction false} HoldsBeforeCompletion(p: Pending, c: Config, run: seq<Arrival>, t: Target)
    requires 2 <= |t.chunks| && t.Key() !in p && Genuine(run, t) && Smooth(p, c, run, t)
    requires Seen(run, t.Key()) != Range(|t.chunks|)
    ensures Seen(run, t.Key()) <= Range(|t.chunks|) && Holds(After(p, c, run), t, Seen(run, t.Key()))
    decreases |run|
  {
    if run != [] {
      var n := |run| - 1;
      var before, last := run[..n], run[n];
      SeenGrows(run, t.Key());
      assert Genuine(before, t);
      RangeHas(|t.chunks|, last.part.number);
      var seen := Seen(before, t.Key());
      FullStaysFull(seen, if ArrivalKey(last) == t.Key() then {last.part.number} else {}, |t.chunks|);
      HoldsBeforeCompletion(p, c, before, t);
      if ArrivalKey(last) == t.Key() {
        TargetStep(After(p, c, before), c, last.part.number, last.now, t, seen);
      } else {
        OthersLeaveAlone(After(p, c, before), c, last, t, seen);
      }
    }
  }

  /**
   * Whatever the order, the repeats and the other traffic, each arrival of a part of the target before
   * its completion is answered with nothing until the last missing part, and then with exactly the
   * target's payload. Applied to every prefix of a schedule this covers all its arrivals.
   */
  lemma {:induction false} ReassembledUnderAnySchedule(p: Pending, c: Config, run: seq<Arrival>, t: Target)
    requires 2 <= |t.chunks| && t.Key() !in p && Genuine(run, t) && Smooth(p, c, run, t)
    requires run != [] && ArrivalKey(run[|run| - 1]) == t.Key()
    requires Seen(run[..|run| - 1], t.Key()) != Range(|t.chunks|)
    ensures Answer(p, c, run) ==
            if Seen(run, t.Key()) == Range(|t.chunks|) then Complete(Flatten(t.chunks)) else Partial
    ensures Seen(run, t.Key()) == Range(|t.chunks|) ==> t.Key() !in After(p, c, run)
  {
    var n := |run| - 1;
    var before, last := run[..n], run[n];
    assert Genuine(before, t);
    HoldsBeforeCompletion(p, c, before, t);
    SeenGrows(run, t.Key());
    TargetStep(After(p, c, before), c, last.part.number, last.now, t, Seen(before, t.Key()));
  }

  /** A message of one part is never pending. */
  lemma {:induction false} SingleNeverPends(p: Pending, c: Config, run: seq<Arrival>, t: Target)
    requires |t.chunks| == 1 && t.Key() !in p && Genuine(run, t) && Smooth(p, c, run, t)
    ensures t.Key() !in After(p, c, run)
    decreases |run|
  {
    if run != [] {
      var before, last := run[..|run| - 1], run[|run| - 1];
      assert Genuine(before, t);
      SingleNeverPends(p, c, before, t);
      if ArrivalKey(last) != t.Key() {
        assert Holds(After(p, c, before), t, {});
        OthersLeaveAlone(After(p, c, before), c, last, t, {});
      }
    }
  }

  /** A message of one part comes out as its chunk each time it arrives, and leaves what is pending as it was. */
  lemma SingleIsDelivered(p: Pending, c: Config, run: seq<Arrival>, t: Target)
    requires |t.chunks| == 1 && t.Key() !in p && Genuine(run, t) && Smooth(p, c, run, t)
    requires run != [] && ArrivalKey(run[|run| - 1]) == t.Key()
    ensures Answer(p, c, run) == Complete(t.chunks[0])
    ensures After(p, c, run) == After(p, c, run[..|run| - 1])
  {
    assert run[|run| - 1].part == t.PartAt(1);
  }

  /** Delivery is once only up to completion: a repeat after it opens the message afresh. */
  lemma RepeatAfterCompletionReopens(p: Pending, c: Config, i: int, now: int, t: Target)
    requires 2 <= |t.chunks| && 1 <= i <= |t.chunks| && t.Key() !in p
    requires Unhindered(p, c, Arrival(t.peer, t.PartAt(i), now), t)
    ensures var (q, r) := Added(p, c, t.peer, t.PartAt(i), now);
            r == Partial && t.Key() in q && q[t.Key()].parts.Keys == {i}
  {
    assert Holds(p, t, {});
    RangeSize(|t.chunks|);
    TargetStep(p, c, i, now, t, {});
    assert {} + {i} == {i};
  }

  // ---------------------------------------------------------------------------------------------
  // From the sender's payload to the receiver's

  /** Keys of well-formed parts name one peer and one message: slashes cannot be smuggled in. */
  lemma KeyIsUnambiguous(peer: string, sid: string, mid: string, peer': string, sid': string, mid': string)
    requires ValidId(sid) && ValidId(mid) && ValidId(sid') && ValidId(mid')
    requires KeyOf(peer, sid, mid) == KeyOf(peer', sid', mid')
    ensures peer == peer' && sid == sid' && mid == mid'
  {
    LastSlash(peer + "/" + sid, mid, peer' + "/" + sid', mid');
    LastSlash(peer, sid, peer', sid');
  }

  lemma NoSlashAfter(a: string, b: string, i: int)
    requires '/' !in b && |a| < i <= |a| + |b|
    ensures (a + "/" + b)[i] != '/'
  {
    assert (a + "/" + b)[i] == b[i - |a| - 1];
  }

  lemma LastSlash(a: string, b: string, c: string, d: string)
    requires a + "/" + b == c + "/" + d && '/' !in b && '/' !in d
    ensures a == c && b == d
  {
    var s := a + "/" + b;
    assert s[|a|] == '/' && s[|c|] == '/';
    if |a| < |c| {
      NoSlashAfter(a, b, |c|);
    } else if |c| < |a| {
      NoSlashAfter(c, d, |a|);
    } else {
      assert s[..|a|] == a && s[..|a|] == c && s[|a| + 1..] == b && s[|a| + 1..] == d;
    }
  }

  function ChunksOf(payload: Blob, size: int, n: nat): seq<Blob>
    requires 0 < size
  {
    if n == 0 then [] else ChunksOf(payload, size, n - 1) + [Slice(payload, size, n - 1)]
  }

  lemma {:induction false} ChunksAt(payload: Blob, size: int, n: nat)
    requires 0 < size
    ensures |ChunksOf(payload, size, n)| == n
    ensures forall i :: 0 <= i < n ==> ChunksOf(payload, size, n)[i] == Slice(payload, size, i)
  {
    if n > 0 {
      ChunksAt(payload, size, n - 1);
    }
  }

  lemma {:induction false} ChunksAreSlices(payload: Blob, size: int, n: nat)
    requires 0 < size
    ensures Flatten(ChunksOf(payload, size, n)) == Slices(payload, size, n)
  {
    if n > 0 {
      ChunksAreSlices(payload, size, n - 1);
      FlattenSnoc(ChunksOf(payload, size, n - 1), Slice(payload, size, n - 1));
    }
  }

  lemma FlattenSnoc(chunks: seq<Blob>, chunk: Blob)
    ensures Flatten(chunks + [chunk]) == Flatten(chunks) + chunk
  {
    assert (chunks + [chunk])[..|chunks|] == chunks;
  }

  /** The arrivals of key are texts Encode produced, parsed. */
  ghost predicate CarriedBy(run: seq<Arrival>, texts: seq<string>, peer: string, key: string) {
    forall i :: 0 <= i < |run| && ArrivalKey(run[i]) == key ==>
      run[i].peer == peer && exists j :: 0 <= j < |texts| && Parsed(texts[j]) == Some(run[i].part)
  }

  lemma CarriedIsGenuine(run: seq<Arrival>, texts: seq<string>, t: Target)
    requires CarriedBy(run, texts, t.peer, t.Key()) && |texts| == |t.chunks|
    requires forall j :: 0 <= j < |texts| ==>
               Parsed(texts[j]) == Some(Part(t.sid, t.mid, j + 1, |texts|, t.exp, t.chunks[j]))
    ensures Genuine(run, t)
  {
    forall i | 0 <= i < |run| && ArrivalKey(run[i]) == t.Key()
      ensures 1 <= run[i].part.number <= |t.chunks| && run[i].part == t.PartAt(run[i].part.number)
    {
      var j :| 0 <= j < |texts| && Parsed(texts[j]) == Some(run[i].part);
      assert run[i].part == t.PartAt(j + 1);
    }
  }

  /**
   * A payload, encoded, carried as text in any order with any repeats and any other traffic, parsed and
   * reassembled, comes out as itself once the last missing part has arrived.
   */
  lemma {:induction false} PayloadCrossesTheWire(p: Pending, c: Config, run: seq<Arrival>, texts: seq<string>,
                                                 peer: string, sid: string, mid: string, payload: Blob, exp: int,
                                                 size: int)
    requires 0 < size && ValidId(sid) && ValidId(mid) && payload != []
    requires Decimal.MIN_INT64 <= exp <= Decimal.MAX_INT64
    requires |texts| <= MAX_PARTS && EncodesTo(texts, sid, mid, payload, exp, size)
    requires var t := Target(peer, sid, mid, exp, ChunksOf(payload, size, |texts|));
             && t.Key() !in p && CarriedBy(run, texts, peer, t.Key()) && Smooth(p, c, run, t)
             && run != [] && ArrivalKey(run[|run| - 1]) == t.Key()
             && Seen(run[..|run| - 1], t.Key()) != Range(|texts|)
    ensures Answer(p, c, run) ==
            if Seen(run, KeyOf(peer, sid, mid)) == Range(|texts|) then Complete(payload) else Partial
  {
    var t := Target(peer, sid, mid, exp, ChunksOf(payload, size, |texts|));
    EncodeParses(texts, sid, mid, payload, exp, size);
    ChunksAt(payload, size, |texts|);
    ChunksAreSlices(payload, size, |texts|);
    CarriedIsGenuine(run, texts, t);
    if |texts| == 1 {
      SingleIsDelivered(p, c, run, t);
      SingleSeen(run, t, payload);
    } else {
      ReassembledUnderAnySchedule(p, c, run, t);
    }
  }

  lemma SingleSeen(run: seq<Arrival>, t: Target, payload: Blob)
    requires |t.chunks| == 1 && Flatten(t.chunks) == payload && Genuine(run, t)
    requires run != [] && ArrivalKey(run[|run| - 1]) == t.Key()
    ensures t.chunks[0] == payload && Seen(run, t.Key()) == Range(1)
  {
    assert t.chunks[..0] == [];
    RangeMembers(1);
    assert run[|run| - 1].part.number in Seen(run, t.Key());
  }
}
