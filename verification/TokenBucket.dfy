/** The per-caller rate limiter (takeToken in server/harness.go), over exact reals instead of float64. */
module TokenBucket {
  import opened Wrappers
  import opened CallJournal

  datatype Bucket = Bucket(tokens: real, last: int)

  type Buckets = map<string, Bucket>

  /** One attempted call: who, and when in nanoseconds. */
  datatype Attempt = Attempt(peer: string, now: int)

  function Seconds(ns: int): real {
    ns as real / 1000000000.0
  }

  /** The tokens ns nanoseconds are worth at limit calls a minute. */
  function Refill(ns: int, limit: int): real {
    Seconds(ns) * (limit as real / 60.0)
  }

  function Capped(tokens: real, limit: int): real {
    if tokens > limit as real then limit as real else tokens
  }

  function Refilled(bs: Buckets, peer: string, now: int, limit: int): real {
    if peer in bs then Capped(bs[peer].tokens + Refill(now - bs[peer].last, limit), limit)
    else limit as real
  }

  predicate Admits(bs: Buckets, a: Attempt, limit: int) {
    Refilled(bs, a.peer, a.now, limit) >= 1.0
  }

  function After(bs: Buckets, a: Attempt, limit: int): Buckets {
    var tokens := Refilled(bs, a.peer, a.now, limit);
    bs[a.peer := Bucket(if tokens < 1.0 then tokens else tokens - 1.0, a.now)]
  }

  /** A call is admitted exactly when what the bucket held, and its refill of limit a minute, make a whole token. */
  lemma AdmitsExactly(bs: Buckets, a: Attempt, limit: int)
    requires 0 < limit
    ensures a.peer !in bs ==> Admits(bs, a, limit)
    ensures a.peer in bs ==>
              (Admits(bs, a, limit) <==>
               60.0 * 1000000000.0 * (1.0 - bs[a.peer].tokens) <= (a.now - bs[a.peer].last) as real * limit as real)
  {
    if a.peer in bs {
      var elapsed := (a.now - bs[a.peer].last) as real;
      assert Refill(a.now - bs[a.peer].last, limit) == elapsed * (limit as real) / (60.0 * 1000000000.0);
    }
  }

  /** How many attempts of the run are the peer's. */
  function Own(peer: string, run: seq<Attempt>): nat
    decreases |run|
  {
    if run == [] then 0 else (if run[0].peer == peer then 1 else 0) + Own(peer, run[1..])
  }

  /** The tokens an attempt finds are at least those held, and never above the limit. */
  lemma RefilledKeeps(bs: Buckets, peer: string, now: int, limit: int, n: nat)
    requires 0 < limit && n <= limit && (peer in bs ==> n as real <= bs[peer].tokens && bs[peer].last <= now)
    ensures n as real <= Refilled(bs, peer, now, limit)
  {
    if peer in bs {
      RefillAdds(now - bs[peer].last, 0, limit);
    }
  }

  /** A caller whose bucket holds n tokens, or is new, gets its next n calls, n up to the limit, whatever others do. */
  lemma {:induction false} BurstAdmitted(bs: Buckets, peer: string, run: seq<Attempt>, limit: int)
    requires 0 < limit && WellFilled(bs, limit) && Monotone(bs, run) && Own(peer, run) <= limit
    requires peer in bs ==> Own(peer, run) as real <= bs[peer].tokens
    ensures Admitted(bs, peer, run, limit) == Own(peer, run)
    decreases |run|
  {
    if run != [] {
      var a, rest := run[0], run[1..];
      assert run == [a] + rest;
      AfterKeeps(bs, a, rest, limit);
      if a.peer == peer {
        RefilledKeeps(bs, peer, a.now, limit, Own(peer, run));
      }
      BurstAdmitted(After(bs, a, limit), peer, rest, limit);
    }
  }

  function Run(bs: Buckets, run: seq<Attempt>, limit: int): Buckets
    decreases |run|
  {
    if run == [] then bs else Run(After(bs, run[0], limit), run[1..], limit)
  }

  /** How many calls of peer the run admits. */
  function Admitted(bs: Buckets, peer: string, run: seq<Attempt>, limit: int): nat
    decreases |run|
  {
    if run == [] then 0
    else (if run[0].peer == peer && Admits(bs, run[0], limit) then 1 else 0)
         + Admitted(After(bs, run[0], limit), peer, run[1..], limit)
  }

  /** The clock never goes backwards, and no bucket was touched after the first instant. */
  ghost predicate Monotone(bs: Buckets, run: seq<Attempt>) {
    && (forall p, i :: p in bs && 0 <= i < |run| ==> bs[p].last <= run[i].now)
    && (forall i, j :: 0 <= i < j < |run| ==> run[i].now <= run[j].now)
  }

  ghost predicate WellFilled(bs: Buckets, limit: int) {
    forall p :: p in bs ==> 0.0 <= bs[p].tokens <= limit as real
  }

  lemma RefillAdds(x: int, y: int, limit: int)
    requires 0 < limit
    ensures Refill(x, limit) + Refill(y, limit) == Refill(x + y, limit)
    ensures 0 <= x ==> 0.0 <= Refill(x, limit)
    ensures 0 <= y ==> 0.0 <= Refill(y, limit)
  {
  }

  lemma AfterFills(bs: Buckets, a: Attempt, limit: int)
    requires 0 < limit && WellFilled(bs, limit) && (a.peer in bs ==> bs[a.peer].last <= a.now)
    ensures WellFilled(After(bs, a, limit), limit)
  {
    if a.peer in bs {
      RefillAdds(a.now - bs[a.peer].last, 0, limit);
    }
  }

  lemma AfterKeeps(bs: Buckets, a: Attempt, rest: seq<Attempt>, limit: int)
    requires 0 < limit && WellFilled(bs, limit) && Monotone(bs, [a] + rest)
    ensures WellFilled(After(bs, a, limit), limit) && Monotone(After(bs, a, limit), rest)
  {
    var run := [a] + rest;
    assert run[0] == a;
    assert forall i :: 0 <= i < |rest| ==> rest[i] == run[i + 1];
    AfterFills(bs, a, limit);
  }

  /** From a bucket last touched at bs[peer].last, the tokens held plus the refill until end pay for every admission. */
  lemma {:induction false} TokensPay(bs: Buckets, peer: string, run: seq<Attempt>, limit: int, end: int)
    requires 0 < limit && WellFilled(bs, limit) && Monotone(bs, run) && peer in bs
    requires bs[peer].last <= end && forall i :: 0 <= i < |run| ==> run[i].now <= end
    ensures Admitted(bs, peer, run, limit) as real <= bs[peer].tokens + Refill(end - bs[peer].last, limit)
    decreases |run|
  {
    RefillAdds(end - bs[peer].last, 0, limit);
    if run != [] {
      var a, rest := run[0], run[1..];
      assert run == [a] + rest;
      AfterKeeps(bs, a, rest, limit);
      TokensPay(After(bs, a, limit), peer, rest, limit, end);
      if a.peer == peer {
        RefillAdds(a.now - bs[peer].last, end - a.now, limit);
      }
    }
  }

  /**
   * Whatever other callers do, and whatever was left in the bucket, one caller is admitted at most
   * limit + limit * T / 60 times in any interval of T seconds.
   */
  lemma {:induction false} AdmissionBound(bs: Buckets, peer: string, run: seq<Attempt>, limit: int,
                                          start: int, end: int)
    requires 0 < limit && WellFilled(bs, limit) && Monotone(bs, run)
    requires start <= end && forall i :: 0 <= i < |run| ==> start <= run[i].now <= end
    ensures Admitted(bs, peer, run, limit) as real <= limit as real + Refill(end - start, limit)
    decreases |run|
  {
    RefillAdds(end - start, 0, limit);
    if run != [] {
      var a, rest := run[0], run[1..];
      assert run == [a] + rest;
      AfterKeeps(bs, a, rest, limit);
      if a.peer != peer {
        AdmissionBound(After(bs, a, limit), peer, rest, limit, start, end);
      } else {
        var bs' := After(bs, a, limit);
        TokensPay(bs', peer, rest, limit, end);
        RefillAdds(a.now - start, end - a.now, limit);
      }
    }
  }

  /**
   * What a run leaves is again what AdmissionBound applies to, so the bound holds in every interval of a longer run.
   */
  lemma {:induction false} RunKeeps(bs: Buckets, run: seq<Attempt>, more: seq<Attempt>, limit: int)
    requires 0 < limit && WellFilled(bs, limit) && Monotone(bs, run + more)
    ensures WellFilled(Run(bs, run, limit), limit) && Monotone(Run(bs, run, limit), more)
    decreases |run|
  {
    if run == [] {
      assert run + more == more;
    } else {
      assert run + more == [run[0]] + (run[1..] + more);
      AfterKeeps(bs, run[0], run[1..] + more, limit);
      RunKeeps(After(bs, run[0], limit), run[1..], more, limit);
    }
  }
}
