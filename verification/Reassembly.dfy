/** Bounded reassembly of multi-part messages (the Assembler of wire/wire.go). Instants are nanoseconds. */
module Reassembly {
  import opened Wrappers
  import opened Bytes
  import opened MapSums
  import opened Wire

  const SECOND := 1_000_000_000

  datatype Config = Config(maxPendingPerPeer: int, maxMessageBytes: int, maxTotalBytes: int, timeout: int)

  function WithDefaults(c: Config): (d: Config)
    ensures if 0 < c.maxPendingPerPeer then d.maxPendingPerPeer == c.maxPendingPerPeer else d.maxPendingPerPeer == 8
    ensures if 0 < c.maxMessageBytes then d.maxMessageBytes == c.maxMessageBytes else d.maxMessageBytes == 16_777_216
    ensures if 0 < c.maxTotalBytes then d.maxTotalBytes == c.maxTotalBytes else d.maxTotalBytes == 67_108_864
    ensures if 0 < c.timeout then d.timeout == c.timeout else d.timeout == 600_000_000_000
  {
    Config(if c.maxPendingPerPeer <= 0 then 8 else c.maxPendingPerPeer,
           if c.maxMessageBytes <= 0 then 16 * 1024 * 1024 else c.maxMessageBytes,
           if c.maxTotalBytes <= 0 then 64 * 1024 * 1024 else c.maxTotalBytes,
           if c.timeout <= 0 then 600 * SECOND else c.timeout)
  }

  ghost predicate Positive(c: Config) {
    0 < c.maxPendingPerPeer && 0 < c.maxMessageBytes && 0 < c.maxTotalBytes && 0 < c.timeout
  }

  datatype Message = Message(parts: map<int, Blob>, total: nat, bytes: int, exp: int, firstSeen: int, peer: string)

  type Pending = map<string, Message>

  datatype Outcome = Partial | Complete(payload: Blob) | Expired | OverLimit | Overflow | Inconsistent

  function KeyOf(peer: string, sid: string, mid: string): string {
    peer + "/" + sid + "/" + mid
  }

  predicate DeadlinePassed(exp: int, now: int) {
    exp > 0 && now / SECOND > exp
  }

  predicate Stale(m: Message, c: Config, now: int) {
    DeadlinePassed(m.exp, now) || now - m.firstSeen > c.timeout
  }

  function CountOf(perPeer: map<string, int>, peer: string): int {
    if peer in perPeer then perPeer[peer] else 0
  }

  function Joined(parts: map<int, Blob>, n: nat): Blob {
    if n == 0 then [] else Joined(parts, n - 1) + (if n in parts then parts[n] else [])
  }

  // ---------------------------------------------------------------------------------------------
  // What the counters stand for

  ghost function Sizes(parts: map<int, Blob>): map<int, int> {
    map i | i in parts :: |parts[i]|
  }

  ghost function ChunkBytes(parts: map<int, Blob>): int {
    Sum(Sizes(parts))
  }

  ghost function TotalBytes(p: Pending): int {
    Sum(map k | k in p :: p[k].bytes)
  }

  ghost function MessagesOf(p: Pending, peer: string): set<string> {
    set k | k in p && p[k].peer == peer
  }

  /** Byte count and part numbers of one message are in order; it may still be empty. */
  ghost predicate Consistent(m: Message, c: Config) {
    && 2 <= m.total
    && (forall i :: i in m.parts ==> 1 <= i <= m.total)
    && |m.parts| < m.total
    && m.bytes == ChunkBytes(m.parts) <= c.maxMessageBytes
  }

  ghost predicate Bounded(p: Pending, c: Config) {
    && TotalBytes(p) <= c.maxTotalBytes
    && (forall peer :: |MessagesOf(p, peer)| <= c.maxPendingPerPeer)
  }

  /** bytes and perPeer say about pending what they are meant to say. */
  ghost predicate Counted(p: Pending, perPeer: map<string, int>, bytes: int) {
    && bytes == TotalBytes(p)
    && (forall peer :: CountOf(perPeer, peer) == |MessagesOf(p, peer)|)
    && (forall peer :: peer in perPeer ==> 0 < perPeer[peer])
  }

  ghost predicate AllConsistent(p: Pending, c: Config) {
    forall k :: k in p ==> Consistent(p[k], c) && p[k].parts != map[]
  }

  lemma StoreBytes(p: Pending, k: string, m: Message)
    ensures TotalBytes(p[k := m]) == TotalBytes(p) - (if k in p then p[k].bytes else 0) + m.bytes
  {
    var sizes, after := map q | q in p :: p[q].bytes, p[k := m];
    assert (map q | q in after :: after[q].bytes) == sizes[k := m.bytes];
    SumStore(sizes, k, m.bytes);
  }

  lemma DropBytes(p: Pending, k: string)
    requires k in p
    ensures TotalBytes(p - {k}) == TotalBytes(p) - p[k].bytes
  {
    var sizes, after := map q | q in p :: p[q].bytes, p - {k};
    assert (map q | q in after :: after[q].bytes) == sizes - {k};
    SumDrop(sizes, k);
  }

  lemma StoreCount(p: Pending, k: string, m: Message, peer: string)
    requires k in p ==> p[k].peer == m.peer
    ensures |MessagesOf(p[k := m], peer)| == |MessagesOf(p, peer)| + (if k !in p && m.peer == peer then 1 else 0)
  {
    var was := MessagesOf(p, peer);
    StoreMessages(p, k, m, peer);
    if m.peer != peer {
      assert was + {} == was;
    } else if k in p {
      assert was + {k} == was;
    } else {
      assert |was + {k}| == |was| + 1;
    }
  }

  lemma StoreMessages(p: Pending, k: string, m: Message, peer: string)
    requires k in p ==> p[k].peer == m.peer
    ensures MessagesOf(p[k := m], peer) == MessagesOf(p, peer) + (if m.peer == peer then {k} else {})
    ensures k in p && m.peer == peer ==> k in MessagesOf(p, peer)
    ensures k !in p ==> k !in MessagesOf(p, peer)
  {
  }

  lemma DropCount(p: Pending, k: string, peer: string)
    requires k in p
    ensures |MessagesOf(p - {k}, peer)| == |MessagesOf(p, peer)| - (if p[k].peer == peer then 1 else 0)
  {
    var was, now := MessagesOf(p, peer), MessagesOf(p - {k}, peer);
    if p[k].peer == peer {
      assert k in was && now == was - {k};
    } else {
      assert now == was;
    }
  }

  lemma FewerIsBounded(p: Pending, q: Pending, c: Config)
    requires Bounded(p, c) && AllConsistent(p, c)
    requires q.Keys <= p.Keys && forall k :: k in q ==> q[k] == p[k]
    ensures Bounded(q, c) && AllConsistent(q, c)
  {
    var big, small := map k | k in p :: p[k].bytes, map k | k in q :: q[k].bytes;
    forall k | k in p ensures 0 <= big[k] {
      SumNonNegative(map i | i in p[k].parts :: |p[k].parts[i]|);
    }
    SumMonotone(small, big);
    forall peer ensures |MessagesOf(q, peer)| <= c.maxPendingPerPeer {
      SubsetSize(MessagesOf(q, peer), MessagesOf(p, peer));
    }
  }

  lemma SubsetSize<T>(a: set<T>, b: set<T>)
    requires a <= b
    ensures |a| <= |b|
  {
    assert b == a + (b - a);
  }

  // ---------------------------------------------------------------------------------------------
  // The assembler without its counters

  function Collected(p: Pending, c: Config, now: int): Pending {
    map k | k in p && !Stale(p[k], c, now) :: p[k]
  }

  function Opened(p: Pending, key: string, peer: string, part: Part, now: int): Message {
    if key in p then p[key] else Message(map[], if part.total < 0 then 0 else part.total, 0, part.exp, now, peer)
  }

  /** The effect of Add on the pending messages, and its answer. */
  ghost function Added(p: Pending, c: Config, peer: string, part: Part, now: int): (Pending, Outcome) {
    if DeadlinePassed(part.exp, now) then (p, Expired)
    else if part.total == 1 then
      (p, if |part.chunk| > c.maxMessageBytes then OverLimit else Complete(part.chunk))
    else
      AddedPart(Collected(p, c, now), c, peer, part, now)
  }

  /** The same, once stale messages are gone and the part is known to be one of several. */
  ghost function AddedPart(p1: Pending, c: Config, peer: string, part: Part, now: int): (Pending, Outcome) {
    var key := KeyOf(peer, part.sid, part.mid);
    var m := Opened(p1, key, peer, part, now);
    if key !in p1 && |MessagesOf(p1, peer)| >= c.maxPendingPerPeer then (p1, Overflow)
    else if part.total != m.total then (p1 - {key}, Inconsistent)
    else if part.number in m.parts then (p1, Partial)
    else Extended(p1, c, key, m, part)
  }

  /** A new part of message m, which p1 holds or is about to hold under key. */
  ghost function Extended(p1: Pending, c: Config, key: string, m: Message, part: Part): (Pending, Outcome) {
    if m.bytes + |part.chunk| > c.maxMessageBytes || TotalBytes(p1) + |part.chunk| > c.maxTotalBytes
    then (p1 - {key}, OverLimit)
    else
      var m' := Grown(m, part.number, part.chunk);
      if |m'.parts| < m.total then (p1[key := m'], Partial)
      else (p1 - {key}, Complete(Joined(m'.parts, m.total)))
  }

  /**
   * Add by the cause of its answer, in the order the causes are looked at: a deadline that passed, a message of one
   * part, and else what AddedPartByCases says of the messages whose deadline has not passed and that have not stalled.
   */
  lemma AddedByCases(p: Pending, c: Config, peer: string, part: Part, now: int, live: Pending)
    requires forall k :: k in live <==>
               k in p && (0 < p[k].exp ==> now / 1_000_000_000 <= p[k].exp) && now - p[k].firstSeen <= c.timeout
    requires forall k :: k in live ==> live[k] == p[k]
    ensures var (q, r) := Added(p, c, peer, part, now);
            if 0 < part.exp && part.exp < now / 1_000_000_000 then r == Expired && q == p
            else if part.total == 1 then
              q == p && r == (if |part.chunk| <= c.maxMessageBytes then Complete(part.chunk) else OverLimit)
            else (q, r) == AddedPart(live, c, peer, part, now)
  {
    assert live == Collected(p, c, now);
  }

  /** One of several parts: too many messages of the peer, another part count, a repeat, or a part to store. */
  lemma AddedPartByCases(live: Pending, c: Config, peer: string, part: Part, now: int)
    requires 1 <= part.number <= part.total
    ensures var (q, r) := AddedPart(live, c, peer, part, now);
            var key := peer + "/" + part.sid + "/" + part.mid;
            if key !in live && |set k | k in live && live[k].peer == peer| >= c.maxPendingPerPeer then
              r == Overflow && q == live
            else
              var m := if key in live then live[key] else Message(map[], part.total, 0, part.exp, now, peer);
              if part.total != m.total then r == Inconsistent && q == live - {key}
              else if part.number in m.parts then r == Partial && q == live
              else (q, r) == Extended(live, c, key, m, part)
  {
    assert MessagesOf(live, peer) == set k | k in live && live[k].peer == peer;
  }

  /** A part to store: beyond a bound, one of those still incomplete, or the last one. */
  lemma ExtendedByCases(live: Pending, c: Config, key: string, m: Message, part: Part)
    ensures var (q, r) := Extended(live, c, key, m, part);
            if m.bytes + |part.chunk| > c.maxMessageBytes || TotalBytes(live) + |part.chunk| > c.maxTotalBytes then
              r == OverLimit && q == live - {key}
            else
              var parts := m.parts[part.number := part.chunk];
              if |parts| < m.total then
                r == Partial && q == live[key := m.(parts := parts, bytes := m.bytes + |part.chunk|)]
              else r == Complete(Joined(parts, m.total)) && q == live - {key}
  {
  }

  lemma ChunkStored(parts: map<int, Blob>, i: int, chunk: Blob)
    requires i !in parts
    ensures ChunkBytes(parts[i := chunk]) == ChunkBytes(parts) + |chunk|
    ensures |parts[i := chunk]| == |parts| + 1
  {
    assert Sizes(parts[i := chunk]) == Sizes(parts)[i := |chunk|];
    SumStore(Sizes(parts), i, |chunk|);
    OneMorePart(parts, i, chunk);
  }

  lemma OneMorePart(parts: map<int, Blob>, i: int, chunk: Blob)
    requires i !in parts
    ensures |parts[i := chunk]| == |parts| + 1
  {
    assert parts[i := chunk].Keys == parts.Keys + {i};
  }

  lemma DropStored(p: Pending, key: string, m: Message)
    ensures p[key := m] - {key} == p - {key}
  {
  }

  lemma StoreTwice(p: Pending, key: string, m: Message, n: Message)
    ensures p[key := m][key := n] == p[key := n]
    ensures p[key := m][key] == m
  {
  }

  function Grown(m: Message, number: int, chunk: Blob): Message {
    m.(parts := m.parts[number := chunk], bytes := m.bytes + |chunk|)
  }

  lemma GrownConsistent(m: Message, number: int, chunk: Blob, c: Config)
    requires Consistent(m, c) && 1 <= number <= m.total && number !in m.parts
    requires m.bytes + |chunk| <= c.maxMessageBytes
    ensures |Grown(m, number, chunk).parts| == |m.parts| + 1
    ensures |m.parts| + 1 < m.total ==> Consistent(Grown(m, number, chunk), c)
    ensures number in Grown(m, number, chunk).parts
  {
    ChunkStored(m.parts, number, chunk);
  }

  /** Storing m under key leaves everything in bounds if m and the total are. */
  lemma WithinBounds(p: Pending, key: string, m: Message, c: Config)
    requires Bounded(p, c) && AllConsistent(p, c)
    requires Consistent(m, c) && m.parts != map[] && TotalBytes(p[key := m]) <= c.maxTotalBytes
    requires key in p ==> p[key].peer == m.peer
    requires key !in p ==> |MessagesOf(p, m.peer)| < c.maxPendingPerPeer
    ensures Bounded(p[key := m], c) && AllConsistent(p[key := m], c)
  {
    var q := p[key := m];
    forall peer ensures |MessagesOf(q, peer)| <= c.maxPendingPerPeer {
      StoreCount(p, key, m, peer);
    }
  }

  class Assembler {
    const cfg: Config
    var pending: Pending
    var perPeer: map<string, int>
    var bytes: int

    /** The counters agree with the pending messages, and everything is within bounds. */
    ghost predicate Valid()
      reads this
    {
      && Positive(cfg)
      && Counted(pending, perPeer, bytes)
      && AllConsistent(pending, cfg)
      && Bounded(pending, cfg)
    }

    constructor (c: Config)
      ensures Valid() && pending == map[] && cfg == WithDefaults(c)
    {
      cfg := WithDefaults(c);
      pending, perPeer, bytes := map[], map[], 0;
    }

    method DropLocked(key: string)
      requires key in pending && Counted(pending, perPeer, bytes)
      modifies this
      ensures pending == old(pending) - {key} && Counted(pending, perPeer, bytes)
    {
      var m := pending[key];
      DropBytes(pending, key);
      forall peer
        ensures |MessagesOf(pending - {key}, peer)|
             == |MessagesOf(pending, peer)| - (if m.peer == peer then 1 else 0)
      {
        DropCount(pending, key, peer);
      }
      assert m.peer in perPeer by {
        assert key in MessagesOf(pending, m.peer);
      }
      bytes := bytes - m.bytes;
      if perPeer[m.peer] <= 1 {
        perPeer := perPeer - {m.peer};
      } else {
        perPeer := perPeer[m.peer := perPeer[m.peer] - 1];
      }
      pending := pending - {key};
    }

    method GcLocked(now: int)
      requires Valid()
      modifies this
      ensures Valid() && pending == Collected(old(pending), cfg, now)
      ensures forall k :: k in pending ==> pending[k] == old(pending)[k]
      ensures forall k :: k in pending <==>
                && k in old(pending)
                && (0 < old(pending)[k].exp ==> now / 1_000_000_000 <= old(pending)[k].exp)
                && now - old(pending)[k].firstSeen <= cfg.timeout
    {
      CollectLoop(now);
      FewerIsBounded(old(pending), pending, cfg);
    }

    method CollectLoop(now: int)
      requires Counted(pending, perPeer, bytes)
      modifies this
      ensures Counted(pending, perPeer, bytes) && pending == Collected(old(pending), cfg, now)
    {
      ghost var was := pending;
      var todo := pending.Keys;
      while todo != {}
        invariant todo <= pending.Keys && Counted(pending, perPeer, bytes)
        invariant forall k :: k in pending <==> k in was && (k in todo || !Stale(was[k], cfg, now))
        invariant forall k :: k in pending ==> pending[k] == was[k]
        decreases todo
      {
        var key :| key in todo;
        todo := todo - {key};
        var m := pending[key];
        if (m.exp > 0 && now / SECOND > m.exp) || now - m.firstSeen > cfg.timeout {
          DropLocked(key);
        }
      }
    }

    /** The counting implementation answers and changes pending as the counter-free one does. */
    method Add(peer: string, part: Part, now: int) returns (r: Outcome)
      requires Valid() && 1 <= part.number <= part.total
      modifies this
      ensures Valid()
      ensures (pending, r) == Added(old(pending), cfg, peer, part, now)
      ensures var expired := 0 < part.exp && part.exp < now / 1_000_000_000;
              && (expired <==> r == Expired)
              && (expired || part.total == 1 ==> pending == old(pending))
              && (!expired && part.total == 1 ==>
                    r == if |part.chunk| <= cfg.maxMessageBytes then Complete(part.chunk) else OverLimit)
    {
      if DeadlinePassed(part.exp, now) {
        return Expired;
      }
      if part.total == 1 {
        if |part.chunk| > cfg.maxMessageBytes {
          return OverLimit;
        }
        return Complete(part.chunk);
      }
      GcLocked(now);
      r := AddPart(peer, part, now);
    }

    method AddPart(peer: string, part: Part, now: int) returns (r: Outcome)
      requires Valid() && 1 <= part.number <= part.total && 2 <= part.total
      modifies this
      ensures Valid()
      ensures (pending, r) == AddedPart(old(pending), cfg, peer, part, now)
    {
      var key := KeyOf(peer, part.sid, part.mid);
      ghost var p1 := pending;
      if key !in pending {
        if CountOf(perPeer, peer) >= cfg.maxPendingPerPeer {
          return Overflow;
        }
        Open(key, Message(map[], part.total, 0, part.exp, now, peer));
      }
      var m := pending[key];
      assert pending == p1[key := m] && m == Opened(p1, key, peer, part, now);
      if part.total != m.total {
        Discard(key, p1);
        return Inconsistent;
      }
      if part.number in m.parts {
        return Partial;
      }
      r := Extend(key, m, part, p1);
    }

    method Extend(key: string, m: Message, part: Part, ghost p1: Pending) returns (r: Outcome)
      requires pending == p1[key := m] && Counted(pending, perPeer, bytes) && bytes == TotalBytes(p1)
      requires part.number !in m.parts && 1 <= part.number <= part.total == m.total && Consistent(m, cfg)
      requires Positive(cfg) && Bounded(p1, cfg) && AllConsistent(p1, cfg)
      requires key in p1 ==> p1[key] == m
      requires key !in p1 ==> |MessagesOf(p1, m.peer)| < cfg.maxPendingPerPeer
      modifies this
      ensures Valid()
      ensures (pending, r) == Extended(p1, cfg, key, m, part)
    {
      if m.bytes + |part.chunk| > cfg.maxMessageBytes || bytes + |part.chunk| > cfg.maxTotalBytes {
        Discard(key, p1);
        return OverLimit;
      }
      GrownConsistent(m, part.number, part.chunk, cfg);
      Store(key, part.number, part.chunk);
      StoreTwice(p1, key, m, Grown(m, part.number, part.chunk));
      r := Settle(key, Grown(m, part.number, part.chunk), p1);
    }

    /** Delivers the message if all its parts are there. */
    method Settle(key: string, m: Message, ghost p1: Pending) returns (r: Outcome)
      requires pending == p1[key := m] && Counted(pending, perPeer, bytes)
      requires Positive(cfg) && Bounded(p1, cfg) && AllConsistent(p1, cfg) && bytes <= cfg.maxTotalBytes
      requires |m.parts| < m.total ==> Consistent(m, cfg) && m.parts != map[]
      requires key in p1 ==> p1[key].peer == m.peer
      requires key !in p1 ==> |MessagesOf(p1, m.peer)| < cfg.maxPendingPerPeer
      modifies this
      ensures Valid()
      ensures if |m.parts| < m.total then pending == p1[key := m] && r == Partial
              else pending == p1 - {key} && r == Complete(Joined(m.parts, m.total))
    {
      if |m.parts| < m.total {
        WithinBounds(p1, key, m, cfg);
        return Partial;
      }
      var full := Collect(m);
      Discard(key, p1);
      r := Complete(full);
    }

    /** Drops the message at hand; what is left was in bounds before it. */
    method Discard(key: string, ghost p1: Pending)
      requires key in pending && Counted(pending, perPeer, bytes) && pending == p1[key := pending[key]]
      requires Positive(cfg) && Bounded(p1, cfg) && AllConsistent(p1, cfg)
      modifies this
      ensures Valid() && pending == p1 - {key}
    {
      DropStored(p1, key, pending[key]);
      DropLocked(key);
      FewerIsBounded(p1, pending, cfg);
    }

    method Store(key: string, number: int, chunk: Blob)
      requires key in pending && Counted(pending, perPeer, bytes)
      modifies this
      ensures Counted(pending, perPeer, bytes) && bytes == old(bytes) + |chunk|
      ensures pending == old(pending)[key := Grown(old(pending)[key], number, chunk)]
    {
      var m := Grown(pending[key], number, chunk);
      StoreBytes(pending, key, m);
      forall peer ensures |MessagesOf(pending[key := m], peer)| == |MessagesOf(pending, peer)| {
        StoreCount(pending, key, m, peer);
      }
      pending := pending[key := m];
      bytes := bytes + |chunk|;
    }

    method Collect(m: Message) returns (full: Blob)
      ensures full == Joined(m.parts, m.total)
    {
      full := [];
      for i := 1 to m.total + 1
        invariant full == Joined(m.parts, i - 1)
      {
        if i in m.parts {
          full := full + m.parts[i];
        }
      }
    }

    /** The entry of a new message, still without parts. */
    method Open(key: string, m: Message)
      requires Counted(pending, perPeer, bytes) && key !in pending && m.bytes == 0
      modifies this
      ensures Counted(pending, perPeer, bytes) && pending == old(pending)[key := m] && bytes == old(bytes)
    {
      StoreBytes(pending, key, m);
      forall peer
        ensures |MessagesOf(pending[key := m], peer)| == |MessagesOf(pending, peer)| + (if m.peer == peer then 1 else 0)
      {
        StoreCount(pending, key, m, peer);
      }
      ghost var was := pending;
      pending := pending[key := m];
      perPeer := perPeer[m.peer := CountOf(perPeer, m.peer) + 1];
      assert forall peer :: |MessagesOf(pending, peer)| == |MessagesOf(was, peer)| + (if m.peer == peer then 1 else 0);
      assert forall peer :: CountOf(perPeer, peer) == CountOf(old(perPeer), peer) + (if m.peer == peer then 1 else 0);
    }
  }
}
