/** Overlapping registrations funding themselves from one history: Register of directory/registrant.go as a machine. */
module FundRuns {
  import opened Wrappers
  import opened MapSums
  import opened FundHistory
  import RC = RollingCap

  /**
   * payee: the directory of each registration past the policy check; allowed: what it will pay, before it has read the
   * clock for its entry; stamped: its entry's time and atoms, before the entry is appended; due: recorded, not handed
   * to the payer; handed: what the payer was asked for.
   */
  datatype Fund = Fund(now: int, entries: History, payee: map<nat, string>, allowed: map<nat, int>,
                       stamped: map<nat, RC.Spend>, due: map<nat, int>, handed: int)

  /** Both the check and the record read the clock before they take the lock: at is what the check read. */
  datatype Step =
    | Tick(secs: nat)
    | Allow(id: nat, directory: string, shortfall: int, at: int)
    | Stamp(id: nat)
    | Record(id: nat)
    | Pay(id: nat)
    | Crash

  function Stamped(f: Fund, id: nat): Fund
    requires id in f.allowed
  {
    f.(allowed := f.allowed - {id}, stamped := f.stamped[id := RC.Spend(f.now, f.allowed[id], true)])
  }

  function Recorded(f: Fund, id: nat): Fund
    requires id in f.stamped && id in f.payee
  {
    f.(entries := f.entries + [FundEntry(f.stamped[id].ts, f.payee[id], f.stamped[id].atoms)],
       stamped := f.stamped - {id}, due := f.due[id := f.stamped[id].atoms])
  }

  function Next(f: Fund, p: AutoFund, s: Step): Option<Fund> {
    match s
    case Tick(secs) => Some(f.(now := f.now + secs))
    case Allow(id, directory, shortfall, at) =>
      if id in f.payee || at > f.now || shortfall <= 0 || !Allows(p, f.entries, at, directory, shortfall) then None
      else Some(f.(payee := f.payee[id := directory], allowed := f.allowed[id := shortfall]))
    case Stamp(id) => if id !in f.allowed then None else Some(Stamped(f, id))
    case Record(id) => if id !in f.stamped || id !in f.payee then None else Some(Recorded(f, id))
    case Pay(id) => if id !in f.due then None else Some(f.(due := f.due - {id}, handed := f.handed + f.due[id]))
    case Crash => Some(f.(allowed := map[], stamped := map[], due := map[]))
  }

  datatype Trace = Begin(now: int) | Then(before: Trace, step: Step)

  ghost function End(t: Trace, p: AutoFund): Option<Fund> {
    match t
    case Begin(now) => Some(Fund(now, [], map[], map[], map[], map[], 0))
    case Then(before, step) => if End(before, p).None? then None else Next(End(before, p).value, p, step)
  }

  /** A run in which at most k registrations are between the policy check and the record at any time. */
  ghost predicate Legal(t: Trace, p: AutoFund, k: nat) {
    && End(t, p).Some? && RC.Overlapping(AsMeter(End(t, p).value)) <= k
    && (t.Then? ==> Legal(t.before, p, k))
  }

  // ------------------------------------------------------------ the window

  function Spends(h: History): seq<RC.Spend> {
    seq(|h|, i requires 0 <= i < |h| => RC.Spend(h[i].ts, h[i].atoms, true))
  }

  function AsMeter(f: Fund): RC.Meter {
    RC.Meter(f.now, Spends(f.entries), f.allowed, f.stamped)
  }

  /**
   * A registration goes on in exactly these cases: the policy is enabled and names the directory or none, the
   * shortfall is within the cap per request, and with the entries of the last 30 days within the cap per month; a cap
   * that is not positive does not restrict.
   */
  lemma AllowedExactly(f: Fund, p: AutoFund, id: nat, directory: string, shortfall: int, at: int)
    requires id !in f.payee && at <= f.now && 0 < shortfall
    ensures Next(f, p, Allow(id, directory, shortfall, at))
         == if && p.enabled && (|p.allowed| == 0 || directory in p.allowed)
               && (p.maxPerRequest <= 0 || shortfall <= p.maxPerRequest)
               && (p.maxPerMonth <= 0 || TotalSince(f.entries, at - 2_592_000) + shortfall <= p.maxPerMonth) then
              Some(f.(payee := f.payee[id := directory], allowed := f.allowed[id := shortfall]))
            else
              None
  {
  }

  /** The most one request can take under both caps. */
  function PerRequest(p: AutoFund): int {
    if 0 < p.maxPerRequest <= p.maxPerMonth then p.maxPerRequest else p.maxPerMonth
  }

  function AsPolicy(p: AutoFund): RC.Policy {
    RC.Policy(MONTH, p.maxPerMonth, PerRequest(p))
  }

  lemma {:induction false} SameTotal(h: History, since: int, to: int)
    requires forall i :: 0 <= i < |h| ==> h[i].ts <= to
    ensures RC.CountedIn(Spends(h), since, to) == TotalSince(h, since)
  {
    if h != [] {
      assert Spends(h)[..|h| - 1] == Spends(h[..|h| - 1]);
      SameTotal(h[..|h| - 1], since, to);
    }
  }

  /** The meter's clock has passed every recorded payment. */
  lemma UpToNow(f: Fund)
    requires RC.Plain(AsMeter(f).log, f.now)
    ensures forall i :: 0 <= i < |f.entries| ==> f.entries[i].ts <= f.now
  {
    forall i | 0 <= i < |f.entries| ensures f.entries[i].ts <= f.now {
      assert AsMeter(f).log[i].ts == f.entries[i].ts;
    }
  }

  /** Registrations have a payee once past the check, and are in one place at a time. */
  ghost predicate Placed(f: Fund) {
    && f.allowed.Keys <= f.payee.Keys && f.stamped.Keys <= f.payee.Keys && f.due.Keys <= f.payee.Keys
    && f.allowed.Keys !! f.stamped.Keys && f.due.Keys !! (f.allowed.Keys + f.stamped.Keys)
  }

  lemma NextPlaced(f: Fund, p: AutoFund, s: Step)
    requires Placed(f) && Next(f, p, s).Some?
    ensures Placed(Next(f, p, s).value)
  {
  }

  lemma AllowIsCheck(f: Fund, p: AutoFund, k: nat, s: Step)
    requires Placed(f) && RC.Sound(AsMeter(f), AsPolicy(p), k) && 0 < p.maxPerMonth
    requires s.Allow? && Next(f, p, s).Some?
    ensures RC.Next(AsMeter(f), AsPolicy(p), RC.Check(s.id, s.shortfall, s.at)) == Some(AsMeter(Next(f, p, s).value))
  {
    UpToNow(f);
    SameTotal(f.entries, s.at - MONTH, f.now);
    RC.CountedNonNegative(AsMeter(f).log, s.at - MONTH, f.now, f.now);
  }

  lemma RecordIsAppend(f: Fund, p: AutoFund, k: nat, id: nat)
    requires RC.Sound(AsMeter(f), AsPolicy(p), k) && Next(f, p, Record(id)).Some?
    ensures RC.Next(AsMeter(f), AsPolicy(p), RC.Append(id)) == Some(AsMeter(Next(f, p, Record(id)).value))
  {
    var s := f.stamped[id];
    assert s.counts;
    assert Spends(f.entries + [FundEntry(s.ts, f.payee[id], s.atoms)]) == Spends(f.entries) + [s];
  }

  lemma TickIsTick(f: Fund, p: AutoFund, secs: nat)
    ensures RC.Next(AsMeter(f), AsPolicy(p), RC.Tick(secs)) == Some(AsMeter(f.(now := f.now + secs)))
  {
  }

  lemma StampIsStamp(f: Fund, p: AutoFund, id: nat)
    requires Placed(f) && id in f.allowed
    ensures RC.Next(AsMeter(f), AsPolicy(p), RC.Stamp(id)) == Some(AsMeter(Stamped(f, id)))
  {
  }

  /** Every step of a registration that goes on is a step of the meter, or leaves it alone. */
  lemma Refines(f: Fund, p: AutoFund, k: nat, s: Step) returns (t: Option<RC.Step>)
    requires Placed(f) && RC.Sound(AsMeter(f), AsPolicy(p), k) && 0 < p.maxPerMonth
    requires !s.Crash? && Next(f, p, s).Some?
    ensures if t.None? then AsMeter(Next(f, p, s).value) == AsMeter(f)
            else RC.Next(AsMeter(f), AsPolicy(p), t.value) == Some(AsMeter(Next(f, p, s).value))
  {
    if s.Tick? {
      TickIsTick(f, p, s.secs);
      t := Some(RC.Tick(s.secs));
    } else if s.Allow? {
      AllowIsCheck(f, p, k, s);
      t := Some(RC.Check(s.id, s.shortfall, s.at));
    } else if s.Stamp? {
      StampIsStamp(f, p, s.id);
      t := Some(RC.Stamp(s.id));
    } else if s.Record? {
      RecordIsAppend(f, p, k, s.id);
      t := Some(RC.Append(s.id));
    } else {
      t := None;
    }
  }

  lemma NextSound(f: Fund, p: AutoFund, k: nat, s: Step)
    requires Placed(f) && RC.Sound(AsMeter(f), AsPolicy(p), k) && 0 < p.maxPerMonth
    requires Next(f, p, s).Some? && RC.Overlapping(AsMeter(Next(f, p, s).value)) <= k
    ensures RC.Sound(AsMeter(Next(f, p, s).value), AsPolicy(p), k)
  {
    var m' := AsMeter(Next(f, p, s).value);
    if s.Crash? {
      RC.FewerKeeps(AsMeter(f), m', AsPolicy(p), k);
    } else {
      var t := Refines(f, p, k, s);
      if t.Some? {
        RC.NextKeeps(AsMeter(f), AsPolicy(p), k, t.value);
      }
    }
  }

  lemma {:induction false} RunPlaced(t: Trace, p: AutoFund)
    requires End(t, p).Some?
    ensures Placed(End(t, p).value)
  {
    if t.Then? {
      RunPlaced(t.before, p);
      NextPlaced(End(t.before, p).value, p, t.step);
    }
  }

  lemma {:induction false} RunSound(t: Trace, p: AutoFund, k: nat)
    requires 1 <= k && 0 < p.maxPerMonth && Legal(t, p, k)
    ensures RC.Sound(AsMeter(End(t, p).value), AsPolicy(p), k)
  {
    match t {
      case Begin(now) =>
        RC.FreshIsSound(now, AsPolicy(p), k);
        assert Spends([]) == [];
      case Then(before, step) =>
        RunSound(before, p, k);
        RunPlaced(before, p);
        NextSound(End(before, p).value, p, k, step);
    }
  }

  function FundedBetween(h: History, from: int, to: int): int {
    RC.CountedIn(Spends(h), from, to)
  }

  /**
   * With a monthly cap, at most k registrations overlapping and whatever crashes, the payments recorded in any
   * 30 days are at most the cap plus k - 1 requests of the largest size; one at a time, at most the cap.
   */
  lemma {:induction false} MonthlyCap(t: Trace, p: AutoFund, f: Fund, k: nat, from: int, to: int)
    requires 1 <= k && 0 < p.maxPerMonth && Legal(t, p, k) && End(t, p) == Some(f) && to <= from + 2_592_000
    ensures FundedBetween(f.entries, from, to) <= p.maxPerMonth + (k - 1) * PerRequest(p)
    ensures k == 1 ==> FundedBetween(f.entries, from, to) <= p.maxPerMonth
  {
    RunSound(t, p, k);
    RC.WindowBound(AsMeter(f), AsPolicy(p), k, from, to);
  }

  // ------------------------------------------------------------ the record comes first

  function TotalOf(h: History): int {
    if h == [] then 0 else TotalOf(h[..|h| - 1]) + h[|h| - 1].atoms
  }

  predicate Sanctioned(p: AutoFund, directory: string, atoms: int) {
    && p.enabled && 0 < atoms
    && (p.allowed == [] || directory in p.allowed)
    && (p.maxPerRequest > 0 ==> atoms <= p.maxPerRequest)
  }

  /** What is recorded covers what was handed over and what still will be; everything obeyed the policy's own terms. */
  ghost predicate Covered(f: Fund, p: AutoFund) {
    && f.handed + Sum(f.due) <= TotalOf(f.entries)
    && (forall id :: id in f.due ==> 0 < f.due[id])
    && (forall id :: id in f.allowed ==> id in f.payee && Sanctioned(p, f.payee[id], f.allowed[id]))
    && (forall id :: id in f.stamped ==> id in f.payee && Sanctioned(p, f.payee[id], f.stamped[id].atoms))
    && (forall i :: 0 <= i < |f.entries| ==> Sanctioned(p, f.entries[i].directory, f.entries[i].atoms))
  }

  lemma RecordCovered(f: Fund, p: AutoFund, id: nat)
    requires Placed(f) && Covered(f, p) && Next(f, p, Record(id)).Some?
    ensures Covered(Next(f, p, Record(id)).value, p)
  {
    var e := FundEntry(f.stamped[id].ts, f.payee[id], f.stamped[id].atoms);
    assert TotalOf(f.entries + [e]) == TotalOf(f.entries) + e.atoms by {
      assert (f.entries + [e])[..|f.entries|] == f.entries;
    }
    SumStore(f.due, id, e.atoms);
  }

  lemma NextCovered(f: Fund, p: AutoFund, s: Step)
    requires Placed(f) && Covered(f, p) && Next(f, p, s).Some?
    ensures Covered(Next(f, p, s).value, p)
  {
    match s {
      case Tick(_) =>
      case Allow(_, _, _, _) =>
      case Stamp(_) =>
      case Record(id) => RecordCovered(f, p, id);
      case Pay(id) => SumDrop(f.due, id);
      case Crash => SumNonNegative(f.due);
    }
  }

  /**
   * Crashes included, the history never shows less than the payer was asked for, and every payment in it went
   * to an allowed directory, within the cap per request, under an enabled policy.
   */
  lemma {:induction false} RecordedFirst(t: Trace, p: AutoFund)
    requires End(t, p).Some?
    ensures Covered(End(t, p).value, p)
    ensures End(t, p).value.handed <= TotalOf(End(t, p).value.entries)
  {
    if t.Then? {
      RecordedFirst(t.before, p);
      RunPlaced(t.before, p);
      NextCovered(End(t.before, p).value, p, t.step);
    }
    SumNonNegative(End(t, p).value.due);
  }
}
