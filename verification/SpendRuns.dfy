/**
 * The bridge paying under its caps (settle in bridge/payment.go), as a machine whose steps are the
 * sections run under the bridge's lock. Many settlements overlap; restarts and late outcomes interleave.
 */
module SpendRuns {
  import opened Wrappers
  import opened Search
  import opened SpendLog
  import P = Passthrough
  import RC = RollingCap
  import Settlement

  /**
   * checked: payments past the cap check and not recorded; live: numbers of payments handed to the rail
   * whose settle has not returned; gone: the entries pruning dropped.
   */
  datatype Bridge = Bridge(now: int, gone: Log, spend: Log, spendSeq: nat, checked: map<nat, int>, live: set<nat>)

  datatype Step =
    | Tick(secs: nat)
    | Ask(id: nat, shortfall: int, price: int)
    | GiveUp(id: nat)
    | Refuse(bot: string, tool: string, atoms: int, reason: string)
    | Launch(id: nat, bot: string, tool: string)
    | MarkPaid(num: nat)
    | MarkFailed(num: nat, err: string)
    | Abandon(num: nat)
    | Resolve(uid: string, atoms: int, res: Option<string>)
    | Restart

  /** The caps of the settings; they do not change during a run. */
  datatype Caps = Caps(perDay: int, perCall: int)

  /** The three tests settle makes, in both payment modes. */
  predicate Passes(b: Bridge, c: Caps, atoms: int) {
    && 0 < atoms
    && !(c.perCall <= 0 || atoms > c.perCall)
    && !(c.perDay <= 0 || SpentSince(b.spend, b.now - DAY) + atoms > c.perDay)
  }

  /** The log becomes the given one, pruned and written. */
  function Persisted(b: Bridge, log: Log): Bridge {
    var n := Dropped(log, b.now);
    b.(gone := b.gone + log[..n], spend := log[n..])
  }

  function WithMark(b: Bridge, num: nat, status: Status, err: string): Bridge {
    if First(b.spend, Numbered(num)) < |b.spend| then Persisted(b, Marked(b.spend, num, status, err)) else b
  }

  function WithOutcome(b: Bridge, uid: string, atoms: int, res: Option<string>): Bridge {
    if First(b.spend, AwaitedBy(uid, atoms)) < |b.spend| then Persisted(b, Resolved(b.spend, uid, atoms, res)) else b
  }

  /** A new entry with the next number. */
  function Appended(b: Bridge, bot: string, tool: string, atoms: int, status: Status, err: string): Bridge {
    Persisted(b.(spendSeq := b.spendSeq + 1),
              b.spend + [Entry(b.now, bot, tool, "tip", atoms, status, err, b.spendSeq + 1)])
  }

  /** The pending entry of a checked payment, and the payment on the rail. */
  function Launched(b: Bridge, id: nat, bot: string, tool: string): Bridge
    requires id in b.checked
  {
    Appended(b, bot, tool, b.checked[id], Pending, "")
    .(checked := b.checked - {id}, live := b.live + {b.spendSeq + 1})
  }

  function Next(b: Bridge, c: Caps, s: Step): Option<Bridge> {
    match s
    case Tick(secs) => Some(b.(now := b.now + secs))
    case Ask(id, shortfall, price) =>
      if id in b.checked || !Passes(b, c, P.Amount(price, shortfall)) then None
      else Some(b.(checked := b.checked[id := P.Amount(price, shortfall)]))
    case GiveUp(id) => Some(b.(checked := b.checked - {id}))
    case Refuse(bot, tool, atoms, reason) => Some(Appended(b, bot, tool, atoms, Refused, reason))
    case Launch(id, bot, tool) =>
      if id !in b.checked then None
      else Some(Launched(b, id, bot, tool))
    case MarkPaid(num) => if num !in b.live then None else Some(WithMark(b, num, Paid, "").(live := b.live - {num}))
    case MarkFailed(num, err) =>
      if num !in b.live then None else Some(WithMark(b, num, Failed, err).(live := b.live - {num}))
    case Abandon(num) => Some(b.(live := b.live - {num}))
    case Resolve(uid, atoms, res) => Some(WithOutcome(b, uid, atoms, res))
    case Restart => Some(b.(spend := Unnumbered(b.spend), spendSeq := 0, checked := map[], live := {}))
  }

  /** Everything ever recorded, with the latest outcomes. */
  function History(b: Bridge): Log {
    b.gone + b.spend
  }

  function AsSpend(e: Entry): RC.Spend {
    RC.Spend(e.ts, e.atoms, Counts(e.status))
  }

  function Spends(log: Log): seq<RC.Spend> {
    seq(|log|, i requires 0 <= i < |log| => AsSpend(log[i]))
  }

  function AsMeter(b: Bridge): RC.Meter {
    RC.Meter(b.now, Spends(History(b)), b.checked, map[])
  }

  function AsPolicy(c: Caps): RC.Policy {
    RC.Policy(DAY, c.perDay, c.perCall)
  }

  // ------------------------------------------------------------ the log is a faithful meter

  ghost predicate UpTo(log: Log, now: int) {
    forall i :: 0 <= i < |log| ==> log[i].ts <= now
  }

  ghost predicate MayBeGone(log: Log, cut: int) {
    forall i :: 0 <= i < |log| ==> !MustStay(log[i], cut)
  }

  /** No entry is from the future, and pruning dropped nothing that must still stay. */
  ghost predicate Kept(b: Bridge) {
    UpTo(b.gone, b.now) && UpTo(b.spend, b.now) && MayBeGone(b.gone, b.now - DAY)
  }

  lemma {:induction false} SameTotal(log: Log, from: int, to: int)
    requires UpTo(log, to)
    ensures RC.CountedIn(Spends(log), from, to) == SpentSince(log, from)
  {
    if log != [] {
      assert Spends(log)[..|log| - 1] == Spends(log[..|log| - 1]);
      SameTotal(log[..|log| - 1], from, to);
    }
  }

  /** The total the cap check reads, over the pruned log, is the total over everything ever recorded. */
  lemma TotalIsTrue(b: Bridge, cut: int)
    requires Kept(b) && b.now - DAY <= cut
    ensures SpentSince(b.spend, cut) == RC.CountedIn(AsMeter(b).log, cut, b.now)
  {
    SpentAppend(b.gone, b.spend, cut);
    UnprotectedIsSpent(b.gone, b.now - DAY, cut);
    SameTotal(History(b), cut, b.now);
  }

  lemma PersistedKeeps(b: Bridge, log: Log)
    requires Kept(b) && UpTo(log, b.now)
    ensures Kept(Persisted(b, log))
  {
    DroppedMayGo(log, b.now);
  }

  lemma PersistedHistory(b: Bridge, log: Log)
    ensures History(Persisted(b, log)) == b.gone + log
  {
    assert log == log[..Dropped(log, b.now)] + log[Dropped(log, b.now)..];
  }

  lemma AppendedKept(b: Bridge, bot: string, tool: string, atoms: int, status: Status, err: string)
    requires Kept(b)
    ensures Kept(Appended(b, bot, tool, atoms, status, err))
  {
    PersistedKeeps(b.(spendSeq := b.spendSeq + 1),
                   b.spend + [Entry(b.now, bot, tool, "tip", atoms, status, err, b.spendSeq + 1)]);
  }

  lemma MarkKept(b: Bridge, num: nat, status: Status, err: string)
    requires Kept(b)
    ensures Kept(WithMark(b, num, status, err))
  {
    PersistedKeeps(b, Marked(b.spend, num, status, err));
  }

  lemma OutcomeKept(b: Bridge, uid: string, atoms: int, res: Option<string>)
    requires Kept(b)
    ensures Kept(WithOutcome(b, uid, atoms, res))
  {
    PersistedKeeps(b, Resolved(b.spend, uid, atoms, res));
  }

  lemma NextKept(b: Bridge, c: Caps, s: Step)
    requires Kept(b) && Next(b, c, s).Some?
    ensures Kept(Next(b, c, s).value)
  {
    match s {
      case Refuse(bot, tool, atoms, reason) => AppendedKept(b, bot, tool, atoms, Refused, reason);
      case Launch(id, bot, tool) => AppendedKept(b, bot, tool, b.checked[id], Pending, "");
      case MarkPaid(num) => MarkKept(b, num, Paid, "");
      case MarkFailed(num, err) => MarkKept(b, num, Failed, err);
      case Resolve(uid, atoms, res) => OutcomeKept(b, uid, atoms, res);
      case _ =>
    }
  }

  /**
   * A payment passes the check in exactly these cases: something is due, the shortfall or else the price; it is within
   * the cap per call; and with everything recorded in the last day, pruned or not, it is within the daily cap.
   */
  lemma PassesExactly(b: Bridge, c: Caps, id: nat, shortfall: int, price: int)
    requires Kept(b) && id !in b.checked
    ensures var due := if shortfall > 0 then shortfall else price;
            var spent := RC.CountedIn(Spends(History(b)), b.now - 86_400, b.now);
            var fits := 0 < due <= c.perCall && 0 < c.perDay && spent + due <= c.perDay;
            Next(b, c, Ask(id, shortfall, price))
            == if fits then Some(b.(checked := b.checked[id := due])) else None
  {
    TotalIsTrue(b, b.now - DAY);
  }

  lemma AppendedGained(b: Bridge, e: Entry)
    requires e == Entry(b.now, e.bot, e.tool, "tip", e.atoms, e.status, e.err, b.spendSeq + 1)
    ensures Settlement.Gained(b.spend, Appended(b, e.bot, e.tool, e.atoms, e.status, e.err).spend, e, b.now)
    ensures Appended(b, e.bot, e.tool, e.atoms, e.status, e.err).spendSeq == b.spendSeq + 1
  {
    assert Appended(b, e.bot, e.tool, e.atoms, e.status, e.err).spend == Pruned(b.spend + [e], b.now);
    Settlement.PrunedGained(b.spend, e, b.now);
  }

  /** What passed goes to the rail with a pending entry in the log. */
  lemma LaunchIsEntered(b: Bridge, c: Caps, id: nat, bot: string, tool: string)
    requires id in b.checked
    ensures Next(b, c, Launch(id, bot, tool)).Some?
    ensures var b', num := Next(b, c, Launch(id, bot, tool)).value, b.spendSeq + 1;
            var e := Entry(b.now, bot, tool, "tip", b.checked[id], Pending, "", num);
            Settlement.Gained(b.spend, b'.spend, e, b.now)
    ensures var b' := Next(b, c, Launch(id, bot, tool)).value;
            b'.checked == b.checked - {id} && b'.live == b.live + {b.spendSeq + 1} && b'.spendSeq == b.spendSeq + 1
  {
    var e := Entry(b.now, bot, tool, "tip", b.checked[id], Pending, "", b.spendSeq + 1);
    AppendedGained(b, e);
  }

  /** What is refused leaves an entry too, and nothing goes to the rail. */
  lemma RefusalIsEntered(b: Bridge, c: Caps, bot: string, tool: string, atoms: int, reason: string)
    ensures Next(b, c, Step.Refuse(bot, tool, atoms, reason)).Some?
    ensures var b', num := Next(b, c, Step.Refuse(bot, tool, atoms, reason)).value, b.spendSeq + 1;
            Settlement.Gained(b.spend, b'.spend, Entry(b.now, bot, tool, "tip", atoms, Refused, reason, num), b.now)
    ensures var b' := Next(b, c, Step.Refuse(bot, tool, atoms, reason)).value;
            b'.checked == b.checked && b'.live == b.live && b'.spendSeq == b.spendSeq + 1
  {
    var e := Entry(b.now, bot, tool, "tip", atoms, Refused, reason, b.spendSeq + 1);
    AppendedGained(b, e);
    assert Next(b, c, Step.Refuse(bot, tool, atoms, reason)) == Some(Appended(b, bot, tool, atoms, Refused, reason));
  }

  /** The rail's outcome marks the payment's entry, and the payment is off the rail. */
  lemma OutcomeIsEntered(b: Bridge, c: Caps, num: nat, i: nat, err: string)
    requires num in b.live && num != 0 && i < |b.spend| && b.spend[i].num == num
    requires forall j :: 0 <= j < i ==> b.spend[j].num != num
    ensures var b' := Next(b, c, MarkPaid(num)).value;
            b'.spend == Pruned(b.spend[i := b.spend[i].(status := Paid, err := "")], b.now)
    ensures var b' := Next(b, c, MarkFailed(num, err)).value;
            b'.spend == Pruned(b.spend[i := b.spend[i].(status := Failed, err := err)], b.now)
    ensures Next(b, c, MarkPaid(num)).value.live == Next(b, c, MarkFailed(num, err)).value.live == b.live - {num}
  {
    FirstIs(b.spend, Numbered(num), |b.spend|, i);
  }

  // ------------------------------------------------------------ each step is a step of the meter

  /** The paid mark lands on an entry a late failure already closed: the step that makes a closed entry count again. */
  predicate Reopens(b: Bridge, s: Step) {
    s.MarkPaid? && s.num in b.live &&
    var i := First(b.spend, Numbered(s.num));
    i < |b.spend| && !Counts(b.spend[i].status)
  }

  predicate MeterStep(m: RC.Meter, p: RC.Policy, m': RC.Meter, s: Option<RC.Step>) {
    if s.None? then m' == m else RC.Next(m, p, s.value) == Some(m')
  }

  lemma SpendsUpdate(log: Log, i: nat, e: Entry)
    requires i < |log|
    ensures Spends(log[i := e]) == Spends(log)[i := AsSpend(e)]
  {
  }

  lemma SpendsAppend(a: Log, b: Log)
    ensures Spends(a + b) == Spends(a) + Spends(b)
  {
  }

  /** A new outcome of entry i leaves the meter alone or voids the entry. */
  lemma OutcomeIsVoid(b: Bridge, i: nat, e: Entry, p: RC.Policy) returns (s: Option<RC.Step>)
    requires i < |b.spend| && e == Judged(b.spend[i], e.status, e.err)
    requires Counts(e.status) ==> Counts(b.spend[i].status)
    ensures MeterStep(AsMeter(b), p, AsMeter(Persisted(b, b.spend[i := e])), s)
  {
    PersistedHistory(b, b.spend[i := e]);
    var j := |b.gone| + i;
    assert b.gone + b.spend[i := e] == History(b)[j := e];
    SpendsUpdate(History(b), j, e);
    assert Spends(History(b))[j] == AsSpend(b.spend[i]);
    if Counts(e.status) == Counts(b.spend[i].status) {
      s := None;
    } else {
      s := Some(RC.Void(j));
    }
  }

  lemma MarkIsStep(b: Bridge, num: nat, status: Status, err: string, p: RC.Policy) returns (s: Option<RC.Step>)
    requires var i := First(b.spend, Numbered(num)); i < |b.spend| && Counts(status) ==> Counts(b.spend[i].status)
    ensures MeterStep(AsMeter(b), p, AsMeter(WithMark(b, num, status, err)), s)
  {
    var i := First(b.spend, Numbered(num));
    if i < |b.spend| {
      s := OutcomeIsVoid(b, i, Judged(b.spend[i], status, err), p);
    } else {
      s := None;
    }
  }

  lemma ResolveIsStep(b: Bridge, uid: string, atoms: int, res: Option<string>, p: RC.Policy)
    returns (s: Option<RC.Step>)
    ensures MeterStep(AsMeter(b), p, AsMeter(WithOutcome(b, uid, atoms, res)), s)
  {
    var i := First(b.spend, AwaitedBy(uid, atoms));
    if i < |b.spend| {
      var e := match res case Some(err) => Judged(b.spend[i], Failed, err) case None => Judged(b.spend[i], Paid, "");
      s := OutcomeIsVoid(b, i, e, p);
    } else {
      s := None;
    }
  }

  lemma AppendedHistory(b: Bridge, bot: string, tool: string, atoms: int, status: Status, err: string)
    ensures Spends(History(Appended(b, bot, tool, atoms, status, err)))
         == Spends(History(b)) + [RC.Spend(b.now, atoms, Counts(status))]
  {
    var e := Entry(b.now, bot, tool, "tip", atoms, status, err, b.spendSeq + 1);
    PersistedHistory(b.(spendSeq := b.spendSeq + 1), b.spend + [e]);
    assert b.gone + (b.spend + [e]) == History(b) + [e];
    SpendsAppend(History(b), [e]);
    assert Spends([e]) == [AsSpend(e)];
  }

  lemma UnnumberedSpends(a: Log, b: Log)
    ensures Spends(a + Unnumbered(b)) == Spends(a + b)
  {
  }

  lemma LaunchIsRecord(b: Bridge, c: Caps, id: nat, bot: string, tool: string)
    requires id in b.checked
    ensures RC.Next(AsMeter(b), AsPolicy(c), RC.Record(id)) == Some(AsMeter(Launched(b, id, bot, tool)))
  {
    AppendedHistory(b, bot, tool, b.checked[id], Pending, "");
  }

  lemma RefuseIsNote(b: Bridge, c: Caps, bot: string, tool: string, atoms: int, reason: string)
    ensures RC.Next(AsMeter(b), AsPolicy(c), RC.Note(atoms))
         == Some(AsMeter(Appended(b, bot, tool, atoms, Refused, reason)))
  {
    AppendedHistory(b, bot, tool, atoms, Refused, reason);
  }

  lemma RestartIsDrop(b: Bridge, c: Caps)
    ensures RC.Next(AsMeter(b), AsPolicy(c), RC.Drop(b.checked.Keys)) == Some(AsMeter(Next(b, c, Restart).value))
  {
    UnnumberedSpends(b.gone, b.spend);
    assert b.checked - b.checked.Keys == map[];
  }

  /** Every step that reopens nothing is a step of the meter, or none. */
  lemma Refines(b: Bridge, c: Caps, s: Step) returns (t: Option<RC.Step>)
    requires Kept(b) && Next(b, c, s).Some? && !Reopens(b, s)
    ensures MeterStep(AsMeter(b), AsPolicy(c), AsMeter(Next(b, c, s).value), t)
  {
    var p := AsPolicy(c);
    match s {
      case Tick(secs) => t := Some(RC.Tick(secs));
      case Ask(id, shortfall, price) =>
        TotalIsTrue(b, b.now - DAY);
        t := Some(RC.Check(id, P.Amount(price, shortfall), b.now));
      case GiveUp(id) => t := Some(RC.Drop({id}));
      case Refuse(bot, tool, atoms, reason) =>
        RefuseIsNote(b, c, bot, tool, atoms, reason);
        t := Some(RC.Note(atoms));
      case Launch(id, bot, tool) =>
        LaunchIsRecord(b, c, id, bot, tool);
        t := Some(RC.Record(id));
      case MarkPaid(num) => t := MarkIsStep(b, num, Paid, "", p);
      case MarkFailed(num, err) => t := MarkIsStep(b, num, Failed, err, p);
      case Abandon(num) => t := None;
      case Resolve(uid, atoms, res) => t := ResolveIsStep(b, uid, atoms, res, p);
      case Restart =>
        RestartIsDrop(b, c);
        t := Some(RC.Drop(b.checked.Keys));
    }
  }

  // ------------------------------------------------------------ runs

  datatype Trace = Begin(now: int) | Then(before: Trace, step: Step)

  ghost function End(t: Trace, c: Caps): Option<Bridge> {
    match t
    case Begin(now) => Some(Bridge(now, [], [], 0, map[], {}))
    case Then(before, step) =>
      var b := End(before, c);
      if b.None? then None else Next(b.value, c, step)
  }

  /** A run in which at most k payments are between the cap check and the record at any time. */
  ghost predicate Legal(t: Trace, c: Caps, k: nat) {
    End(t, c).Some? && |End(t, c).value.checked| <= k && (t.Then? ==> Legal(t.before, c, k))
  }

  ghost predicate NeverReopens(t: Trace, c: Caps) {
    t.Then? ==> NeverReopens(t.before, c) && (End(t.before, c).Some? ==> !Reopens(End(t.before, c).value, t.step))
  }

  lemma {:induction false} RunKept(t: Trace, c: Caps)
    requires End(t, c).Some?
    ensures Kept(End(t, c).value)
  {
    if t.Then? {
      RunKept(t.before, c);
      NextKept(End(t.before, c).value, c, t.step);
    }
  }

  lemma {:induction false} RunSound(t: Trace, c: Caps, k: nat)
    requires 1 <= k && Legal(t, c, k) && NeverReopens(t, c)
    ensures RC.Sound(AsMeter(End(t, c).value), AsPolicy(c), k)
  {
    match t {
      case Begin(now) =>
        RC.FreshIsSound(now, AsPolicy(c), k);
        assert Spends([]) == [];
      case Then(before, step) =>
        RunSound(before, c, k);
        RunKept(before, c);
        var b := End(before, c).value;
        var s := Refines(b, c, step);
        if s.Some? {
          RC.NextKeeps(AsMeter(b), AsPolicy(c), k, s.value);
        }
    }
  }

  /** The atoms that moved or may still move, of everything recorded between two instants. */
  function SpentBetween(log: Log, from: int, to: int): int {
    RC.CountedIn(Spends(log), from, to)
  }

  /**
   * In every run with at most k payments between check and record, and no closed entry reopened, the
   * spend of every 24-hour window, counting what pruning dropped, is at most the daily cap plus k - 1
   * per-call caps; it is nothing when a cap is not positive.
   */
  lemma DailyCap(t: Trace, c: Caps, b: Bridge, k: nat, from: int, to: int)
    requires 1 <= k && Legal(t, c, k) && NeverReopens(t, c) && End(t, c) == Some(b) && to <= from + 86_400
    ensures SpentBetween(History(b), from, to)
         <= if c.perDay <= 0 || c.perCall <= 0 then 0 else c.perDay + (k - 1) * c.perCall
  {
    RunSound(t, c, k);
    RC.WindowBound(AsMeter(b), AsPolicy(c), k, from, to);
  }

  /** When payments are checked and recorded one at a time, the daily cap is exact. */
  lemma {:induction false} DailyCapOneAtATime(t: Trace, c: Caps, b: Bridge, from: int, to: int)
    requires Legal(t, c, 1) && NeverReopens(t, c) && End(t, c) == Some(b) && to <= from + 86_400 && 0 < c.perDay
    ensures SpentBetween(History(b), from, to) <= c.perDay
  {
    RunSound(t, c, 1);
    RC.WindowBound(AsMeter(b), AsPolicy(c), 1, from, to);
  }

  /**
   * In every run, the total the cap check and the spend view read is the total of the last 24 hours of everything
   * recorded.
   */
  lemma PruningIsInvisible(t: Trace, c: Caps, b: Bridge, cut: int)
    requires End(t, c) == Some(b) && b.now - DAY <= cut
    ensures SpentSince(b.spend, cut) == SpentBetween(History(b), cut, b.now)
  {
    RunKept(t, c);
    TotalIsTrue(b, cut);
  }

  // ------------------------------------------------------------ when a closed entry is reopened

  /** The late outcome lands on an entry whose settle is still waiting for the rail. */
  predicate HitsLive(b: Bridge, s: Step) {
    s.Resolve? &&
    var i := First(b.spend, AwaitedBy(s.uid, s.atoms));
    i < |b.spend| && b.spend[i].num in b.live
  }

  ghost predicate NeverHitsLive(t: Trace, c: Caps) {
    t.Then? ==> NeverHitsLive(t.before, c) && (End(t.before, c).Some? ==> !HitsLive(End(t.before, c).value, t.step))
  }

  predicate Recorded(log: Log, num: nat) {
    exists i :: 0 <= i < |log| && log[i].num == num
  }

  ghost predicate Numbering(log: Log, spendSeq: nat, live: set<nat>) {
    && (forall i :: 0 <= i < |log| ==> log[i].num <= spendSeq && (log[i].num in live ==> log[i].status == Pending))
    && (forall n :: n in live ==> 0 < n <= spendSeq && Recorded(log, n))
  }

  /** Every payment on the rail has its entry in the log, and it is pending. */
  ghost predicate Lively(b: Bridge) {
    Numbering(b.spend, b.spendSeq, b.live)
  }

  /** Pruning keeps the entries of live payments: they are pending. */
  lemma PersistedLively(b: Bridge, log: Log, live: set<nat>)
    requires Numbering(log, b.spendSeq, live)
    ensures Numbering(Persisted(b, log).spend, b.spendSeq, live)
  {
    var n := Dropped(log, b.now);
    DroppedMayGo(log, b.now);
    forall num | num in live ensures Recorded(log[n..], num) {
      var i :| 0 <= i < |log| && log[i].num == num;
      assert MustStay(log[i], b.now - DAY);
      assert log[n..][i - n] == log[i];
    }
  }

  lemma JudgedNumbering(log: Log, i: nat, e: Entry, spendSeq: nat, live: set<nat>)
    requires Numbering(log, spendSeq, live) && i < |log| && e.num == log[i].num && e.num !in live
    ensures Numbering(log[i := e], spendSeq, live)
  {
    forall num | num in live ensures Recorded(log[i := e], num) {
      var j :| 0 <= j < |log| && log[j].num == num;
      assert log[i := e][j].num == num;
    }
  }

  lemma MarkLively(b: Bridge, num: nat, status: Status, err: string)
    requires Lively(b)
    ensures Lively(WithMark(b, num, status, err).(live := b.live - {num}))
  {
    var i, live := First(b.spend, Numbered(num)), b.live - {num};
    assert Numbering(b.spend, b.spendSeq, live);
    if i < |b.spend| {
      JudgedNumbering(b.spend, i, Judged(b.spend[i], status, err), b.spendSeq, live);
      PersistedLively(b, Marked(b.spend, num, status, err), live);
    }
  }

  lemma OutcomeLively(b: Bridge, s: Step)
    requires Lively(b) && s.Resolve? && !HitsLive(b, s)
    ensures Lively(WithOutcome(b, s.uid, s.atoms, s.res))
  {
    var i := First(b.spend, AwaitedBy(s.uid, s.atoms));
    if i < |b.spend| {
      JudgedNumbering(b.spend, i, Resolved(b.spend, s.uid, s.atoms, s.res)[i], b.spendSeq, b.live);
      PersistedLively(b, Resolved(b.spend, s.uid, s.atoms, s.res), b.live);
    }
  }

  lemma AppendNumbering(log: Log, e: Entry, spendSeq: nat, live: set<nat>, more: set<nat>)
    requires Numbering(log, spendSeq, live) && e.num == spendSeq + 1
    requires more == {} || (more == {spendSeq + 1} && e.status == Pending)
    ensures Numbering(log + [e], spendSeq + 1, live + more)
  {
    forall num | num in live + more ensures Recorded(log + [e], num) {
      if num in live {
        var i :| 0 <= i < |log| && log[i].num == num;
        assert (log + [e])[i].num == num;
      } else {
        assert (log + [e])[|log|].num == num;
      }
    }
  }

  lemma AppendedLively(b: Bridge, bot: string, tool: string, atoms: int, status: Status, err: string, more: set<nat>)
    requires Lively(b) && (more == {} || (more == {b.spendSeq + 1} && status == Pending))
    ensures Lively(Appended(b, bot, tool, atoms, status, err).(live := b.live + more))
  {
    var e := Entry(b.now, bot, tool, "tip", atoms, status, err, b.spendSeq + 1);
    NumberingAppended(b.(spendSeq := b.spendSeq + 1), b.spend, e, b.live, more);
  }

  lemma NumberingAppended(b: Bridge, log: Log, e: Entry, live: set<nat>, more: set<nat>)
    requires 0 < b.spendSeq == e.num && Numbering(log, b.spendSeq - 1, live)
    requires more == {} || (more == {b.spendSeq} && e.status == Pending)
    ensures Numbering(Persisted(b, log + [e]).spend, b.spendSeq, live + more)
  {
    AppendNumbering(log, e, b.spendSeq - 1, live, more);
    PersistedLively(b, log + [e], live + more);
  }

  lemma LaunchLively(b: Bridge, id: nat, bot: string, tool: string)
    requires Lively(b) && id in b.checked
    ensures Lively(Launched(b, id, bot, tool))
  {
    AppendedLively(b, bot, tool, b.checked[id], Pending, "", {b.spendSeq + 1});
  }

  lemma RefuseLively(b: Bridge, bot: string, tool: string, atoms: int, reason: string)
    requires Lively(b)
    ensures Lively(Appended(b, bot, tool, atoms, Refused, reason))
  {
    AppendedLively(b, bot, tool, atoms, Refused, reason, {});
    assert b.live + {} == b.live;
  }

  lemma NextLively(b: Bridge, c: Caps, s: Step)
    requires Lively(b) && Next(b, c, s).Some? && !HitsLive(b, s)
    ensures Lively(Next(b, c, s).value)
  {
    match s {
      case Refuse(bot, tool, atoms, reason) => RefuseLively(b, bot, tool, atoms, reason);
      case Launch(id, bot, tool) => LaunchLively(b, id, bot, tool);
      case MarkPaid(num) => MarkLively(b, num, Paid, "");
      case MarkFailed(num, err) => MarkLively(b, num, Failed, err);
      case Resolve(_, _, _) => OutcomeLively(b, s);
      case _ =>
    }
  }

  /**
   * While late outcomes only reach entries whose settle has returned, every payment on the rail keeps its
   * pending entry, so its own outcome is never lost, and no closed entry is ever reopened.
   */
  lemma {:induction false} LateOutcomesReopenNothing(t: Trace, c: Caps)
    requires End(t, c).Some? && NeverHitsLive(t, c)
    ensures Lively(End(t, c).value) && NeverReopens(t, c)
  {
    if t.Then? {
      LateOutcomesReopenNothing(t.before, c);
      NextLively(End(t.before, c).value, c, t.step);
    }
  }

  /** So the cap holds in every run in which the host feeds late outcomes only to payments that stopped waiting. */
  lemma DailyCapWithLateOutcomes(t: Trace, c: Caps, b: Bridge, k: nat, from: int, to: int)
    requires 1 <= k && Legal(t, c, k) && NeverHitsLive(t, c) && End(t, c) == Some(b) && to <= from + 86_400
    ensures SpentBetween(History(b), from, to)
         <= if c.perDay <= 0 || c.perCall <= 0 then 0 else c.perDay + (k - 1) * c.perCall
  {
    LateOutcomesReopenNothing(t, c);
    DailyCap(t, c, b, k, from, to);
  }

  /** No entry but that at position i bears its number. */
  ghost predicate Alone(log: Log, i: nat)
    requires i < |log|
  {
    log[i].num != 0 && forall j :: 0 <= j < |log| && j != i ==> log[j].num != log[i].num
  }

  lemma {:induction false} FindsOnly(log: Log, i: nat, n: nat)
    requires n <= i < |log| && Alone(log, i)
    ensures First(log[n..], Numbered(log[i].num)) == i - n
  {
    FirstIs(log[n..], Numbered(log[i].num), |log| - n, i - n);
  }

  lemma FindsNone(log: Log, i: nat, n: nat)
    requires i < n <= |log| && Alone(log, i)
    ensures First(log[n..], Numbered(log[i].num)) == |log| - n
  {
    FirstIs(log[n..], Numbered(log[i].num), |log| - n, |log| - n);
  }

  /** The numbers this process has given out are on one entry each. */
  ghost predicate Unique(log: Log, spendSeq: nat) {
    && (forall i :: 0 <= i < |log| ==> log[i].num <= spendSeq)
    && (forall i, j :: 0 <= i < j < |log| && log[i].num != 0 ==> log[j].num != log[i].num)
  }

  lemma PersistedUnique(b: Bridge, log: Log)
    requires Unique(log, b.spendSeq)
    ensures Unique(Persisted(b, log).spend, b.spendSeq)
  {
  }

  lemma JudgedUnique(log: Log, spendSeq: nat, i: nat, e: Entry)
    requires Unique(log, spendSeq) && i < |log| && e.num == log[i].num
    ensures Unique(log[i := e], spendSeq)
  {
  }

  lemma AppendedUnique(b: Bridge, bot: string, tool: string, atoms: int, status: Status, err: string)
    requires Unique(b.spend, b.spendSeq)
    ensures Unique(Appended(b, bot, tool, atoms, status, err).spend, b.spendSeq + 1)
  {
    var e := Entry(b.now, bot, tool, "tip", atoms, status, err, b.spendSeq + 1);
    UniqueSnoc(b.spend, b.spendSeq, e);
    PersistedUnique(b.(spendSeq := b.spendSeq + 1), b.spend + [e]);
  }

  lemma UniqueSnoc(log: Log, spendSeq: nat, e: Entry)
    requires Unique(log, spendSeq) && e.num == spendSeq + 1
    ensures Unique(log + [e], spendSeq + 1)
  {
  }

  lemma MarkUnique(b: Bridge, num: nat, status: Status, err: string)
    requires Unique(b.spend, b.spendSeq)
    ensures Unique(WithMark(b, num, status, err).spend, b.spendSeq)
  {
    var i := First(b.spend, Numbered(num));
    if i < |b.spend| {
      JudgedUnique(b.spend, b.spendSeq, i, Judged(b.spend[i], status, err));
      PersistedUnique(b, Marked(b.spend, num, status, err));
    }
  }

  lemma OutcomeUnique(b: Bridge, uid: string, atoms: int, res: Option<string>)
    requires Unique(b.spend, b.spendSeq)
    ensures Unique(WithOutcome(b, uid, atoms, res).spend, b.spendSeq)
  {
    var i := First(b.spend, AwaitedBy(uid, atoms));
    if i < |b.spend| {
      JudgedUnique(b.spend, b.spendSeq, i, Resolved(b.spend, uid, atoms, res)[i]);
      PersistedUnique(b, Resolved(b.spend, uid, atoms, res));
    }
  }

  lemma NextUnique(b: Bridge, c: Caps, s: Step)
    requires Unique(b.spend, b.spendSeq) && Next(b, c, s).Some?
    ensures Unique(Next(b, c, s).value.spend, Next(b, c, s).value.spendSeq)
  {
    match s {
      case Refuse(bot, tool, atoms, reason) => AppendedUnique(b, bot, tool, atoms, Refused, reason);
      case Launch(id, bot, tool) => AppendedUnique(b, bot, tool, b.checked[id], Pending, "");
      case MarkPaid(num) => MarkUnique(b, num, Paid, "");
      case MarkFailed(num, err) => MarkUnique(b, num, Failed, err);
      case Resolve(uid, atoms, res) => OutcomeUnique(b, uid, atoms, res);
      case _ =>
    }
  }

  lemma LivePositive(b: Bridge, c: Caps, s: Step)
    requires 0 !in b.live && Next(b, c, s).Some?
    ensures 0 !in Next(b, c, s).value.live
  {
  }

  lemma {:induction false} NumbersAreUnique(t: Trace, c: Caps)
    requires End(t, c).Some?
    ensures Unique(End(t, c).value.spend, End(t, c).value.spendSeq)
    ensures 0 !in End(t, c).value.live
  {
    if t.Then? {
      NumbersAreUnique(t.before, c);
      LivePositive(End(t.before, c).value, c, t.step);
      NextUnique(End(t.before, c).value, c, t.step);
    }
  }

  /**
   * In every run, a late failure that lands on a live entry is undone by that payment's own success, and the entry
   * counts again, exactly when pruning has not dropped the entry meanwhile.
   */
  lemma FailingALiveEntryReopens(t: Trace, c: Caps, b: Bridge, s: Step)
    requires End(t, c) == Some(b) && HitsLive(b, s) && s.res.Some?
    ensures var i := First(b.spend, AwaitedBy(s.uid, s.atoms));
            var closed := b.spend[i := Judged(b.spend[i], Failed, s.res.value)];
            Reopens(Next(b, c, s).value, MarkPaid(b.spend[i].num)) <==> Dropped(closed, b.now) <= i
  {
    var i := First(b.spend, AwaitedBy(s.uid, s.atoms));
    var b', num := Next(b, c, s).value, b.spend[i].num;
    var closed := b.spend[i := Judged(b.spend[i], Failed, s.res.value)];
    var n := Dropped(closed, b.now);
    NumbersAreUnique(t, c);
    assert b'.spend == closed[n..] && b'.live == b.live;
    assert Alone(closed, i);
    if n <= i {
      FindsOnly(closed, i, n);
      assert closed[n..][i - n] == closed[i];
    } else {
      FindsNone(closed, i, n);
    }
  }

  lemma ShortLog(b: Bridge, log: Log)
    requires |log| <= KEEP
    ensures Persisted(b, log) == b.(spend := log)
  {
    assert b.gone + log[..0] == b.gone;
  }

  const TEN := Caps(10, 10)

  lemma AppendedShort(b: Bridge, e: Entry)
    requires |b.spend| < KEEP && e == Entry(b.now, e.bot, e.tool, "tip", e.atoms, e.status, e.err, b.spendSeq + 1)
    ensures Appended(b, e.bot, e.tool, e.atoms, e.status, e.err) == b.(spendSeq := e.num, spend := b.spend + [e])
  {
    var b1 := b.(spendSeq := b.spendSeq + 1);
    assert Appended(b, e.bot, e.tool, e.atoms, e.status, e.err) == Persisted(b1, b.spend + [e]);
    ShortLog(b1, b.spend + [e]);
    assert b1.(spend := b.spend + [e]) == b.(spendSeq := e.num, spend := b.spend + [e]);
  }

  lemma LaunchShort(b: Bridge, c: Caps, id: nat, e: Entry)
    requires id in b.checked && |b.spend| < KEEP
    requires e == Entry(b.now, e.bot, e.tool, "tip", b.checked[id], Pending, "", b.spendSeq + 1)
    ensures Next(b, c, Launch(id, e.bot, e.tool))
         == Some(b.(spend := b.spend + [e], spendSeq := e.num, checked := b.checked - {id}, live := b.live + {e.num}))
  {
    var b1 := Appended(b, e.bot, e.tool, b.checked[id], Pending, "");
    assert Next(b, c, Launch(id, e.bot, e.tool))
        == Some(b1.(checked := b.checked - {id}, live := b.live + {b.spendSeq + 1}));
    AppendedShort(b, e);
  }

  lemma PaidShort(b: Bridge, c: Caps, num: nat, i: nat)
    requires num in b.live && i < |b.spend| <= KEEP && num != 0 && b.spend[i].num == num
    requires forall j :: 0 <= j < i ==> b.spend[j].num != num
    ensures Next(b, c, MarkPaid(num))
         == Some(b.(spend := b.spend[i := Judged(b.spend[i], Paid, "")], live := b.live - {num}))
  {
    assert First(b.spend, Numbered(num)) == i by {
      FirstIs(b.spend, Numbered(num), |b.spend|, i);
    }
    assert WithMark(b, num, Paid, "") == Persisted(b, b.spend[i := Judged(b.spend[i], Paid, "")]);
    ShortLog(b, b.spend[i := Judged(b.spend[i], Paid, "")]);
  }

  lemma FailedShort(b: Bridge, c: Caps, late: string)
    requires 0 < |b.spend| <= KEEP && b.spend[0].status == Pending
    ensures Next(b, c, Resolve(b.spend[0].bot, b.spend[0].atoms, Some(late)))
         == Some(b.(spend := b.spend[0 := Judged(b.spend[0], Failed, late)]))
  {
    var uid, atoms := b.spend[0].bot, b.spend[0].atoms;
    assert First(b.spend, AwaitedBy(uid, atoms)) == 0 by {
      FirstIs(b.spend, AwaitedBy(uid, atoms), |b.spend|, 0);
    }
    assert WithOutcome(b, uid, atoms, Some(late)) == Persisted(b, b.spend[0 := Judged(b.spend[0], Failed, late)]);
    ShortLog(b, b.spend[0 := Judged(b.spend[0], Failed, late)]);
  }

  lemma ListSteps(e: Entry, f: Entry, g: Entry)
    ensures [] + [e] == [e] && [e] + [f] == [e, f]
    ensures [e][0 := g] == [g] && [e, f][0 := g] == [g, f] && [e, f][1 := g] == [e, g]
  {
  }

  lemma SetSteps(atoms: int)
    ensures {} + {1} == {1} && {1} + {2} == {1, 2} && {1, 2} - {1} == {2} && {2} - {2} == {}
    ensures map[1 := atoms] - {1} == map[] && map[2 := atoms] - {2} == map[]
  {
  }

  /** The first payment is on the rail when a late failure closes its entry. */
  lemma ClosedWhileLive(b: Bridge, e: Entry, late: string)
    requires e == Entry(0, e.bot, e.tool, "tip", 10, Pending, "", 1)
    requires b == Bridge(0, [], [], 0, map[1 := 10], {})
    ensures Next(b, TEN, Launch(1, e.bot, e.tool)) == Some(Bridge(0, [], [e], 1, map[], {1}))
    ensures Next(Bridge(0, [], [e], 1, map[], {1}), TEN, Resolve(e.bot, 10, Some(late)))
         == Some(Bridge(0, [], [Judged(e, Failed, late)], 1, map[], {1}))
  {
    ListSteps(e, e, Judged(e, Failed, late));
    SetSteps(10);
    LaunchShort(b, TEN, 1, e);
    FailedShort(Bridge(0, [], [e], 1, map[], {1}), TEN, late);
  }

  lemma NothingSpent(failed: Entry, cut: int)
    requires failed.status == Failed
    ensures SpentSince([failed], cut) == 0
  {
    assert [failed][..0] == [];
  }

  /** The cap then lets a second payment through. */
  lemma SecondPasses(b: Bridge, failed: Entry, e: Entry)
    requires b == Bridge(0, [], [failed], 1, map[], {1}) && failed.status == Failed
    requires e == Entry(0, e.bot, e.tool, "tip", 10, Pending, "", 2)
    ensures Next(b, TEN, Ask(2, 10, 0)) == Some(b.(checked := map[2 := 10]))
    ensures Next(b.(checked := map[2 := 10]), TEN, Launch(2, e.bot, e.tool))
         == Some(Bridge(0, [], [failed, e], 2, map[], {1, 2}))
  {
    NothingSpent(failed, 0 - DAY);
    ListSteps(failed, e, e);
    SetSteps(10);
    LaunchShort(b.(checked := map[2 := 10]), TEN, 2, e);
  }

  /** Both are then confirmed. */
  lemma BothPaid(b: Bridge, e: Entry, f: Entry)
    requires b == Bridge(0, [], [e, f], 2, map[], {1, 2}) && e.num == 1 && f.num == 2
    ensures Next(b, TEN, MarkPaid(1)) == Some(Bridge(0, [], [Judged(e, Paid, ""), f], 2, map[], {2}))
    ensures Next(Bridge(0, [], [Judged(e, Paid, ""), f], 2, map[], {2}), TEN, MarkPaid(2))
         == Some(Bridge(0, [], [Judged(e, Paid, ""), Judged(f, Paid, "")], 2, map[], {}))
  {
    var p, q := Judged(e, Paid, ""), Judged(f, Paid, "");
    ListSteps(e, f, p);
    ListSteps(p, f, q);
    SetSteps(0);
    PaidShort(b, TEN, 1, 0);
    PaidShort(Bridge(0, [], [p, f], 2, map[], {2}), TEN, 2, 1);
  }

  lemma Extends(t: Trace, c: Caps, k: nat, s: Step, b: Bridge)
    requires Legal(t, c, k) && Next(End(t, c).value, c, s) == Some(b) && |b.checked| <= k
    ensures Legal(Then(t, s), c, k) && End(Then(t, s), c) == Some(b)
  {
  }

  function Overspent(bot: string, tool: string, late: string): Trace {
    var a := Then(Then(Begin(0), Ask(1, 10, 0)), Launch(1, bot, tool));
    var b := Then(a, Resolve(bot, 10, Some(late)));
    Then(Then(Then(Then(b, Ask(2, 10, 0)), Launch(2, bot, tool)), MarkPaid(1)), MarkPaid(2))
  }

  /** One payment fails on paper, a second passes the cap, and both are paid: 20 atoms in a window under a cap of 10. */
  lemma ReopeningBreaksTheCap(bot: string, tool: string, late: string)
    ensures Legal(Overspent(bot, tool, late), TEN, 1)
    ensures SpentBetween(History(End(Overspent(bot, tool, late), TEN).value), 0, DAY) == 20
  {
    var e := Entry(0, bot, tool, "tip", 10, Pending, "", 1);
    var f, failed := e.(num := 2), Judged(e, Failed, late);
    ClosedWhileLive(Bridge(0, [], [], 0, map[1 := 10], {}), e, late);
    Extends(Begin(0), TEN, 1, Ask(1, 10, 0), Bridge(0, [], [], 0, map[1 := 10], {}));
    var t2 := Then(Begin(0), Ask(1, 10, 0));
    Extends(t2, TEN, 1, Launch(1, bot, tool), Bridge(0, [], [e], 1, map[], {1}));
    var t3 := Then(t2, Launch(1, bot, tool));
    Extends(t3, TEN, 1, Resolve(bot, 10, Some(late)), Bridge(0, [], [failed], 1, map[], {1}));
    var t4 := Then(t3, Resolve(bot, 10, Some(late)));
    SecondPasses(Bridge(0, [], [failed], 1, map[], {1}), failed, f);
    Extends(t4, TEN, 1, Ask(2, 10, 0), Bridge(0, [], [failed], 1, map[2 := 10], {1}));
    var t5 := Then(t4, Ask(2, 10, 0));
    Extends(t5, TEN, 1, Launch(2, bot, tool), Bridge(0, [], [failed, f], 2, map[], {1, 2}));
    var t6 := Then(t5, Launch(2, bot, tool));
    BothPaid(Bridge(0, [], [failed, f], 2, map[], {1, 2}), failed, f);
    var p, q := Judged(failed, Paid, ""), Judged(f, Paid, "");
    Extends(t6, TEN, 1, MarkPaid(1), Bridge(0, [], [p, f], 2, map[], {2}));
    Extends(Then(t6, MarkPaid(1)), TEN, 1, MarkPaid(2), Bridge(0, [], [p, q], 2, map[], {}));
    assert Spends([] + [p, q]) == [AsSpend(p)] + [AsSpend(q)];
    RC.CountedAppend([AsSpend(p)], AsSpend(q), 0, DAY);
  }
}
