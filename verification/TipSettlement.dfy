/**
 * The tip payer under the bridge: settle of bridge/payment.go with the payer of bridge/tippayer.go and the
 * late handler wired to ResolveSpend. Tips are real: each launched tip ends at most once.
 */
module TipSettlement {
  import opened Wrappers
  import opened MapSums
  import opened Search
  import opened Uids
  import opened TipMatcher
  import T = Tips
  import TR = TipRuns
  import L = SpendLog
  import B = SpendRuns

  type Key = T.Key

  /** A recorded payment whose Pay has not begun to wait. */
  datatype Order = Order(uid: string, atoms: int)

  /** launched lists the tips that reached the rail, by what they are matched with. */
  datatype Desk = Desk(bridge: B.Bridge, payer: T.Payer, starting: map<nat, Order>, launched: seq<Key>)

  datatype Step =
    | Spend(step: B.Step)
    | Launch(id: nat, bot: string, tool: string)
    | Start(num: nat)
    | Leave(id: nat)
    | Tip(tip: T.Step)
    | LateOutcome(index: nat)
    | Finish(id: nat, inTime: bool)
    | Restart

  function Launches(d: Desk, k: Key): nat {
    Count(d.launched, T.OfKey(k))
  }

  /** The rail's terminal event belongs to a launched tip that has not ended yet. */
  predicate FromALaunchedTip(d: Desk, uid: string, matoms: int) {
    Count(d.payer.events, T.EventFor(T.KeyOf(uid, matoms))) < Launches(d, T.KeyOf(uid, matoms))
  }

  function ErrorOf(v: Verdict): Option<string> {
    match v case Settled => None case Failed(err) => Some(err)
  }

  /** What settle does with the result of Pay; an error after the deadline leaves the entry pending. */
  function Settle(b: B.Bridge, num: nat, ret: T.Ret, inTime: bool): B.Bridge {
    var marked := match ret
      case Paid => B.WithMark(b, num, L.Paid, "")
      case Refused(err) => if inTime then B.WithMark(b, num, L.Failed, err) else b
      case TimedOut => b;
    marked.(live := b.live - {num})
  }

  function Next(d: Desk, c: B.Caps, s: Step): Option<Desk> {
    match s
    case Spend(step) =>
      if !(step.Tick? || step.Ask? || step.GiveUp? || step.Refuse?) || B.Next(d.bridge, c, step).None? then None
      else Some(d.(bridge := B.Next(d.bridge, c, step).value))
    case Launch(id, bot, tool) =>
      if id !in d.bridge.checked then None
      else
        var order := Order(bot, d.bridge.checked[id]);
        Some(d.(bridge := B.Launched(d.bridge, id, bot, tool),
                starting := d.starting[d.bridge.spendSeq + 1 := order]))
    case Start(num) =>
      if num !in d.starting then None
      else
        var order := d.starting[num];
        Some(d.(payer := T.Next(d.payer, T.Expect(order.uid, order.atoms, num)).value, starting := d.starting - {num}))
    case Leave(id) =>
      if T.Next(d.payer, T.Leave(id)).None? then None
      else Some(d.(payer := T.Next(d.payer, T.Leave(id)).value,
                   launched := d.launched + [T.CallKey(d.payer.calls[id])]))
    case Tip(tip) =>
      if tip.Expect? || tip.Leave? || tip.Handle? || tip.Finish? || tip.Crash? || T.Next(d.payer, tip).None? then None
      else if tip.Progress? && VerdictOf(tip.completed, tip.attemptErr, tip.willRetry).Some?
              && !FromALaunchedTip(d, tip.uid, tip.matoms) then None
      else Some(d.(payer := T.Next(d.payer, tip).value))
    case LateOutcome(index) =>
      if index >= |d.payer.queue| then None
      else
        var o := d.payer.queue[index].outcome;
        Some(d.(bridge := B.WithOutcome(d.bridge, o.uid, o.atoms, ErrorOf(o.verdict)),
                payer := T.Next(d.payer, T.Handle(index)).value))
    case Finish(id, inTime) =>
      if T.Next(d.payer, T.Finish(id)).None? then None
      else
        var call := d.payer.calls[id];
        Some(d.(bridge := Settle(d.bridge, call.tag, call.phase.ret, inTime),
                payer := T.Next(d.payer, T.Finish(id)).value))
    case Restart =>
      Some(d.(bridge := B.Next(d.bridge, c, B.Restart).value, payer := T.Crashed(d.payer), starting := map[]))
  }

  datatype Trace = Begin(now: int) | Then(before: Trace, step: Step)

  ghost function End(t: Trace, c: B.Caps): Option<Desk> {
    match t
    case Begin(now) => Some(Desk(B.Bridge(now, [], [], 0, map[], {}), T.Payer([], map[], 0, [], [], []), map[], []))
    case Then(before, step) => if End(before, c).None? then None else Next(End(before, c).value, c, step)
  }

  // ------------------------------------------------------------ what covers the settled tips

  function EntryKey(e: L.Entry): Key {
    T.KeyOf(e.bot, e.atoms * 1000)
  }

  /** An entry whose money moved or may still move. */
  function AliveFor(k: Key): L.Entry -> bool {
    (e: L.Entry) => EntryKey(e) == k && (e.status == L.Pending || e.status == L.Paid)
  }

  /** Pending and paid entries for a payee and amount, counting pruned ones. */
  function Alive(b: B.Bridge, k: Key): nat {
    Count(B.History(b), AliveFor(k))
  }

  function Bit(b: bool): int {
    if b then 1 else 0
  }

  /** What an open payment may still cost its key: an entry whose tip did not leave, and each failure it may mark. */
  function Credit(c: T.Call, k: Key): int {
    if T.CallKey(c) != k then 0
    else Bit(c.phase.Dialing?) + Bit(c.box.Some? && c.box.value.verdict.Failed?)
         + Bit(c.phase.Returned? && c.phase.ret.Refused?)
  }

  function Credits(calls: map<nat, T.Call>, k: Key): map<nat, int> {
    map id | id in calls :: Credit(calls[id], k)
  }

  function OrderCredit(o: Order, k: Key): int {
    Bit(T.KeyOf(o.uid, o.atoms * 1000) == k)
  }

  function OrderCredits(starting: map<nat, Order>, k: Key): map<nat, int> {
    map num | num in starting :: OrderCredit(starting[num], k)
  }

  function LateFailureFor(k: Key): T.Forward -> bool {
    (f: T.Forward) => T.KeyOf(f.outcome.uid, f.outcome.atoms * 1000) == k && f.outcome.verdict.Failed?
  }

  /** The part of a key's account the payer holds: failures it was fed, and the ones it still passes on. */
  ghost function Holding(p: T.Payer, k: Key): int {
    Sum(Credits(p.calls, k)) + Count(p.queue, LateFailureFor(k)) - Count(p.events, T.FailureFor(k))
  }

  /** The entries that must be pending or paid: tips launched or about to be, less the failures already marked. */
  ghost function Owed(d: Desk, k: Key): int {
    Launches(d, k) + Sum(OrderCredits(d.starting, k)) + Holding(d.payer, k)
  }

  /** The entries numbered num are for the key. */
  ghost predicate Tagged(b: B.Bridge, num: nat, k: Key) {
    num <= b.spendSeq && forall i :: 0 <= i < |b.spend| && b.spend[i].num == num ==> EntryKey(b.spend[i]) == k
  }

  ghost predicate Numbered(b: B.Bridge) {
    forall i :: 0 <= i < |b.spend| ==> b.spend[i].num <= b.spendSeq
  }

  /** Every open payment's number is on entries of its own key only. */
  ghost predicate Labelled(b: B.Bridge, starting: map<nat, Order>, calls: map<nat, T.Call>) {
    && Numbered(b)
    && (forall num :: num in starting ==> Tagged(b, num, T.KeyOf(starting[num].uid, starting[num].atoms * 1000)))
    && (forall id :: id in calls ==> Tagged(b, calls[id].tag, T.CallKey(calls[id])))
  }

  ghost predicate FromTips(d: Desk, k: Key) {
    Count(d.payer.events, T.EventFor(k)) <= Launches(d, k)
  }

  ghost predicate Covered(d: Desk, k: Key) {
    Owed(d, k) <= Alive(d.bridge, k)
  }

  ghost predicate Inv(d: Desk) {
    && T.Inv(d.payer)
    && Labelled(d.bridge, d.starting, d.payer.calls)
    && (forall k {:trigger FromTips(d, k)} :: FromTips(d, k))
    && (forall k {:trigger Covered(d, k)} :: Covered(d, k))
  }

  // ------------------------------------------------------------ sums and counts, one change at a time

  lemma CreditStore(calls: map<nat, T.Call>, id: nat, c: T.Call, k: Key)
    ensures Sum(Credits(calls[id := c], k))
         == Sum(Credits(calls, k)) - (if id in calls then Credit(calls[id], k) else 0) + Credit(c, k)
  {
    assert Credits(calls[id := c], k) == Credits(calls, k)[id := Credit(c, k)];
    SumStore(Credits(calls, k), id, Credit(c, k));
  }

  lemma CreditDrop(calls: map<nat, T.Call>, id: nat, k: Key)
    requires id in calls
    ensures Sum(Credits(calls - {id}, k)) == Sum(Credits(calls, k)) - Credit(calls[id], k)
  {
    assert Credits(calls - {id}, k) == Credits(calls, k) - {id};
    SumDrop(Credits(calls, k), id);
  }

  lemma CreditsNonNegative(calls: map<nat, T.Call>, k: Key)
    ensures 0 <= Sum(Credits(calls, k)) && Sum(Credits(map[], k)) == 0
  {
    SumNonNegative(Credits(calls, k));
    assert Credits(map[], k) == map[];
  }

  lemma OrderStore(starting: map<nat, Order>, num: nat, o: Order, k: Key)
    requires num !in starting
    ensures Sum(OrderCredits(starting[num := o], k)) == Sum(OrderCredits(starting, k)) + OrderCredit(o, k)
  {
    assert OrderCredits(starting[num := o], k) == OrderCredits(starting, k)[num := OrderCredit(o, k)];
    SumStore(OrderCredits(starting, k), num, OrderCredit(o, k));
  }

  lemma OrderDrop(starting: map<nat, Order>, num: nat, k: Key)
    requires num in starting
    ensures Sum(OrderCredits(starting - {num}, k)) == Sum(OrderCredits(starting, k)) - OrderCredit(starting[num], k)
  {
    assert OrderCredits(starting - {num}, k) == OrderCredits(starting, k) - {num};
    SumDrop(OrderCredits(starting, k), num);
  }

  lemma OrdersNonNegative(starting: map<nat, Order>, k: Key)
    ensures 0 <= Sum(OrderCredits(starting, k)) && Sum(OrderCredits(map[], k)) == 0
  {
    SumNonNegative(OrderCredits(starting, k));
    assert OrderCredits(map[], k) == map[];
  }

  // ------------------------------------------------------------ the log

  /** A new status for one entry changes the count of its own key by at most one, and lowers it only for a failure. */
  lemma JudgedAlive(b: B.Bridge, i: nat, status: L.Status, err: string, k: Key)
    requires i < |b.spend| && (status == L.Paid || status == L.Failed)
    ensures var b' := B.Persisted(b, b.spend[i := L.Judged(b.spend[i], status, err)]);
            Alive(b', k) >= Alive(b, k) - Bit(status == L.Failed && EntryKey(b.spend[i]) == k)
  {
    var e := L.Judged(b.spend[i], status, err);
    var b' := B.Persisted(b, b.spend[i := e]);
    B.PersistedHistory(b, b.spend[i := e]);
    assert b.gone + b.spend[i := e] == B.History(b)[|b.gone| + i := e];
    CountUpdate(B.History(b), |b.gone| + i, e, AliveFor(k));
    assert B.History(b)[|b.gone| + i] == b.spend[i];
    assert AliveFor(k)(e) == (EntryKey(b.spend[i]) == k && status == L.Paid);
  }

  lemma MarkAlive(b: B.Bridge, num: nat, status: L.Status, err: string, key: Key, k: Key)
    requires Tagged(b, num, key) && (status == L.Paid || status == L.Failed)
    ensures Alive(B.WithMark(b, num, status, err), k) >= Alive(b, k) - Bit(status == L.Failed && key == k)
  {
    var i := First(b.spend, L.Numbered(num));
    if i < |b.spend| {
      JudgedAlive(b, i, status, err, k);
    }
  }

  lemma OutcomeAlive(b: B.Bridge, uid: string, atoms: int, res: Option<string>, k: Key)
    ensures Alive(B.WithOutcome(b, uid, atoms, res), k)
            >= Alive(b, k) - Bit(res.Some? && T.KeyOf(uid, atoms * 1000) == k)
  {
    var i := First(b.spend, L.AwaitedBy(uid, atoms));
    if i < |b.spend| {
      assert EntryKey(b.spend[i]) == T.KeyOf(uid, atoms * 1000);
      match res {
        case Some(err) => JudgedAlive(b, i, L.Failed, err, k);
        case None => JudgedAlive(b, i, L.Paid, "", k);
      }
    }
  }

  lemma AppendedAlive(b: B.Bridge, bot: string, tool: string, atoms: int, status: L.Status, err: string, k: Key)
    ensures Alive(B.Appended(b, bot, tool, atoms, status, err), k)
         == Alive(b, k) + Bit((status == L.Pending || status == L.Paid) && T.KeyOf(bot, atoms * 1000) == k)
  {
    var e := L.Entry(b.now, bot, tool, "tip", atoms, status, err, b.spendSeq + 1);
    B.PersistedHistory(b.(spendSeq := b.spendSeq + 1), b.spend + [e]);
    assert b.gone + (b.spend + [e]) == B.History(b) + [e];
    CountSnoc(B.History(b), e, AliveFor(k));
  }

  lemma {:induction false} UnnumberedCount(a: L.Log, b: L.Log, k: Key)
    ensures Count(a + L.Unnumbered(b), AliveFor(k)) == Count(a + b, AliveFor(k))
  {
    CountAppend(a, b, AliveFor(k));
    CountAppend(a, L.Unnumbered(b), AliveFor(k));
    if b != [] {
      var front := b[..|b| - 1];
      assert L.Unnumbered(b)[..|b| - 1] == L.Unnumbered(front);
      UnnumberedCount(a, front, k);
      CountAppend(a, front, AliveFor(k));
      CountAppend(a, L.Unnumbered(front), AliveFor(k));
    }
  }

  lemma JudgedTagged(b: B.Bridge, i: nat, status: L.Status, err: string, num: nat, k: Key)
    requires i < |b.spend| && Tagged(b, num, k)
    ensures Tagged(B.Persisted(b, b.spend[i := L.Judged(b.spend[i], status, err)]), num, k)
  {
  }

  lemma JudgedLabelled(b: B.Bridge, i: nat, status: L.Status, err: string, starting: map<nat, Order>,
                       calls: map<nat, T.Call>)
    requires i < |b.spend| && Labelled(b, starting, calls)
    ensures Labelled(B.Persisted(b, b.spend[i := L.Judged(b.spend[i], status, err)]), starting, calls)
  {
    forall num | num in starting
      ensures Tagged(B.Persisted(b, b.spend[i := L.Judged(b.spend[i], status, err)]), num,
                     T.KeyOf(starting[num].uid, starting[num].atoms * 1000)) {
      JudgedTagged(b, i, status, err, num, T.KeyOf(starting[num].uid, starting[num].atoms * 1000));
    }
    forall id | id in calls
      ensures Tagged(B.Persisted(b, b.spend[i := L.Judged(b.spend[i], status, err)]), calls[id].tag,
                     T.CallKey(calls[id])) {
      JudgedTagged(b, i, status, err, calls[id].tag, T.CallKey(calls[id]));
    }
  }

  lemma MarkLabelled(b: B.Bridge, num: nat, status: L.Status, err: string, starting: map<nat, Order>,
                     calls: map<nat, T.Call>)
    requires Labelled(b, starting, calls)
    ensures Labelled(B.WithMark(b, num, status, err), starting, calls)
  {
    var i := First(b.spend, L.Numbered(num));
    if i < |b.spend| {
      JudgedLabelled(b, i, status, err, starting, calls);
    }
  }

  lemma OutcomeLabelled(b: B.Bridge, uid: string, atoms: int, res: Option<string>, starting: map<nat, Order>,
                        calls: map<nat, T.Call>)
    requires Labelled(b, starting, calls)
    ensures Labelled(B.WithOutcome(b, uid, atoms, res), starting, calls)
  {
    var i := First(b.spend, L.AwaitedBy(uid, atoms));
    if i < |b.spend| {
      match res {
        case Some(err) => JudgedLabelled(b, i, L.Failed, err, starting, calls);
        case None => JudgedLabelled(b, i, L.Paid, "", starting, calls);
      }
    }
  }

  lemma AppendedTagged(b: B.Bridge, bot: string, tool: string, atoms: int, status: L.Status, err: string, num: nat,
                       k: Key)
    requires Tagged(b, num, k)
    ensures Tagged(B.Appended(b, bot, tool, atoms, status, err), num, k)
  {
  }

  lemma NewTag(b: B.Bridge, bot: string, tool: string, atoms: int, status: L.Status, err: string)
    requires Numbered(b)
    ensures Numbered(B.Appended(b, bot, tool, atoms, status, err))
    ensures Tagged(B.Appended(b, bot, tool, atoms, status, err), b.spendSeq + 1, T.KeyOf(bot, atoms * 1000))
  {
  }

  lemma AppendedLabelled(b: B.Bridge, bot: string, tool: string, atoms: int, status: L.Status, err: string,
                         starting: map<nat, Order>, calls: map<nat, T.Call>)
    requires Labelled(b, starting, calls)
    ensures Labelled(B.Appended(b, bot, tool, atoms, status, err), starting, calls)
  {
    NewTag(b, bot, tool, atoms, status, err);
    var b' := B.Appended(b, bot, tool, atoms, status, err);
    forall num, k | Tagged(b, num, k) ensures Tagged(b', num, k) {
      AppendedTagged(b, bot, tool, atoms, status, err, num, k);
    }
  }

  // ------------------------------------------------------------ the payer

  /** Replacing a call changes the payer's part by the difference of the two credits. */
  lemma Replaced(p: T.Payer, p': T.Payer, id: nat, c: T.Call, k: Key)
    requires id in p.calls && p'.calls == p.calls[id := c] && p'.queue == p.queue && p'.events == p.events
    ensures Holding(p', k) == Holding(p, k) - Credit(p.calls[id], k) + Credit(c, k)
  {
    CreditStore(p.calls, id, c, k);
  }

  lemma DrainHolds(p: T.Payer, id: nat, k: Key)
    requires T.Inv(p) && T.In(p, id, T.Draining)
    ensures Holding(T.Next(p, T.Drain(id)).value, k) <= Holding(p, k)
  {
    var c, p' := p.calls[id], T.Next(p, T.Drain(id)).value;
    CreditStore(p.calls, id, p'.calls[id], k);
    if c.box.Some? {
      CountSnoc(p.queue, T.Forward(c.box.value.event, Outcome(c.uid, c.atoms, c.box.value.verdict)), LateFailureFor(k));
    } else {
      assert p'.queue == p.queue;
    }
  }

  lemma FedHolds(p: T.Payer, e: T.Event, k: Key)
    requires T.Inv(p)
    ensures Holding(T.Fed(p, e), k) <= Holding(p, k)
  {
    var i := First(p.waiters, T.Awaiting(p.calls, T.EventKey(e)));
    CountSnoc(p.events, e, T.FailureFor(k));
    if i < |p.waiters| {
      var id := p.waiters[i];
      assert T.Awaiting(p.calls, T.EventKey(e))(id) && T.WaiterOk(p, i);
      CreditStore(p.calls, id, p.calls[id].(box := Some(T.Given(|p.events|, e.verdict))), k);
    } else if WholeAtoms(e.matoms) {
      CountSnoc(p.queue, T.Forward(|p.events|, Outcome(e.uid, e.matoms / 1000, e.verdict)), LateFailureFor(k));
    }
  }

  lemma DispatchHolds(p: T.Payer, s: T.Step, k: Key)
    requires T.Next(p, s).Some? && (s.Dispatched? || TR.EndsDispatch(s))
    ensures Holding(T.Next(p, s).value, k) <= Holding(p, k)
  {
    Replaced(p, T.Next(p, s).value, s.id, T.Next(p, s).value.calls[s.id], k);
  }

  lemma WaitHolds(p: T.Payer, s: T.Step, k: Key)
    requires T.Next(p, s).Some? && (s.Take? || s.Expire?)
    ensures Holding(T.Next(p, s).value, k) <= Holding(p, k)
  {
    Replaced(p, T.Next(p, s).value, s.id, T.Next(p, s).value.calls[s.id], k);
  }

  /** No step of the payer alone adds to its part of the account. */
  lemma TipHolds(p: T.Payer, s: T.Step, k: Key)
    requires T.Inv(p) && T.Next(p, s).Some?
    requires s.Dispatched? || TR.EndsDispatch(s) || s.Take? || s.Expire? || s.Drain? || s.Progress?
    ensures Holding(T.Next(p, s).value, k) <= Holding(p, k)
  {
    if s.Drain? {
      DrainHolds(p, s.id, k);
    } else if s.Progress? {
      var v := VerdictOf(s.completed, s.attemptErr, s.willRetry);
      if v.Some? {
        FedHolds(p, T.Event(s.uid, s.matoms, s.completed, v.value), k);
      }
    } else if s.Take? || s.Expire? {
      WaitHolds(p, s, k);
    } else {
      DispatchHolds(p, s, k);
    }
  }

  // ------------------------------------------------------------ every step keeps the account

  lemma SpendKeeps(d: Desk, c: B.Caps, step: B.Step)
    requires Inv(d) && Next(d, c, Spend(step)).Some?
    ensures Inv(Next(d, c, Spend(step)).value)
  {
    var d' := Next(d, c, Spend(step)).value;
    if step.Refuse? {
      AppendedLabelled(d.bridge, step.bot, step.tool, step.atoms, L.Refused, step.reason, d.starting, d.payer.calls);
    }
    forall k ensures FromTips(d', k) && Covered(d', k) {
      assert FromTips(d, k) && Covered(d, k);
      if step.Refuse? {
        AppendedAlive(d.bridge, step.bot, step.tool, step.atoms, L.Refused, step.reason, k);
      }
    }
  }

  lemma FreshNumber(b: B.Bridge, starting: map<nat, Order>, calls: map<nat, T.Call>)
    requires Labelled(b, starting, calls)
    ensures b.spendSeq + 1 !in starting
  {
    forall num | num in starting ensures num <= b.spendSeq {
      assert Tagged(b, num, T.KeyOf(starting[num].uid, starting[num].atoms * 1000));
    }
  }

  lemma LaunchedAlive(b: B.Bridge, id: nat, bot: string, tool: string, k: Key)
    requires id in b.checked
    ensures Alive(B.Launched(b, id, bot, tool), k) == Alive(b, k) + OrderCredit(Order(bot, b.checked[id]), k)
  {
    AppendedAlive(b, bot, tool, b.checked[id], L.Pending, "", k);
    var b1 := B.Appended(b, bot, tool, b.checked[id], L.Pending, "");
    assert B.History(B.Launched(b, id, bot, tool)) == B.History(b1);
  }

  lemma LaunchOwes(d: Desk, c: B.Caps, id: nat, bot: string, tool: string, k: Key)
    requires id in d.bridge.checked && d.bridge.spendSeq + 1 !in d.starting
    ensures var d' := Next(d, c, Launch(id, bot, tool)).value;
            && d'.payer == d.payer && Launches(d', k) == Launches(d, k)
            && Owed(d', k) == Owed(d, k) + OrderCredit(Order(bot, d.bridge.checked[id]), k)
  {
    OrderStore(d.starting, d.bridge.spendSeq + 1, Order(bot, d.bridge.checked[id]), k);
  }

  /** The launched payment's entry is pending before its order exists. */
  lemma LaunchCovered(d: Desk, c: B.Caps, id: nat, bot: string, tool: string, k: Key)
    requires Inv(d) && id in d.bridge.checked
    ensures var d' := Next(d, c, Launch(id, bot, tool)).value; FromTips(d', k) && Covered(d', k)
  {
    assert FromTips(d, k) && Covered(d, k);
    LaunchedAlive(d.bridge, id, bot, tool, k);
    FreshNumber(d.bridge, d.starting, d.payer.calls);
    LaunchOwes(d, c, id, bot, tool, k);
  }

  lemma LaunchLabelled(b: B.Bridge, id: nat, bot: string, tool: string, starting: map<nat, Order>,
                       calls: map<nat, T.Call>)
    requires Labelled(b, starting, calls) && id in b.checked
    ensures Labelled(B.Launched(b, id, bot, tool), starting[b.spendSeq + 1 := Order(bot, b.checked[id])], calls)
  {
    AppendedLabelled(b, bot, tool, b.checked[id], L.Pending, "", starting, calls);
    NewTag(b, bot, tool, b.checked[id], L.Pending, "");
    var b1, b' := B.Appended(b, bot, tool, b.checked[id], L.Pending, ""), B.Launched(b, id, bot, tool);
    assert b'.spend == b1.spend && b'.spendSeq == b1.spendSeq;
    forall num, k | Tagged(b1, num, k) ensures Tagged(b', num, k) {
    }
  }

  lemma LaunchKeeps(d: Desk, c: B.Caps, id: nat, bot: string, tool: string)
    requires Inv(d) && id in d.bridge.checked
    ensures Inv(Next(d, c, Launch(id, bot, tool)).value)
  {
    var d' := Next(d, c, Launch(id, bot, tool)).value;
    LaunchLabelled(d.bridge, id, bot, tool, d.starting, d.payer.calls);
    forall k ensures FromTips(d', k) && Covered(d', k) {
      LaunchCovered(d, c, id, bot, tool, k);
    }
  }

  lemma StartKeeps(d: Desk, c: B.Caps, num: nat)
    requires Inv(d) && num in d.starting
    ensures Inv(Next(d, c, Start(num)).value)
  {
    var d', o := Next(d, c, Start(num)).value, d.starting[num];
    T.NextKeeps(d.payer, T.Expect(o.uid, o.atoms, num));
    forall k ensures FromTips(d', k) && Covered(d', k) {
      assert FromTips(d, k) && Covered(d, k) && T.CallOk(d.payer, d.payer.next);
      OrderDrop(d.starting, num, k);
      CreditStore(d.payer.calls, d.payer.next, T.Call(o.uid, o.atoms, num, T.Dialing, None), k);
    }
  }

  lemma LeaveCovered(d: Desk, c: B.Caps, id: nat, k: Key)
    requires Inv(d) && T.In(d.payer, id, T.Dialing)
    ensures var d' := Next(d, c, Leave(id)).value; FromTips(d', k) && Covered(d', k)
  {
    var d' := Next(d, c, Leave(id)).value;
    assert FromTips(d, k) && Covered(d, k);
    CountSnoc(d.launched, T.CallKey(d.payer.calls[id]), T.OfKey(k));
    Replaced(d.payer, d'.payer, id, d'.payer.calls[id], k);
  }

  lemma LeaveKeeps(d: Desk, c: B.Caps, id: nat)
    requires Inv(d) && T.In(d.payer, id, T.Dialing)
    ensures Inv(Next(d, c, Leave(id)).value)
  {
    T.NextKeeps(d.payer, T.Leave(id));
    forall k ensures FromTips(Next(d, c, Leave(id)).value, k) && Covered(Next(d, c, Leave(id)).value, k) {
      LeaveCovered(d, c, id, k);
    }
  }

  /** Calls keep their tags and keys. */
  lemma TipLabels(d: Desk, s: T.Step)
    requires Inv(d) && T.Next(d.payer, s).Some?
    requires s.Dispatched? || TR.EndsDispatch(s) || s.Take? || s.Expire? || s.Drain? || s.Progress? || s.Handle?
         || s.Finish?
    ensures Labelled(d.bridge, d.starting, T.Next(d.payer, s).value.calls)
  {
    var p' := T.Next(d.payer, s).value;
    forall id | id in p'.calls ensures Tagged(d.bridge, p'.calls[id].tag, T.CallKey(p'.calls[id])) {
      T.CallsStay(d.payer, s, id);
    }
  }

  lemma EventsCounted(d: Desk, c: B.Caps, s: T.Step, k: Key)
    requires Inv(d) && Next(d, c, Tip(s)).Some?
    ensures FromTips(Next(d, c, Tip(s)).value, k)
  {
    assert FromTips(d, k);
    if s.Progress? && VerdictOf(s.completed, s.attemptErr, s.willRetry).Some? {
      var e := T.Event(s.uid, s.matoms, s.completed, VerdictOf(s.completed, s.attemptErr, s.willRetry).value);
      CountSnoc(d.payer.events, e, T.EventFor(k));
      assert T.Next(d.payer, s).value.events == d.payer.events + [e];
    }
  }

  lemma TipKeeps(d: Desk, c: B.Caps, s: T.Step)
    requires Inv(d) && Next(d, c, Tip(s)).Some?
    ensures Inv(Next(d, c, Tip(s)).value)
  {
    var d' := Next(d, c, Tip(s)).value;
    T.NextKeeps(d.payer, s);
    TipLabels(d, s);
    forall k ensures FromTips(d', k) && Covered(d', k) {
      assert Covered(d, k);
      EventsCounted(d, c, s, k);
      TipHolds(d.payer, s, k);
    }
  }

  lemma LateKeeps(d: Desk, c: B.Caps, index: nat)
    requires Inv(d) && index < |d.payer.queue|
    ensures Inv(Next(d, c, LateOutcome(index)).value)
  {
    var d', o := Next(d, c, LateOutcome(index)).value, d.payer.queue[index].outcome;
    assert forall k :: FromTips(d, k) && Covered(d, k);
    T.NextKeeps(d.payer, T.Handle(index));
    OutcomeLabelled(d.bridge, o.uid, o.atoms, ErrorOf(o.verdict), d.starting, d.payer.calls);
    forall k ensures FromTips(d', k) && Covered(d', k) {
      LateCovered(d, c, index, k);
    }
  }

  lemma LateCovered(d: Desk, c: B.Caps, index: nat, k: Key)
    requires FromTips(d, k) && Covered(d, k) && index < |d.payer.queue|
    ensures FromTips(Next(d, c, LateOutcome(index)).value, k) && Covered(Next(d, c, LateOutcome(index)).value, k)
  {
    var o := d.payer.queue[index].outcome;
    OutcomeAlive(d.bridge, o.uid, o.atoms, ErrorOf(o.verdict), k);
    HandleHolds(d.payer, index, k);
    assert Launches(Next(d, c, LateOutcome(index)).value, k) == Launches(d, k);
  }

  /** A failure handed to the late handler leaves the payer's part. */
  lemma HandleHolds(p: T.Payer, index: nat, k: Key)
    requires index < |p.queue|
    ensures Holding(T.HandledAt(p, index), k) == Holding(p, k) - Bit(LateFailureFor(k)(p.queue[index]))
  {
    CountWithout(p.queue, index, LateFailureFor(k));
  }

  lemma SettleLabelled(b: B.Bridge, num: nat, ret: T.Ret, inTime: bool, starting: map<nat, Order>,
                       calls: map<nat, T.Call>)
    requires Labelled(b, starting, calls)
    ensures Labelled(Settle(b, num, ret, inTime), starting, calls)
  {
    match ret {
      case Paid => MarkLabelled(b, num, L.Paid, "", starting, calls);
      case Refused(err) => MarkLabelled(b, num, L.Failed, err, starting, calls);
      case TimedOut =>
    }
  }

  lemma SettleAlive(b: B.Bridge, num: nat, ret: T.Ret, inTime: bool, key: Key, k: Key)
    requires Tagged(b, num, key)
    ensures Alive(Settle(b, num, ret, inTime), k) >= Alive(b, k) - Bit(ret.Refused? && key == k)
  {
    match ret {
      case Paid => MarkAlive(b, num, L.Paid, "", key, k);
      case Refused(err) => MarkAlive(b, num, L.Failed, err, key, k);
      case TimedOut =>
    }
  }

  lemma FinishCovered(d: Desk, c: B.Caps, id: nat, inTime: bool, k: Key)
    requires Inv(d) && T.Next(d.payer, T.Finish(id)).Some?
    ensures var d' := Next(d, c, Finish(id, inTime)).value; FromTips(d', k) && Covered(d', k)
  {
    var call := d.payer.calls[id];
    assert FromTips(d, k) && Covered(d, k);
    CreditDrop(d.payer.calls, id, k);
    SettleAlive(d.bridge, call.tag, call.phase.ret, inTime, T.CallKey(call), k);
  }

  lemma FinishKeeps(d: Desk, c: B.Caps, id: nat, inTime: bool)
    requires Inv(d) && T.Next(d.payer, T.Finish(id)).Some?
    ensures Inv(Next(d, c, Finish(id, inTime)).value)
  {
    var d', call := Next(d, c, Finish(id, inTime)).value, d.payer.calls[id];
    T.NextKeeps(d.payer, T.Finish(id));
    TipLabels(d, T.Finish(id));
    SettleLabelled(d.bridge, call.tag, call.phase.ret, inTime, d.starting, d'.payer.calls);
    forall k ensures FromTips(d', k) && Covered(d', k) {
      FinishCovered(d, c, id, inTime, k);
    }
  }

  /** A restart gives up what open payments hold, and nothing else. */
  lemma RestartCovered(d: Desk, c: B.Caps, k: Key)
    requires Inv(d)
    ensures Covered(Next(d, c, Restart).value, k) && FromTips(Next(d, c, Restart).value, k)
  {
    var d' := Next(d, c, Restart).value;
    assert FromTips(d, k) && Covered(d, k);
    assert Alive(d'.bridge, k) == Alive(d.bridge, k) by {
      UnnumberedCount(d.bridge.gone, d.bridge.spend, k);
    }
    assert Holding(d'.payer, k) <= Holding(d.payer, k) by {
      CreditsNonNegative(d.payer.calls, k);
    }
    OrdersNonNegative(d.starting, k);
  }

  lemma RestartKeeps(d: Desk, c: B.Caps)
    requires Inv(d)
    ensures Inv(Next(d, c, Restart).value)
  {
    T.NextKeeps(d.payer, T.Crash);
    forall k ensures FromTips(Next(d, c, Restart).value, k) && Covered(Next(d, c, Restart).value, k) {
      RestartCovered(d, c, k);
    }
  }

  lemma {:induction false} NextKeeps(d: Desk, c: B.Caps, s: Step)
    requires Inv(d) && Next(d, c, s).Some?
    ensures Inv(Next(d, c, s).value)
  {
    match s {
      case Spend(step) => SpendKeeps(d, c, step);
      case Launch(id, bot, tool) => LaunchKeeps(d, c, id, bot, tool);
      case Start(num) => StartKeeps(d, c, num);
      case Leave(id) => LeaveKeeps(d, c, id);
      case Tip(tip) => TipKeeps(d, c, tip);
      case LateOutcome(index) => LateKeeps(d, c, index);
      case Finish(id, inTime) => FinishKeeps(d, c, id, inTime);
      case Restart => RestartKeeps(d, c);
    }
  }

  lemma {:induction false} RunKeeps(t: Trace, c: B.Caps)
    requires End(t, c).Some?
    ensures Inv(End(t, c).value)
  {
    match t {
      case Begin(now) =>
        forall k ensures FromTips(End(t, c).value, k) && Covered(End(t, c).value, k) {
          CreditsNonNegative(map[], k);
          OrdersNonNegative(map[], k);
        }
      case Then(before, step) =>
        RunKeeps(before, c);
        NextKeeps(End(before, c).value, c, step);
    }
  }

  /**
   * In every run of payments, deadlines, late outcomes and restarts, the pending and paid entries for each payee and
   * amount, counting pruned ones, are at least the tips that left less those that failed: never fewer than the tips
   * that settled, whichever payment or late path each event was matched to.
   */
  lemma {:induction false} SettledTipsAreRecorded(t: Trace, c: B.Caps, d: Desk, k: Key)
    requires End(t, c) == Some(d)
    ensures Launches(d, k) - Count(d.payer.events, T.FailureFor(k)) <= Alive(d.bridge, k)
    ensures Count(d.payer.events, T.SettlementFor(k)) <= Alive(d.bridge, k)
  {
    RunKeeps(t, c);
    assert FromTips(d, k) && Covered(d, k);
    T.VerdictsSplit(d.payer.events, k);
    CreditsNonNegative(d.payer.calls, k);
    OrdersNonNegative(d.starting, k);
  }
}
