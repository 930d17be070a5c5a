/**
 * The escrow of one provider over the tip payer its test payments share with every other payment (paidCall in
 * directory/client.go over bridge/tippayer.go). Outcomes are matched oldest first per payee and amount, so a refusal
 * may reach a payment whose own tip left while an identical one died; per payee and amount the account holds all the
 * same.
 */
module EscrowTips {
  import opened Wrappers
  import opened MapSums
  import opened Search
  import opened Uids
  import opened TipMatcher
  import T = Tips
  import TR = TipRuns

  type Key = T.Key

  /** What a tip of each payee and amount counts for. */
  type Weight = Key -> nat

  const ESCROWED := 1
  const UNESCROWED := 0

  /**
   * starting: debited, Pay not begun; due: refused, refund due; launched: the tips that reached the rail; bought: the
   * payments made through the payer without this escrow. debits, refunds, credited and charged are the provider's
   * ledger.
   */
  datatype Desk = Desk(balance: int, starting: seq<int>, due: seq<int>, payer: T.Payer, launched: seq<Key>,
                       debits: seq<int>, refunds: seq<int>, bought: seq<Key>, credited: int, charged: int)

  datatype Step =
    | Credit(atoms: nat)
    | Charge(atoms: nat)
    | Debit(atoms: nat)
    | Start(index: nat)
    | Buy(uid: string, amount: int)
    | Leave(id: nat)
    | Tip(tip: T.Step)
    | Finish(id: nat, inTime: bool)
    | Refund(index: nat)
    | Crash

  /** What a payment of atoms to who is matched by. */
  function Paying(who: string, atoms: int): Key {
    T.KeyOf(who, atoms * 1000)
  }

  /** The rail's terminal event belongs to a launched tip that has not ended yet. */
  predicate FromALaunchedTip(d: Desk, k: Key) {
    Count(d.payer.events, T.EventFor(k)) < Count(d.launched, T.OfKey(k))
  }

  /** Steps the payer and the rail make on their own. */
  predicate OfThePayer(s: T.Step) {
    s.Dispatched? || TR.EndsDispatch(s) || s.Take? || s.Expire? || s.Drain? || s.Progress? || s.Handle?
  }

  /** A payment returns; a definitive failure of an escrowed one makes its refund due. */
  function Finished(d: Desk, id: nat, inTime: bool): Desk
    requires id in d.payer.calls
  {
    var c := d.payer.calls[id];
    var failed := c.phase.Returned? && c.phase.ret.Refused? && inTime && c.tag == ESCROWED;
    d.(payer := d.payer.(calls := d.payer.calls - {id}), due := if failed then d.due + [c.atoms] else d.due)
  }

  function Next(d: Desk, who: string, s: Step): Option<Desk> {
    match s
    case Credit(atoms) => Some(d.(balance := d.balance + atoms, credited := d.credited + atoms))
    case Charge(atoms) =>
      if atoms > d.balance then None else Some(d.(balance := d.balance - atoms, charged := d.charged + atoms))
    case Debit(atoms) =>
      if atoms == 0 || atoms > d.balance then None
      else Some(d.(balance := d.balance - atoms, debits := d.debits + [atoms], starting := d.starting + [atoms]))
    case Start(index) =>
      if index >= |d.starting| then None
      else Some(d.(starting := Without(d.starting, index),
                   payer := T.Next(d.payer, T.Expect(who, d.starting[index], ESCROWED)).value))
    case Buy(uid, amount) =>
      Some(d.(payer := T.Next(d.payer, T.Expect(uid, amount, UNESCROWED)).value,
              bought := d.bought + [T.KeyOf(uid, amount * 1000)]))
    case Leave(id) =>
      if T.Next(d.payer, T.Leave(id)).None? then None
      else Some(d.(payer := T.Next(d.payer, T.Leave(id)).value,
                   launched := d.launched + [T.CallKey(d.payer.calls[id])]))
    case Tip(tip) =>
      if !OfThePayer(tip) || T.Next(d.payer, tip).None? then None
      else if tip.Progress? && VerdictOf(tip.completed, tip.attemptErr, tip.willRetry).Some?
              && !FromALaunchedTip(d, T.KeyOf(tip.uid, tip.matoms)) then None
      else Some(d.(payer := T.Next(d.payer, tip).value))
    case Finish(id, inTime) => if T.Next(d.payer, T.Finish(id)).None? then None else Some(Finished(d, id, inTime))
    case Refund(index) =>
      if index >= |d.due| then None
      else Some(d.(due := Without(d.due, index), refunds := d.refunds + [d.due[index]],
                   balance := d.balance + d.due[index]))
    case Crash => Some(d.(payer := T.Crashed(d.payer), starting := [], due := []))
  }

  datatype Trace = Begin | Then(before: Trace, step: Step)

  function End(t: Trace, who: string): Option<Desk> {
    match t
    case Begin => Some(Desk(0, [], [], T.Payer([], map[], 0, [], [], []), [], [], [], [], 0, 0))
    case Then(before, step) => if End(before, who).None? then None else Next(End(before, who).value, who, step)
  }

  // ------------------------------------------------------------ the account

  function OfAtoms(who: string, w: Weight): int -> int {
    (atoms: int) => w(Paying(who, atoms))
  }

  function OfKeys(w: Weight): Key -> int {
    (k: Key) => w(k)
  }

  function OfFailures(w: Weight): T.Event -> int {
    (e: T.Event) => if e.verdict.Failed? then w(T.EventKey(e)) else 0
  }

  function When(b: bool, n: nat): nat {
    if b then n else 0
  }

  /** What an open payment may still take from the account: a tip that has not left, and each refusal it may report. */
  function Open(c: T.Call, w: Weight): nat {
    var n := w(T.CallKey(c));
    When(c.phase.Dialing?, n) + When(c.box.Some? && c.box.value.verdict.Failed?, n)
    + When(c.phase.Returned? && c.phase.ret.Refused?, n)
  }

  function Opens(calls: map<nat, T.Call>, w: Weight): map<nat, int> {
    map id | id in calls :: Open(calls[id], w)
  }

  /** What the payer holds of the account, less the failures it was fed. */
  ghost function Holding(p: T.Payer, w: Weight): int {
    Sum(Opens(p.calls, w)) - Total(p.events, OfFailures(w))
  }

  /** Debits that were not refunded, and payments without escrow. */
  function Funded(d: Desk, who: string, w: Weight): int {
    Total(d.debits, OfAtoms(who, w)) - Total(d.refunds, OfAtoms(who, w)) + Total(d.bought, OfKeys(w))
  }

  /** Tips launched or about to be and refunds due, less failures. */
  ghost function Spent(d: Desk, who: string, w: Weight): int {
    Total(d.launched, OfKeys(w)) + Total(d.starting, OfAtoms(who, w)) + Total(d.due, OfAtoms(who, w))
    + Holding(d.payer, w)
  }

  ghost predicate Covered(d: Desk, who: string, w: Weight) {
    Spent(d, who, w) <= Funded(d, who, w)
  }

  ghost predicate FromTips(d: Desk, k: Key) {
    Count(d.payer.events, T.EventFor(k)) <= Count(d.launched, T.OfKey(k))
  }

  /** Escrowed payments go to the provider. */
  ghost predicate Own(p: T.Payer, who: string) {
    forall id :: id in p.calls && p.calls[id].tag == ESCROWED ==> p.calls[id].uid == who
  }

  function Itself(): int -> int {
    (atoms: int) => atoms
  }

  ghost predicate Positive(s: seq<int>) {
    forall i :: 0 <= i < |s| ==> 0 < s[i]
  }

  ghost predicate Balanced(d: Desk) {
    && d.balance + d.charged + Total(d.debits, Itself()) - Total(d.refunds, Itself()) == d.credited
    && 0 <= d.balance && 0 <= d.charged
  }

  /** The provider's ledger; every amount in it is positive. */
  ghost predicate Books(d: Desk) {
    && Balanced(d) && Positive(d.debits) && Positive(d.refunds) && Positive(d.due) && Positive(d.starting)
    && (forall id :: id in d.payer.calls && d.payer.calls[id].tag == ESCROWED ==> 0 < d.payer.calls[id].atoms)
  }

  ghost predicate Inv(d: Desk, who: string) {
    T.Inv(d.payer) && Own(d.payer, who) && Books(d) && forall k {:trigger FromTips(d, k)} :: FromTips(d, k)
  }

  // ------------------------------------------------------------ the payer's part

  lemma OpenStore(calls: map<nat, T.Call>, id: nat, c: T.Call, w: Weight)
    ensures Sum(Opens(calls[id := c], w))
         == Sum(Opens(calls, w)) - (if id in calls then Open(calls[id], w) else 0) + Open(c, w)
  {
    assert Opens(calls[id := c], w) == Opens(calls, w)[id := Open(c, w)];
    SumStore(Opens(calls, w), id, Open(c, w));
  }

  lemma OpenDrop(calls: map<nat, T.Call>, id: nat, w: Weight)
    requires id in calls
    ensures Sum(Opens(calls - {id}, w)) == Sum(Opens(calls, w)) - Open(calls[id], w)
  {
    assert Opens(calls - {id}, w) == Opens(calls, w) - {id};
    SumDrop(Opens(calls, w), id);
  }

  lemma NothingOpen(w: Weight)
    ensures Sum(Opens(map[], w)) == 0
  {
    assert Opens(map[], w) == map[];
  }

  lemma Replaced(p: T.Payer, p': T.Payer, id: nat, c: T.Call, w: Weight)
    requires id in p.calls && p'.calls == p.calls[id := c] && p'.events == p.events
    ensures Holding(p', w) == Holding(p, w) - Open(p.calls[id], w) + Open(c, w)
  {
    OpenStore(p.calls, id, c, w);
  }

  /** A payment given a failure may report it: as much as the failure takes from the account. */
  lemma GivenHolds(p: T.Payer, p': T.Payer, e: T.Event, id: nat, n: nat, w: Weight)
    requires id in p.calls && p.calls[id].box == None && T.CallKey(p.calls[id]) == T.EventKey(e)
    requires p'.calls == p.calls[id := p.calls[id].(box := Some(T.Given(n, e.verdict)))]
    requires p'.events == p.events + [e]
    ensures Holding(p', w) <= Holding(p, w)
  {
    OpenStore(p.calls, id, p.calls[id].(box := Some(T.Given(n, e.verdict))), w);
    TotalSnoc(p.events, e, OfFailures(w));
  }

  lemma FedHolds(p: T.Payer, e: T.Event, w: Weight)
    requires T.Inv(p)
    ensures Holding(T.Fed(p, e), w) <= Holding(p, w)
  {
    var i := First(p.waiters, T.Awaiting(p.calls, T.EventKey(e)));
    if i < |p.waiters| {
      var id := p.waiters[i];
      assert T.Awaiting(p.calls, T.EventKey(e))(id) && T.WaiterOk(p, i);
      GivenHolds(p, T.Fed(p, e), e, id, |p.events|, w);
    } else {
      TotalSnoc(p.events, e, OfFailures(w));
    }
  }

  lemma CallHolds(p: T.Payer, s: T.Step, w: Weight)
    requires T.Next(p, s).Some? && (s.Dispatched? || TR.EndsDispatch(s) || s.Expire?)
    ensures Holding(T.Next(p, s).value, w) <= Holding(p, w)
  {
    Replaced(p, T.Next(p, s).value, s.id, T.Next(p, s).value.calls[s.id], w);
  }

  lemma ReturnHolds(p: T.Payer, s: T.Step, w: Weight)
    requires T.Next(p, s).Some? && (s.Take? || s.Drain?)
    ensures Holding(T.Next(p, s).value, w) <= Holding(p, w)
  {
    Replaced(p, T.Next(p, s).value, s.id, T.Next(p, s).value.calls[s.id], w);
  }

  /** No step of the payer alone adds to its part of the account. */
  lemma PayerHolds(p: T.Payer, s: T.Step, w: Weight)
    requires T.Inv(p) && OfThePayer(s) && T.Next(p, s).Some?
    ensures Holding(T.Next(p, s).value, w) <= Holding(p, w)
  {
    if s.Progress? {
      var v := VerdictOf(s.completed, s.attemptErr, s.willRetry);
      if v.Some? {
        FedHolds(p, T.Event(s.uid, s.matoms, s.completed, v.value), w);
      }
    } else if s.Take? || s.Drain? {
      ReturnHolds(p, s, w);
    } else if !s.Handle? {
      CallHolds(p, s, w);
    }
  }

  // ------------------------------------------------------------ every step keeps the account

  lemma LedgerCovered(d: Desk, who: string, s: Step, w: Weight)
    requires Covered(d, who, w) && Next(d, who, s).Some? && (s.Debit? || s.Refund? || s.Credit? || s.Charge?)
    ensures Covered(Next(d, who, s).value, who, w)
  {
    if s.Debit? {
      TotalSnoc(d.debits, s.atoms as int, OfAtoms(who, w));
      TotalSnoc(d.starting, s.atoms as int, OfAtoms(who, w));
    } else if s.Refund? {
      TotalSnoc(d.refunds, d.due[s.index], OfAtoms(who, w));
      TotalWithout(d.due, s.index, OfAtoms(who, w));
    }
  }

  lemma BeginsCovered(d: Desk, who: string, s: Step, w: Weight)
    requires T.Inv(d.payer) && Covered(d, who, w) && Next(d, who, s).Some? && (s.Start? || s.Buy?)
    ensures Covered(Next(d, who, s).value, who, w)
  {
    var id := d.payer.next;
    var c := Next(d, who, s).value.payer.calls[id];
    assert T.CallOk(d.payer, id);
    OpenStore(d.payer.calls, id, c, w);
    if s.Start? {
      TotalWithout(d.starting, s.index, OfAtoms(who, w));
      assert T.CallKey(c) == Paying(who, d.starting[s.index]);
    } else {
      TotalSnoc(d.bought, T.CallKey(c), OfKeys(w));
      assert T.CallKey(c) == T.KeyOf(s.uid, s.amount * 1000);
    }
  }

  lemma LeaveCovered(d: Desk, who: string, id: nat, w: Weight)
    requires Covered(d, who, w) && Next(d, who, Leave(id)).Some? && T.Inv(d.payer)
    ensures Covered(Next(d, who, Leave(id)).value, who, w)
  {
    var d' := Next(d, who, Leave(id)).value;
    TotalSnoc(d.launched, T.CallKey(d.payer.calls[id]), OfKeys(w));
    Replaced(d.payer, d'.payer, id, d'.payer.calls[id], w);
  }

  /** A refusal that is reported becomes a refund due. */
  lemma FinishCovered(d: Desk, who: string, id: nat, inTime: bool, w: Weight)
    requires Covered(d, who, w) && Own(d.payer, who) && Next(d, who, Finish(id, inTime)).Some?
    ensures Covered(Next(d, who, Finish(id, inTime)).value, who, w)
  {
    var c := d.payer.calls[id];
    OpenDrop(d.payer.calls, id, w);
    TotalSnoc(d.due, c.atoms, OfAtoms(who, w));
    assert c.tag == ESCROWED ==> T.CallKey(c) == Paying(who, c.atoms);
  }

  lemma WeightsNonNegative(s: seq<int>, who: string, w: Weight)
    ensures 0 <= Total(s, OfAtoms(who, w))
  {
    forall a ensures 0 <= OfAtoms(who, w)(a) {
      assert OfAtoms(who, w)(a) == w(Paying(who, a));
    }
    TotalNonNegative(s, OfAtoms(who, w));
  }

  lemma CrashCovered(d: Desk, who: string, w: Weight)
    requires Covered(d, who, w)
    ensures Covered(Next(d, who, Crash).value, who, w)
  {
    NothingOpen(w);
    SumNonNegative(Opens(d.payer.calls, w));
    WeightsNonNegative(d.starting, who, w);
    WeightsNonNegative(d.due, who, w);
  }

  lemma {:induction false} NextCovered(d: Desk, who: string, s: Step, w: Weight)
    requires Inv(d, who) && Covered(d, who, w) && Next(d, who, s).Some?
    ensures Covered(Next(d, who, s).value, who, w)
  {
    match s {
      case Start(_) => BeginsCovered(d, who, s, w);
      case Buy(_, _) => BeginsCovered(d, who, s, w);
      case Leave(id) => LeaveCovered(d, who, id, w);
      case Tip(tip) => PayerHolds(d.payer, tip, w);
      case Finish(id, inTime) => FinishCovered(d, who, id, inTime, w);
      case Crash => CrashCovered(d, who, w);
      case _ => LedgerCovered(d, who, s, w);
    }
  }

  /** What the payer is asked to do in a step. */
  function Asked(d: Desk, who: string, s: Step): Option<T.Step> {
    match s
    case Start(index) => if index < |d.starting| then Some(T.Expect(who, d.starting[index], ESCROWED)) else None
    case Buy(uid, amount) => Some(T.Expect(uid, amount, UNESCROWED))
    case Leave(id) => Some(T.Leave(id))
    case Tip(tip) => Some(tip)
    case Finish(id, _) => Some(T.Finish(id))
    case Crash => Some(T.Crash)
    case _ => None
  }

  lemma PayerStep(d: Desk, who: string, s: Step)
    requires Next(d, who, s).Some?
    ensures var a := Asked(d, who, s);
            if a.None? then Next(d, who, s).value.payer == d.payer
            else T.Next(d.payer, a.value) == Some(Next(d, who, s).value.payer)
  {
  }

  lemma EscrowedStay(d: Desk, who: string, s: Step)
    requires Inv(d, who) && Next(d, who, s).Some?
    ensures var p := Next(d, who, s).value.payer;
            forall id :: id in p.calls && p.calls[id].tag == ESCROWED ==>
              p.calls[id].uid == who && 0 < p.calls[id].atoms
  {
    var p := Next(d, who, s).value.payer;
    PayerStep(d, who, s);
    forall id | id in p.calls && p.calls[id].tag == ESCROWED ensures p.calls[id].uid == who && 0 < p.calls[id].atoms {
      if Asked(d, who, s).Some? {
        T.CallsStay(d.payer, Asked(d, who, s).value, id);
      }
    }
  }

  lemma LedgerBalances(d: Desk, who: string, s: Step)
    requires Balanced(d) && Positive(d.due) && Next(d, who, s).Some?
    ensures Balanced(Next(d, who, s).value)
  {
    if s.Debit? {
      TotalSnoc(d.debits, s.atoms as int, Itself());
    } else if s.Refund? {
      TotalSnoc(d.refunds, d.due[s.index], Itself());
    }
  }

  lemma AmountsPositive(d: Desk, who: string, s: Step)
    requires Inv(d, who) && Next(d, who, s).Some?
    ensures var d' := Next(d, who, s).value;
            Positive(d'.debits) && Positive(d'.refunds) && Positive(d'.due) && Positive(d'.starting)
  {
  }

  lemma NextBooks(d: Desk, who: string, s: Step)
    requires Inv(d, who) && Next(d, who, s).Some?
    ensures Books(Next(d, who, s).value)
  {
    EscrowedStay(d, who, s);
    LedgerBalances(d, who, s);
    AmountsPositive(d, who, s);
  }

  lemma NextFromTips(d: Desk, who: string, s: Step, k: Key)
    requires Inv(d, who) && Next(d, who, s).Some?
    ensures FromTips(Next(d, who, s).value, k)
  {
    assert FromTips(d, k);
    if s.Leave? {
      CountSnoc(d.launched, T.CallKey(d.payer.calls[s.id]), T.OfKey(k));
    } else if s.Tip? && s.tip.Progress? {
      ProgressFromTips(d, who, s.tip, k);
    } else {
      NoNewEvents(d, who, s);
    }
  }

  lemma ProgressFromTips(d: Desk, who: string, tip: T.Step, k: Key)
    requires FromTips(d, k) && tip.Progress? && Next(d, who, Tip(tip)).Some?
    ensures FromTips(Next(d, who, Tip(tip)).value, k)
  {
    var v := VerdictOf(tip.completed, tip.attemptErr, tip.willRetry);
    if v.Some? {
      CountSnoc(d.payer.events, T.Event(tip.uid, tip.matoms, tip.completed, v.value), T.EventFor(k));
    }
  }

  lemma NoNewEvents(d: Desk, who: string, s: Step)
    requires Next(d, who, s).Some? && !s.Leave? && !(s.Tip? && s.tip.Progress?)
    ensures Next(d, who, s).value.payer.events == d.payer.events && Next(d, who, s).value.launched == d.launched
  {
  }

  lemma NextKeeps(d: Desk, who: string, s: Step)
    requires Inv(d, who) && Next(d, who, s).Some?
    ensures Inv(Next(d, who, s).value, who)
  {
    PayerStep(d, who, s);
    EscrowedStay(d, who, s);
    NextBooks(d, who, s);
    if Asked(d, who, s).Some? {
      T.NextKeeps(d.payer, Asked(d, who, s).value);
    }
    forall k ensures FromTips(Next(d, who, s).value, k) {
      NextFromTips(d, who, s, k);
    }
  }

  lemma NothingYet(d: Desk, who: string)
    requires d.balance == 0 && d.credited == 0 && d.charged == 0
    requires d.starting == [] && d.due == [] && d.debits == [] && d.refunds == []
    requires T.Inv(d.payer) && d.payer.calls == map[] && d.payer.events == []
    ensures Inv(d, who)
  {
    forall k ensures FromTips(d, k) {
    }
  }

  lemma {:induction false} RunKeeps(t: Trace, who: string)
    requires End(t, who).Some?
    ensures Inv(End(t, who).value, who)
  {
    if t.Then? {
      RunKeeps(t.before, who);
      NextKeeps(End(t.before, who).value, who, t.step);
    } else {
      TR.RunKeeps(TR.Begin);
      NothingYet(End(t, who).value, who);
    }
  }

  lemma {:induction false} RunCovered(t: Trace, who: string, w: Weight)
    requires End(t, who).Some?
    ensures Covered(End(t, who).value, who, w)
  {
    if t.Then? {
      RunCovered(t.before, who, w);
      RunKeeps(t.before, who);
      NextCovered(End(t.before, who).value, who, t.step, w);
    } else {
      NothingOpen(w);
    }
  }

  /**
   * Whatever is counted, in every run of payments, deadlines, outcomes matched in turn, crashes and restarts: the tips
   * that reached the rail less those that failed are covered by debits that were not refunded, and by payments
   * without escrow.
   */
  lemma TipsAreFunded(t: Trace, who: string, d: Desk, w: Weight)
    requires End(t, who) == Some(d)
    ensures Total(d.launched, OfKeys(w)) - Total(d.payer.events, OfFailures(w)) <= Funded(d, who, w)
  {
    RunCovered(t, who, w);
    SumNonNegative(Opens(d.payer.calls, w));
    WeightsNonNegative(d.starting, who, w);
    WeightsNonNegative(d.due, who, w);
  }

  // ------------------------------------------------------------ per amount, and in all

  function Only(k: Key): Weight {
    (j: Key) => if j == k then 1 else 0
  }

  lemma {:induction false} KeysCounted(ks: seq<Key>, k: Key)
    ensures Total(ks, OfKeys(Only(k))) == Count(ks, T.OfKey(k))
  {
    if ks != [] {
      KeysCounted(ks[..|ks| - 1], k);
    }
  }

  lemma {:induction false} FailuresCounted(events: seq<T.Event>, k: Key)
    ensures Total(events, OfFailures(Only(k))) == Count(events, T.FailureFor(k))
  {
    if events != [] {
      FailuresCounted(events[..|events| - 1], k);
    }
  }

  lemma SettledAreLaunched(launched: seq<Key>, events: seq<T.Event>, k: Key)
    requires Count(events, T.EventFor(k)) <= Count(launched, T.OfKey(k))
    ensures Count(events, T.SettlementFor(k)) <= Total(launched, OfKeys(Only(k))) - Total(events, OfFailures(Only(k)))
  {
    KeysCounted(launched, k);
    T.VerdictsSplit(events, k);
    FailuresCounted(events, k);
  }

  /**
   * For each amount, the tips that settled toward the provider are at most its debits of that amount that were not
   * refunded, and the payments of that amount made to it without escrow.
   */
  lemma SettledTipsAreDebited(t: Trace, who: string, d: Desk, atoms: int)
    requires End(t, who) == Some(d)
    ensures Count(d.payer.events, T.SettlementFor(Paying(who, atoms))) <= Funded(d, who, Only(Paying(who, atoms)))
  {
    SettledAreFunded(t, who, d, Paying(who, atoms));
  }

  lemma RunFromTips(t: Trace, who: string, k: Key)
    requires End(t, who).Some?
    ensures FromTips(End(t, who).value, k)
  {
    RunKeeps(t, who);
  }

  lemma SettledAreFunded(t: Trace, who: string, d: Desk, k: Key)
    requires End(t, who) == Some(d)
    ensures Count(d.payer.events, T.SettlementFor(k)) <= Funded(d, who, Only(k))
  {
    RunFromTips(t, who, k);
    TipsAreFunded(t, who, d, Only(k));
    SettledAreLaunched(d.launched, d.payer.events, k);
  }

  /** A tip to the provider counts its whole atoms, any other nothing. */
  function AtomsTo(who: string): Weight {
    (k: Key) => if k.uid == Lower(who) && 0 < k.matoms then k.matoms / 1000 else 0
  }

  lemma {:induction false} AtomsAreThemselves(s: seq<int>, who: string)
    requires Positive(s)
    ensures Total(s, OfAtoms(who, AtomsTo(who))) == Total(s, Itself())
  {
    if s != [] {
      var a := s[|s| - 1];
      AtomsAreThemselves(s[..|s| - 1], who);
      assert OfAtoms(who, AtomsTo(who))(a) == AtomsTo(who)(Paying(who, a));
      assert a * 1000 / 1000 == a;
    }
  }

  /**
   * The atoms of the tips that left toward the provider, less those of failed ones, are covered by its test debits that
   * were not refunded and by what was paid to it without escrow; and those debits never exceed what was credited to the
   * provider, less its other charges.
   */
  lemma EscrowCoversTips(t: Trace, who: string, d: Desk)
    requires End(t, who) == Some(d)
    ensures Total(d.launched, OfKeys(AtomsTo(who))) - Total(d.payer.events, OfFailures(AtomsTo(who)))
            <= Total(d.debits, Itself()) - Total(d.refunds, Itself()) + Total(d.bought, OfKeys(AtomsTo(who)))
    ensures Total(d.debits, Itself()) - Total(d.refunds, Itself()) <= d.credited - d.charged
  {
    RunKeeps(t, who);
    TipsAreFunded(t, who, d, AtomsTo(who));
    FundedInAtoms(d, who);
    NetIsCredited(d);
  }

  lemma FundedInAtoms(d: Desk, who: string)
    requires Positive(d.debits) && Positive(d.refunds)
    ensures Funded(d, who, AtomsTo(who))
         == Total(d.debits, Itself()) - Total(d.refunds, Itself()) + Total(d.bought, OfKeys(AtomsTo(who)))
  {
    AtomsAreThemselves(d.debits, who);
    AtomsAreThemselves(d.refunds, who);
  }

  lemma NetIsCredited(d: Desk)
    requires Balanced(d)
    ensures Total(d.debits, Itself()) - Total(d.refunds, Itself()) <= d.credited - d.charged
  {
  }
}
