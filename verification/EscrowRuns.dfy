/**
 * The money of one provider's tests across crashes and restarts (paidCall in directory/client.go with the ledger of
 * server/ledger.go): each debit, hand-over and refund is its own step, and tips leave on their own schedule.
 */
module EscrowRuns {
  import opened Wrappers
  import opened MapSums

  /** Where a running call is with its payment. */
  datatype Stage = Debited | OnRail | Failed

  datatype Call = Call(atoms: int, stage: Stage)

  /** A payment handed to the rail: it may still leave, it left, or the rail refused it for good. */
  datatype Fate = May | Left | Dead

  datatype Tip = Tip(atoms: int, fate: Fate)

  /**
   * credited counts what the provider paid in, charged everything else taken from its balance; debited and refunded are
   * the test payments; stranded is what crashes left debited without a payment.
   */
  datatype Desk = Desk(balance: int, calls: map<nat, Call>, rail: map<nat, Tip>, credited: int, charged: int,
                       debited: int, refunded: int, stranded: int)

  datatype Step =
    | Credit(atoms: nat)
    | Charge(atoms: nat)
    | Debit(id: nat, atoms: nat)
    | HandOver(id: nat)
    | Leave(id: nat)
    | Confirm(id: nat)
    | Refuse(id: nat)
    | GiveUp(id: nat)
    | Refund(id: nat)
    | Crash

  /** Debited, and neither handed over nor refunded: what a crash strands. */
  ghost function Held(calls: map<nat, Call>): map<nat, int> {
    map id | id in calls :: if calls[id].stage == OnRail then 0 else calls[id].atoms
  }

  ghost function Alive(rail: map<nat, Tip>): map<nat, int> {
    map id | id in rail :: if rail[id].fate == Dead then 0 else rail[id].atoms
  }

  ghost function Gone(rail: map<nat, Tip>): map<nat, int> {
    map id | id in rail :: if rail[id].fate == Left then rail[id].atoms else 0
  }

  /** id numbers the payment; the rail refuses for good only what has not left. */
  ghost function Next(d: Desk, s: Step): Option<Desk> {
    match s
    case Credit(atoms) => Some(d.(balance := d.balance + atoms, credited := d.credited + atoms))
    case Charge(atoms) =>
      if atoms > d.balance then None else Some(d.(balance := d.balance - atoms, charged := d.charged + atoms))
    case Debit(id, atoms) =>
      if id in d.calls || id in d.rail || atoms == 0 || atoms > d.balance then None
      else Some(d.(balance := d.balance - atoms, debited := d.debited + atoms,
                   calls := d.calls[id := Call(atoms, Debited)]))
    case HandOver(id) =>
      if id !in d.calls || d.calls[id].stage != Debited || id in d.rail then None
      else Some(d.(calls := d.calls[id := d.calls[id].(stage := OnRail)],
                   rail := d.rail[id := Tip(d.calls[id].atoms, May)]))
    case Leave(id) =>
      if id !in d.rail || d.rail[id].fate != May then None
      else Some(d.(rail := d.rail[id := d.rail[id].(fate := Left)]))
    case Confirm(id) =>
      if id !in d.calls || d.calls[id].stage != OnRail || id !in d.rail || d.rail[id].fate != Left then None
      else Some(d.(calls := d.calls - {id}))
    case Refuse(id) =>
      if id !in d.calls || d.calls[id].stage != OnRail || id !in d.rail || d.rail[id].fate != May then None
      else Some(d.(calls := d.calls[id := d.calls[id].(stage := Failed)],
                   rail := d.rail[id := d.rail[id].(fate := Dead)]))
    case GiveUp(id) =>
      if id !in d.calls || d.calls[id].stage != OnRail then None else Some(d.(calls := d.calls - {id}))
    case Refund(id) =>
      if id !in d.calls || d.calls[id].stage != Failed then None
      else
        var atoms := d.calls[id].atoms;
        Some(d.(balance := d.balance + atoms, refunded := d.refunded + atoms, calls := d.calls - {id}))
    case Crash => Some(d.(calls := map[], stranded := d.stranded + Sum(Held(d.calls))))
  }

  /** The tips that left toward the provider. */
  ghost function Departed(d: Desk): int {
    Sum(Gone(d.rail))
  }

  datatype Trace = Begin | Then(before: Trace, step: Step)

  ghost function End(t: Trace): Option<Desk> {
    match t
    case Begin => Some(Desk(0, map[], map[], 0, 0, 0, 0, 0))
    case Then(before, step) => if End(before).None? then None else Next(End(before).value, step)
  }

  ghost predicate CallOk(d: Desk, id: nat) {
    id in d.calls ==>
      && 0 < d.calls[id].atoms
      && (d.calls[id].stage == Debited ==> id !in d.rail)
      && (d.calls[id].stage != Debited ==> id in d.rail && d.rail[id].atoms == d.calls[id].atoms)
      && (d.calls[id].stage == OnRail ==> d.rail[id].fate != Dead)
      && (d.calls[id].stage == Failed ==> d.rail[id].fate == Dead)
  }

  /** Every atom debited for a test is held by a call, on the rail or gone, stranded by a crash, or back. */
  ghost predicate Books(d: Desk) {
    && d.balance + d.charged + d.debited - d.refunded == d.credited
    && d.debited - d.refunded == Sum(Held(d.calls)) + Sum(Alive(d.rail)) + d.stranded
    && 0 <= d.balance && 0 <= d.charged && 0 <= d.stranded
  }

  ghost predicate Inv(d: Desk) {
    && Books(d)
    && (forall id {:trigger CallOk(d, id)} :: CallOk(d, id))
    && (forall id :: id in d.rail ==> 0 < d.rail[id].atoms)
  }

  lemma HeldStore(calls: map<nat, Call>, id: nat, c: Call)
    ensures Sum(Held(calls[id := c]))
         == Sum(Held(calls)) - (if id in calls && calls[id].stage != OnRail then calls[id].atoms else 0)
                                       + (if c.stage == OnRail then 0 else c.atoms)
  {
    assert Held(calls[id := c]) == Held(calls)[id := if c.stage == OnRail then 0 else c.atoms];
    SumStore(Held(calls), id, if c.stage == OnRail then 0 else c.atoms);
  }

  lemma HeldDrop(calls: map<nat, Call>, id: nat)
    requires id in calls
    ensures Sum(Held(calls - {id})) == Sum(Held(calls)) - (if calls[id].stage == OnRail then 0 else calls[id].atoms)
  {
    assert Held(calls - {id}) == Held(calls) - {id};
    SumDrop(Held(calls), id);
  }

  lemma AliveStore(rail: map<nat, Tip>, id: nat, t: Tip)
    ensures Sum(Alive(rail[id := t]))
         == Sum(Alive(rail)) - (if id in rail && rail[id].fate != Dead then rail[id].atoms else 0)
                                       + (if t.fate == Dead then 0 else t.atoms)
  {
    assert Alive(rail[id := t]) == Alive(rail)[id := if t.fate == Dead then 0 else t.atoms];
    SumStore(Alive(rail), id, if t.fate == Dead then 0 else t.atoms);
  }

  lemma NothingHeld()
    ensures Sum(Held(map[])) == 0 && Sum(Alive(map[])) == 0
  {
    assert Held(map[]) == map[] && Alive(map[]) == map[];
  }

  lemma HeldNonNegative(d: Desk)
    requires Inv(d)
    ensures 0 <= Sum(Held(d.calls))
  {
    forall id | id in Held(d.calls) ensures 0 <= Held(d.calls)[id] {
      assert CallOk(d, id);
    }
    SumNonNegative(Held(d.calls));
  }

  lemma CrashBooks(d: Desk)
    requires Inv(d)
    ensures Books(Next(d, Crash).value)
  {
    NothingHeld();
    HeldNonNegative(d);
  }

  lemma Escrowed(d: Desk)
    requires Inv(d)
    ensures Departed(d) <= Sum(Alive(d.rail)) <= d.debited - d.refunded
    ensures d.debited - d.refunded <= d.credited - d.charged
  {
    SumMonotone(Gone(d.rail), Alive(d.rail));
    HeldNonNegative(d);
  }

  lemma NextBooks(d: Desk, s: Step)
    requires Inv(d) && Next(d, s).Some?
    ensures Books(Next(d, s).value)
  {
    var d' := Next(d, s).value;
    match s {
      case Credit(_) =>
      case Charge(_) =>
      case Debit(id, _) => HeldStore(d.calls, id, d'.calls[id]);
      case HandOver(id) =>
        HeldStore(d.calls, id, d'.calls[id]);
        AliveStore(d.rail, id, d'.rail[id]);
      case Leave(id) => AliveStore(d.rail, id, d'.rail[id]);
      case Confirm(id) => HeldDrop(d.calls, id);
      case Refuse(id) =>
        assert CallOk(d, id);
        HeldStore(d.calls, id, d'.calls[id]);
        AliveStore(d.rail, id, d'.rail[id]);
      case GiveUp(id) => HeldDrop(d.calls, id);
      case Refund(id) =>
        assert CallOk(d, id);
        HeldDrop(d.calls, id);
      case Crash => CrashBooks(d);
    }
  }

  lemma NextKeeps(d: Desk, s: Step)
    requires Inv(d) && Next(d, s).Some?
    ensures Inv(Next(d, s).value)
  {
    NextBooks(d, s);
    var d' := Next(d, s).value;
    forall id ensures CallOk(d', id) {
      assert CallOk(d, id);
    }
    forall id | id in d'.rail ensures 0 < d'.rail[id].atoms {
      assert CallOk(d, id);
    }
  }

  lemma {:induction false} RunKeeps(t: Trace)
    requires End(t).Some?
    ensures Inv(End(t).value)
  {
    match t {
      case Begin => NothingHeld();
      case Then(before, step) =>
        RunKeeps(before);
        NextKeeps(End(before).value, step);
    }
  }

  /**
   * Whatever crashes and restarts occur, the test tips that left, together with those that still may, are covered by
   * test debits that were not refunded; and those never exceed what was credited to the provider, less its other
   * charges.
   */
  lemma TipsAreEscrowed(t: Trace, d: Desk)
    requires End(t) == Some(d)
    ensures Departed(d) <= Sum(Alive(d.rail)) <= d.debited - d.refunded
    ensures d.debited - d.refunded <= d.credited - d.charged
  {
    RunKeeps(t);
    Escrowed(d);
  }

  /** A crash strands nothing when every running call has handed its payment over and none waits for its refund. */
  ghost predicate GentleCrashes(t: Trace) {
    t.Then? ==>
      && GentleCrashes(t.before)
      && (t.step.Crash? && End(t.before).Some? ==> Sum(Held(End(t.before).value.calls)) == 0)
  }

  lemma StrandedStep(d: Desk, s: Step)
    requires Next(d, s).Some?
    ensures Next(d, s).value.stranded == d.stranded + (if s.Crash? then Sum(Held(d.calls)) else 0)
  {
  }

  /** Exactly the crashes between debit and hand-over, or between failure and refund, cost escrow. */
  lemma {:induction false} StrandedExactly(t: Trace)
    requires End(t).Some?
    ensures End(t).value.stranded == 0 <==> GentleCrashes(t)
    ensures 0 <= End(t).value.stranded
  {
    if t.Then? {
      StrandedExactly(t.before);
      RunKeeps(t.before);
      HeldNonNegative(End(t.before).value);
      StrandedStep(End(t.before).value, t.step);
    }
  }

  lemma AtRest(d: Desk)
    requires Inv(d) && d.stranded == 0 && d.calls == map[]
    ensures d.debited - d.refunded == Sum(Alive(d.rail))
  {
    NothingHeld();
  }

  /** At rest, and without such crashes, what the escrow lost is exactly what is on the rail or left it. */
  lemma EscrowAtRest(t: Trace, d: Desk)
    requires End(t) == Some(d) && GentleCrashes(t) && d.calls == map[]
    ensures d.debited - d.refunded == Sum(Alive(d.rail))
  {
    RunKeeps(t);
    StrandedExactly(t);
    AtRest(d);
  }
}
