/**
 * One provider's directory entry and every change the directory makes to it in one locked section
 * (directory/store.go, directory/pipeline.go, directory/admin.go). Times are in Unix seconds.
 */
module DirectoryEntry {
  import opened Wrappers

  /** A registration's position in the verification pipeline. */
  datatype Phase = Awaiting | Crawling | Testing | Pending

  datatype Outcome = Untested | Passed | Failed

  /** What the provider applied with; budget is the most its paid test may cost. */
  datatype Terms = Terms(text: string, tool: string, budget: int)

  /** id tells registrations apart; the source keeps no such number. */
  datatype Reg = Reg(id: nat, phase: Phase, terms: Terms, fee: int, key: string, paid: int, renewal: bool,
                     outcome: Outcome)

  /** A published listing; origin is the registration it came from. */
  datatype Live = Live(origin: nat, terms: Terms, checkedAt: int, verifiedAt: int, approvedAt: int, expiresAt: int)

  datatype Entry = Entry(live: Option<Live>, reg: Option<Reg>, flag: string)

  const EMPTY := Entry(None, None, "")

  /** The listing fee, the days a listing lasts and the ceiling of test budgets, with defaults applied. */
  datatype Policy = Policy(fee: int, expiryDays: int, budgetMax: int)

  predicate Sensible(p: Policy) {
    0 < p.fee && 0 < p.expiryDays && 0 < p.budgetMax
  }

  /** A value that is not positive selects the default. */
  function WithDefaults(p: Policy): (q: Policy)
    ensures Sensible(q)
    ensures if 0 < p.fee then q.fee == p.fee else q.fee == 100_000
    ensures if 0 < p.expiryDays then q.expiryDays == p.expiryDays else q.expiryDays == 30
    ensures if 0 < p.budgetMax then q.budgetMax == p.budgetMax else q.budgetMax == 10_000_000
  {
    Policy(if p.fee <= 0 then 100_000 else p.fee,
           if p.expiryDays <= 0 then 30 else p.expiryDays,
           if p.budgetMax <= 0 then 10_000_000 else p.budgetMax)
  }

  predicate InFlight(r: Reg) {
    r.phase == Crawling || r.phase == Testing
  }

  predicate Busy(e: Entry) {
    e.reg.Some? && InFlight(e.reg.value)
  }

  /** register: a running verification keeps its registration, any other is replaced. */
  function Registered(e: Entry, id: nat, terms: Terms, fee: int): Entry {
    if Busy(e) then e
    else e.(reg := Some(Reg(id, Awaiting, terms, fee, "", 0, e.live.Some?, Untested)))
  }

  /** Whether the balance covers fee and test of a registration that waits for funding. */
  predicate Fundable(e: Entry, balance: int) {
    e.reg.Some? && e.reg.value.phase == Awaiting && e.reg.value.fee + e.reg.value.terms.budget <= balance
  }

  function Moved(e: Entry): Entry
    requires e.reg.Some?
  {
    e.(reg := Some(e.reg.value.(phase := Crawling)))
  }

  function Parked(e: Entry): Option<Entry> {
    if e.reg.None? then None else Some(e.(reg := Some(e.reg.value.(phase := Pending, outcome := Failed))))
  }

  function Crawled(e: Entry, key: string): Option<Entry> {
    if e.reg.None? then None else Some(e.(reg := Some(e.reg.value.(phase := Testing, key := key))))
  }

  /** A passed renewal stays in its phase until it is promoted. */
  function Judged(e: Entry, paid: int, passed: bool): Option<Entry> {
    if e.reg.None? then None
    else
      var r := e.reg.value.(paid := paid, outcome := if passed then Passed else Failed);
      Some(e.(reg := Some(if passed && r.renewal then r else r.(phase := Pending))))
  }

  function Promoted(e: Entry, now: int, days: int): Option<Entry> {
    if e.reg.None? || e.reg.value.outcome != Passed then None
    else
      var r := e.reg.value;
      var approvedAt := if e.live.Some? then e.live.value.approvedAt else now;
      Some(Entry(Some(Live(r.id, r.terms, now, now, approvedAt, now + days * 86400)), None, ""))
  }

  function Rejected(e: Entry, reason: string): Option<Entry> {
    if e.reg.None? then None else Some(e.(reg := None, flag := if reason != "" then reason else e.flag))
  }

  function SpotChecked(e: Entry, id: nat, key: string, balance: int): Option<Entry> {
    if e.live.None? || e.reg.Some? || balance < e.live.value.terms.budget then None
    else Some(e.(reg := Some(Reg(id, Testing, e.live.value.terms, 0, key, 0, true, Untested))))
  }

  function Unlisted(e: Entry): Option<Entry> {
    if e.live.None? then None else Some(e.(live := None))
  }

  predicate Lapsed(e: Entry, now: int) {
    e.live.Some? && e.live.value.expiresAt <= now
  }

  function Refreshed(e: Entry, now: int): Option<Entry> {
    if e.live.None? then None else Some(e.(live := Some(e.live.value.(checkedAt := now))))
  }
}
