/**
 * Everything that can happen to one provider's entry, one locked section a step: the provider registering and
 * paying in, the pipeline verifying, administrators deciding, the sweep expiring, crashes and restarts
 * (directory/pipeline.go, directory/admin.go, directory/service.go).
 */
module Pipeline {
  import opened Wrappers
  import opened MapSums
  import opened DirectoryEntry

  /** The pipeline of this provider, if one is in flight, what it read, and when its promotion became due. */
  datatype Worker =
    | Idle
    | Begun
    | Crawls(id: nat, key: string)
    | Rereads
    | Tests(snap: Reg)
    | Publishes(id: nat, since: int)

  /** A listing put up from registration id; byPipeline tells a renewal from an administrator's approval. */
  datatype Publication = Publication(id: nat, renewal: bool, byPipeline: bool, approval: nat)

  /**
   * What happened so far: the registrations as they were made, those whose own test passed, the fees taken when they
   * moved on, fees a crash took without a move, deposits less other charges, publications, and whether the pipeline's
   * registration was taken from under it.
   */
  datatype History = History(issued: seq<Reg>, passed: set<nat>, moved: map<nat, int>, lost: int, net: int,
                             published: seq<Publication>, orphan: bool)

  /**
   * granted: when an administrator first saw a parked registration to approve; deleters, expirers: expiries between
   * their two sections.
   */
  datatype State = State(now: int, entry: Entry, worker: Worker, balance: int, granted: map<nat, int>, deleters: nat,
                         expirers: set<int>, hist: History)

  datatype Label =
    | Tick(secs: nat)
    | Credit(atoms: nat)
    | Charge(atoms: nat)
    | Register(terms: Terms)
    | Poke
    | PokeCrash
    | Spawn
    | Read
    | CrawlFails
    | CrawlPasses(newKey: string)
    | Reread
    | TestEnds(paidNow: nat, passed: bool)
    | Publish(at: int)
    | Interrupt
    | ApproveRead
    | ApprovePublish(id: nat, at: int)
    | Reject(reason: string)
    | SpotCheck(newKey: string)
    | Unlist
    | UnlistRead
    | SetFlag(note: string)
    | ExpireRead(at: int)
    | ExpireClear(at: int)
    | Delete
    | Recrawl(at: int)
    | Crash

  /** What is left of the registration's budget. */
  function Remaining(r: Reg): int {
    if r.terms.budget < r.paid then 0 else r.terms.budget - r.paid
  }

  /** The registration the pipeline read and acts for. */
  function Ticket(w: Worker): Option<nat> {
    match w
    case Crawls(id, _) => Some(id)
    case Tests(snap) => Some(snap.id)
    case Publishes(id, _) => Some(id)
    case _ => None
  }

  predicate Holds(s: State, r: Option<Reg>) {
    r.Some? && Ticket(s.worker) == Some(r.value.id)
  }

  /** The entry becomes e; a registration that leaves it while the pipeline acts for it makes the pipeline an orphan. */
  function WithEntry(s: State, e: Entry): State {
    var taken := Holds(s, s.entry.reg) && !Holds(s, e.reg);
    s.(entry := e, hist := s.hist.(orphan := s.hist.orphan || taken))
  }

  /** The pipeline turns to another registration or to none. */
  function WithWorker(s: State, w: Worker): State {
    s.(worker := w, hist := s.hist.(orphan := false))
  }

  /** promote; at is the clock it read before it took the lock. */
  function Published(s: State, p: Policy, at: int, byPipeline: bool, approval: nat): State
    requires Promoted(s.entry, at, p.expiryDays).Some?
  {
    var pub := Publication(s.entry.reg.value.id, s.entry.reg.value.renewal, byPipeline, approval);
    var t := WithEntry(s, Promoted(s.entry, at, p.expiryDays).value);
    t.(hist := t.hist.(published := s.hist.published + [pub]))
  }

  function ReadStep(s: State): State {
    if s.entry.reg.None? then WithWorker(s, Idle)
    else if s.entry.reg.value.phase == Crawling then WithWorker(s, Crawls(s.entry.reg.value.id, s.entry.reg.value.key))
    else WithWorker(s, Rereads)
  }

  function CrawlStep(s: State, key: string): State {
    match Crawled(s.entry, key)
    case None => WithWorker(s, Idle)
    case Some(e) => WithWorker(WithEntry(s, e), Rereads)
  }

  function TestStep(s: State, snap: Reg, paidNow: nat, passed: bool): State {
    var noted := if passed then s.(hist := s.hist.(passed := s.hist.passed + {snap.id})) else s;
    match Judged(s.entry, snap.paid + paidNow, passed)
    case None => WithWorker(noted, Idle)
    case Some(e) =>
      var judged := WithEntry(noted, e);
      if passed && s.entry.reg.value.renewal then judged.(worker := Publishes(snap.id, s.now))
      else WithWorker(judged, Idle)
  }

  function PublishStep(s: State, p: Policy, at: int): State {
    if Promoted(s.entry, at, p.expiryDays).None? then WithWorker(s, Idle)
    else Published(WithWorker(s, Idle), p, at, true, 0)
  }

  /** The steps of the provider, the clock and the money. */
  function OutsideStep(s: State, p: Policy, l: Label): Option<State> {
    match l
    case Tick(secs) => Some(s.(now := s.now + secs))
    case Credit(atoms) => Some(s.(balance := s.balance + atoms, hist := s.hist.(net := s.hist.net + atoms)))
    case Charge(atoms) =>
      if atoms <= s.balance then Some(s.(balance := s.balance - atoms, hist := s.hist.(net := s.hist.net - atoms)))
      else None
    case Register(terms) =>
      if !(0 < terms.budget <= p.budgetMax) then None
      else
        var e := Registered(s.entry, |s.hist.issued|, terms, p.fee);
        var t := WithEntry(s, e);
        Some(if Busy(s.entry) then t else t.(hist := t.hist.(issued := s.hist.issued + [e.reg.value])))
    case Poke =>
      if !Fundable(s.entry, s.balance) then None
      else
        var r := s.entry.reg.value;
        Some(s.(entry := Moved(s.entry), balance := s.balance - r.fee,
                hist := s.hist.(moved := s.hist.moved[r.id := r.fee])))
    case PokeCrash =>
      if !Fundable(s.entry, s.balance) then None
      else
        var fee := s.entry.reg.value.fee;
        Some(Crashed(s.(balance := s.balance - fee, hist := s.hist.(lost := s.hist.lost + fee))))
    case _ => None
  }

  /** The steps of the pipeline. */
  function WorkerStep(s: State, p: Policy, l: Label): Option<State> {
    match l
    case Spawn => if s.worker == Idle then Some(WithWorker(s, Begun)) else None
    case Read => if s.worker == Begun then Some(ReadStep(s)) else None
    case CrawlFails =>
      if !s.worker.Crawls? then None
      else if Parked(s.entry).None? then Some(WithWorker(s, Idle))
      else Some(WithWorker(WithEntry(s, Parked(s.entry).value), Idle))
    case CrawlPasses(newKey) =>
      if !s.worker.Crawls? || newKey == "" then None
      else Some(CrawlStep(s, if s.worker.key == "" then newKey else s.worker.key))
    case Reread =>
      if s.worker != Rereads then None
      else if s.entry.reg.None? || s.entry.reg.value.phase != Testing then Some(WithWorker(s, Idle))
      else Some(WithWorker(s, Tests(s.entry.reg.value)))
    case TestEnds(paidNow, passed) =>
      if !s.worker.Tests? || paidNow > Remaining(s.worker.snap) then None
      else Some(TestStep(s, s.worker.snap, paidNow, passed))
    case Publish(at) =>
      if s.worker.Publishes? && s.worker.since <= at <= s.now then Some(PublishStep(s, p, at)) else None
    case Interrupt => if s.worker.Crawls? || s.worker.Tests? then Some(WithWorker(s, Idle)) else None
    case _ => None
  }

  /** The steps of administrators and of the sweep. */
  function AdminStep(s: State, p: Policy, l: Label): Option<State> {
    match l
    case ApproveRead =>
      if s.entry.reg.None? || s.entry.reg.value.phase != Pending then None
      else if s.entry.reg.value.id in s.granted then Some(s)
      else Some(s.(granted := s.granted[s.entry.reg.value.id := s.now]))
    case ApprovePublish(id, at) =>
      if id !in s.granted || !(s.granted[id] <= at <= s.now) then None
      else if Promoted(s.entry, at, p.expiryDays).None? then Some(s)
      else Some(Published(s, p, at, false, id))
    case Reject(reason) =>
      if Rejected(s.entry, reason).None? then None else Some(WithEntry(s, Rejected(s.entry, reason).value))
    case SpotCheck(newKey) =>
      var e := SpotChecked(s.entry, |s.hist.issued|, newKey, s.balance);
      if newKey == "" || e.None? then None
      else Some(s.(entry := e.value, hist := s.hist.(issued := s.hist.issued + [e.value.reg.value])))
    case Unlist => if Unlisted(s.entry).None? then None else Some(s.(entry := Unlisted(s.entry).value))
    case UnlistRead => if s.entry.reg.Some? || s.entry.flag != "" then None else Some(s.(deleters := s.deleters + 1))
    case SetFlag(note) => Some(s.(entry := s.entry.(flag := note)))
    case ExpireRead(at) =>
      if at > s.now || !Lapsed(s.entry, at) then None
      else if s.entry.reg.None? then Some(s.(deleters := s.deleters + 1))
      else Some(s.(expirers := s.expirers + {at}))
    case ExpireClear(at) =>
      if at !in s.expirers then None
      else Some(s.(expirers := s.expirers - {at},
                   entry := if Lapsed(s.entry, at) then s.entry.(live := None) else s.entry))
    case Delete => if s.deleters == 0 then None else Some(WithEntry(s, EMPTY).(deleters := s.deleters - 1))
    case Recrawl(at) =>
      if at > s.now || Refreshed(s.entry, at).None? then None else Some(s.(entry := Refreshed(s.entry, at).value))
    case Crash => Some(Crashed(s))
    case _ => None
  }

  /** The process restarts: what is on disk stays. */
  function Crashed(s: State): State {
    WithWorker(s, Idle).(granted := map[], deleters := 0, expirers := {})
  }

  predicate IsOutside(l: Label) {
    l.Tick? || l.Credit? || l.Charge? || l.Register? || l.Poke? || l.PokeCrash?
  }

  predicate IsWorker(l: Label) {
    l.Spawn? || l.Read? || l.CrawlFails? || l.CrawlPasses? || l.Reread? || l.TestEnds? || l.Publish? || l.Interrupt?
  }

  function Step(s: State, p: Policy, l: Label): Option<State> {
    if IsOutside(l) then OutsideStep(s, p, l)
    else if IsWorker(l) then WorkerStep(s, p, l)
    else AdminStep(s, p, l)
  }

  /** The pipeline's write lands on a registration it did not read: the code only checks that there is one. */
  predicate StaleWrite(s: State, l: Label) {
    (l.CrawlFails? || l.CrawlPasses? || l.TestEnds? || l.Publish?)
    && s.entry.reg.Some? && Ticket(s.worker).Some? && s.entry.reg.value.id != Ticket(s.worker).value
  }

  /** The approval lands on a registration other than the one the administrator saw. */
  predicate StaleApproval(s: State, l: Label) {
    l.ApprovePublish? && s.entry.reg.Some? && s.entry.reg.value.id != l.id
  }

  datatype Trace = Begin(now: int) | Then(before: Trace, step: Label)

  ghost function End(t: Trace, p: Policy): Option<State> {
    match t
    case Begin(now) => Some(State(now, EMPTY, Idle, 0, map[], 0, {}, History([], {}, map[], 0, 0, [], false)))
    case Then(before, step) => if End(before, p).None? then None else Step(End(before, p).value, p, step)
  }

  /** No write of the run landed on a registration its author had not read. */
  ghost predicate Fresh(t: Trace, p: Policy) {
    t.Then? ==>
      && Fresh(t.before, p)
      && (End(t.before, p).Some? ==>
            !StaleWrite(End(t.before, p).value, t.step) && !StaleApproval(End(t.before, p).value, t.step))
  }
}
