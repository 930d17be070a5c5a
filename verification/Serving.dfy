/**
 * Whole runs of the serving harness (the tool handler in server/harness.go) as a state machine: every
 * lock section and every file write is one step, any number of calls interleave, and a crash may fall
 * between any two steps. Each step is labelled; labels carry what the environment decides.
 */
module Serving {
  import opened Wrappers
  import opened MapSums
  import opened CallJournal
  import opened ServerLedger
  import opened ServingHarness

  /** A record's identity: created by a claim in this life, or rebuilt from the journal. */
  datatype Id = Fresh(n: nat) | Loaded(key: string, life: nat)

  datatype Reply = Answered(outcome: Outcome) | Refused | Quoted(price: int, shortfall: int)

  /** Where the goroutine that owns a claim stands, named after what it has done last. */
  datatype Phase =
    | Claimed                      // holds the claim; nothing charged
    | Short(price: int)            // the debit failed; about to read the balance for the quote
    | Paid                         // debited; the charge is not journaled yet
    | Ready                        // free, or charged and journaled; about to run the handler
    | Running
    | Failed(o: Outcome)           // the handler of a paid call failed; refund due
    | Finishing(o: Outcome)        // about to fill in the record
    | Recorded(o: Outcome)         // record filled in; the journal does not know yet
    | Closing(o: Outcome)          // journaled; the done channel is still open
    | Releasing(reply: Reply)      // claim abandoned; the done channel is still open

  datatype Owner = Owner(key: string, peer: string, price: int, phase: Phase)

  datatype Mode = Up | Down | Booting(todo: set<string>, credited: Option<string>)

  /** Variables the program does not have: what has happened so far. */
  datatype History = History(
    credited: int,                 // atoms credited from outside
    earned: int,                   // prices of calls journaled as completed without error
    lost: int,                     // prices debited but not journaled when a crash struck
    over: int,                     // prices refunded twice because a crash struck before the journal knew
    doneUntil: map<string, int>,   // journaled expiry, in seconds, of the latest paid outcome of a key
    outcomes: map<string, Outcome>, // that outcome, as executed
    starts: map<string, nat>,      // handler starts per key
    net: map<string, int>,         // debits minus refunds per key, made by its owners
    runs: map<string, seq<(int, Outcome)>>, // price and outcome of the finished executions of a key
    ran: map<Id, Outcome>,         // outcome of the execution made for a record
    until: map<string, int>,       // in-memory expiry of the latest outcome of a key
    replies: map<Id, (string, Reply)>, // key of each closed record, and what its call answered when it ran
    heard: map<nat, (Id, Outcome)> // what duplicates answered theirs, and off which record
  )

  datatype State = State(
    now: int,
    mode: Mode,
    ledger: Balances,
    journal: Journal,
    calls: map<string, Id>,
    recs: map<Id, Rec>,
    owners: map<Id, Owner>,
    waiters: map<nat, Id>,
    nextId: nat,
    hist: History)

  datatype Label =
    | Tick(ns: nat)
    | Tip(peer: string, atoms: int)
    | Claim(peer: string, callKey: string)
    | Refuse(r: Id)
    | Free(r: Id)
    | Debit(r: Id, price: int)
    | Quote(r: Id)
    | JournalCharge(r: Id)
    | Start(r: Id)
    | Return(r: Id, o: Outcome)
    | Repay(r: Id)
    | Record(r: Id)
    | JournalOutcome(r: Id)
    | Close(r: Id)
    | Wake(w: nat)
    | GiveUp(w: nat)
    | Crash
    | Boot
    | RefundOpen(key: string)
    | ForgetOpen
    | BootDone

  function CountOf(m: map<string, nat>, k: string): nat {
    if k in m then m[k] else 0
  }

  function NetOf(m: map<string, int>, k: string): int {
    if k in m then m[k] else 0
  }

  function RunsOf(m: map<string, seq<(int, Outcome)>>, k: string): seq<(int, Outcome)> {
    if k in m then m[k] else []
  }

  function SweptCalls(s: State): map<string, Id>
    requires forall k :: k in s.calls ==> s.calls[k] in s.recs
  {
    map k | k in s.calls && !Expired(s.recs[s.calls[k]], s.now) :: s.calls[k]
  }

  /** Every reference to a record finds one. */
  predicate Linked(s: State) {
    && (forall k :: k in s.calls ==> s.calls[k] in s.recs)
    && (forall r :: r in s.owners ==> r in s.recs)
    && (forall w :: w in s.waiters ==> s.waiters[w] in s.recs)
  }

  function With(s: State, r: Id, o: Owner): State {
    s.(owners := s.owners[r := o])
  }

  function At(s: State, r: Id, phase: Phase): State
    requires r in s.owners
  {
    With(s, r, s.owners[r].(phase := phase))
  }

  function SweptState(s: State): State
    requires Linked(s)
  {
    s.(calls := SweptCalls(s), journal := Collected(s.journal, s.now))
  }

  /** A caller that finds key in the table waits on its record. */
  function Parked(s: State, key: string): State
    requires key in s.calls
  {
    s.(waiters := s.waiters[s.nextId := s.calls[key]], nextId := s.nextId + 1)
  }

  /** A caller that does not becomes the owner of a new record. */
  function Entered(s: State, key: string, peer: string): State {
    var r := Fresh(s.nextId);
    s.(calls := s.calls[key := r], recs := s.recs[r := UNCLAIMED],
       owners := s.owners[r := Owner(key, peer, 0, Claimed)], nextId := s.nextId + 1)
  }

  function ClaimStep(s: State, peer: string, callKey: string): State
    requires Linked(s)
  {
    var key := peer + "|" + callKey;
    var s1 := SweptState(s);
    if key in s1.calls then Parked(s1, key) else Entered(s1, key, peer)
  }

  function LostBy(o: Owner): int {
    if o.phase.Paid? then o.price else 0
  }

  function OverpaidBy(o: Owner): int {
    if (o.phase.Finishing? || o.phase.Recorded?) && o.phase.o.err.Some? && o.price > 0 then o.price else 0
  }

  ghost function LostSum(owners: map<Id, Owner>): int {
    Sum(map r | r in owners :: LostBy(owners[r]))
  }

  ghost function OverpaidSum(owners: map<Id, Owner>): int {
    Sum(map r | r in owners :: OverpaidBy(owners[r]))
  }

  /** The atoms a restart has already credited for an entry it has not removed yet. */
  function HalfRefunded(s: State): int {
    if s.mode.Booting? && s.mode.credited.Some? && s.mode.credited.value in s.journal
    then s.journal[s.mode.credited.value].atoms else 0
  }

  ghost function CrashStep(s: State): State {
    s.(mode := Down, calls := map[], recs := map[], owners := map[], waiters := map[],
       hist := s.hist.(lost := s.hist.lost + LostSum(s.owners),
                       over := s.hist.over + OverpaidSum(s.owners) + HalfRefunded(s)))
  }

  // ---------------------------------------------------------------------------------------------
  // What a restart builds

  /** What is remembered of a key's latest journaled execution. */
  function Executed(h: History, key: string): Outcome {
    if key in h.outcomes then h.outcomes[key] else NILS
  }

  function LoadedCalls(loaded: map<string, Rec>, life: nat): map<string, Id> {
    map k | k in loaded :: Loaded(k, life)
  }

  function LoadedRecs(loaded: map<string, Rec>, life: nat): map<Id, Rec> {
    map k | k in loaded :: Loaded(k, life) := loaded[k]
  }

  function LoadedReplies(loaded: map<string, Rec>, h: History, life: nat): map<Id, (string, Reply)> {
    map k | k in loaded :: Loaded(k, life) := (k, Answered(Executed(h, k)))
  }

  /** The rebuilt records answer for the executions of an earlier life. */
  function BootDoneStep(s: State): State {
    var loaded := ReloadedRecords(s.journal, s.now);
    s.(mode := Up,
       calls := LoadedCalls(loaded, s.nextId),
       recs := LoadedRecs(loaded, s.nextId),
       journal := Collected(s.journal, s.now),
       nextId := s.nextId + 1,
       hist := s.hist.(replies := s.hist.replies + LoadedReplies(loaded, s.hist, s.nextId)))
  }

  // ---------------------------------------------------------------------------------------------
  // The steps of the owner of r; None where it stands elsewhere

  function RefuseAt(s: State, r: Id): Option<State>
    requires r in s.owners
  {
    if s.owners[r].phase.Claimed?
    then Some(At(s, r, Releasing(Refused)).(calls := s.calls - {s.owners[r].key})) else None
  }

  function FreeAt(s: State, r: Id): Option<State>
    requires r in s.owners
  {
    if s.owners[r].phase.Claimed? then Some(At(s, r, Ready)) else None
  }

  function DebitAt(s: State, r: Id, price: int): Option<State>
    requires r in s.owners
  {
    var o := s.owners[r];
    if !o.phase.Claimed? || price <= 0 then None
    else if Debited(s.ledger, o.peer, price).None? then Some(At(s, r, Short(price)))
    else Some(With(s, r, o.(price := price, phase := Paid))
              .(ledger := Debited(s.ledger, o.peer, price).value,
                hist := s.hist.(net := s.hist.net[o.key := NetOf(s.hist.net, o.key) + price])))
  }

  function QuoteAt(s: State, r: Id): Option<State>
    requires r in s.owners
  {
    var o := s.owners[r];
    if !o.phase.Short? then None
    else Some(At(s, r, Releasing(Quoted(o.phase.price, o.phase.price - BalanceOf(s.ledger, o.peer))))
              .(calls := s.calls - {o.key}))
  }

  function ChargeAt(s: State, r: Id): Option<State>
    requires r in s.owners
  {
    var o := s.owners[r];
    if o.phase.Paid? then Some(At(s, r, Ready).(journal := ChargedIn(s.journal, o.key, o.peer, o.price))) else None
  }

  function StartAt(s: State, r: Id): Option<State>
    requires r in s.owners
  {
    var key := s.owners[r].key;
    if !s.owners[r].phase.Ready? then None
    else Some(At(s, r, Running)
              .(hist := s.hist.(starts := s.hist.starts[key := CountOf(s.hist.starts, key) + 1])))
  }

  /** A handler returns no tool result, and no output beside an error; JSON never encodes a value to nothing. */
  predicate Returnable(o: Outcome) {
    o.result.None? && (o.err.Some? ==> o.out.None?) && Encoded(o)
  }

  function ReturnAt(s: State, r: Id, o: Outcome): Option<State>
    requires r in s.owners
  {
    if !s.owners[r].phase.Running? || !Returnable(o) then None
    else Some(At(s, r, if o.err.Some? && s.owners[r].price > 0 then Failed(o) else Finishing(o)))
  }

  function RepayAt(s: State, r: Id): Option<State>
    requires r in s.owners
  {
    var o := s.owners[r];
    if !o.phase.Failed? then None
    else Some(At(s, r, Finishing(o.phase.o))
              .(ledger := Credited(s.ledger, o.peer, o.price),
                hist := s.hist.(net := s.hist.net[o.key := NetOf(s.hist.net, o.key) - o.price])))
  }

  function RecordAt(s: State, r: Id): Option<State>
    requires r in s.owners
  {
    var o := s.owners[r];
    if !o.phase.Finishing? then None
    else
      var out, h := o.phase.o, s.hist;
      Some(At(s, r, Recorded(out))
           .(recs := s.recs[r := Rec(false, out, Some(s.now + CALL_KEY_TTL))],
             hist := h.(runs := h.runs[o.key := RunsOf(h.runs, o.key) + [(o.price, out)]], ran := h.ran[r := out],
                        until := h.until[o.key := s.now + CALL_KEY_TTL])))
  }

  function OutcomeAt(s: State, r: Id): Option<State>
    requires r in s.owners && r in s.recs
  {
    var o := s.owners[r];
    if !o.phase.Recorded? || s.recs[r].expires.None? then None
    else
      var out, expires, h := o.phase.o, s.recs[r].expires.value, s.hist;
      Some(At(s, r, Closing(out))
           .(journal := CompleteIn(s.journal, o.key, out, expires),
             hist := if o.price <= 0 then h
                     else h.(earned := h.earned + (if out.err.None? then o.price else 0),
                             doneUntil := h.doneUntil[o.key := UnixOf(expires)],
                             outcomes := h.outcomes[o.key := out])))
  }

  function ReplyOf(phase: Phase): Option<Reply> {
    match phase
    case Closing(out) => Some(Answered(out))
    case Releasing(reply) => Some(reply)
    case _ => None
  }

  function CloseAt(s: State, r: Id): Option<State>
    requires r in s.owners && r in s.recs
  {
    var o := s.owners[r];
    if ReplyOf(o.phase).None? then None
    else Some(s.(owners := s.owners - {r},
                 recs := s.recs[r := s.recs[r].(closed := true)],
                 hist := s.hist.(replies := s.hist.replies[r := (o.key, ReplyOf(o.phase).value)])))
  }

  predicate IsOwnerStep(l: Label) {
    l.Refuse? || l.Free? || l.Debit? || l.Quote? || l.JournalCharge? || l.Start? || l.Return?
    || l.Repay? || l.Record? || l.JournalOutcome? || l.Close?
  }

  function OwnerStep(s: State, l: Label): Option<State>
    requires IsOwnerStep(l)
  {
    if s.mode != Up || l.r !in s.owners || l.r !in s.recs then None
    else
      match l
      case Refuse(r) => RefuseAt(s, r)
      case Free(r) => FreeAt(s, r)
      case Debit(r, price) => DebitAt(s, r, price)
      case Quote(r) => QuoteAt(s, r)
      case JournalCharge(r) => ChargeAt(s, r)
      case Start(r) => StartAt(s, r)
      case Return(r, o) => ReturnAt(s, r, o)
      case Repay(r) => RepayAt(s, r)
      case Record(r) => RecordAt(s, r)
      case JournalOutcome(r) => OutcomeAt(s, r)
      case Close(r) => CloseAt(s, r)
  }

  // ---------------------------------------------------------------------------------------------
  // The other steps

  predicate IsBootStep(l: Label) {
    l.Crash? || l.Boot? || l.RefundOpen? || l.ForgetOpen? || l.BootDone?
  }

  /** Stopping and starting up. */
  ghost function BootStep(s: State, l: Label): Option<State>
    requires IsBootStep(l)
  {
    match l
    case Crash => Some(CrashStep(s))
    case Boot =>
      if s.mode != Down then None else Some(s.(mode := Booting(InterruptedIn(s.journal).Keys, None)))
    case RefundOpen(key) =>
      if !s.mode.Booting? || s.mode.credited.Some? || key !in s.mode.todo || key !in s.journal then None
      else Some(s.(mode := s.mode.(credited := Some(key)),
                   ledger := Credited(s.ledger, s.journal[key].peer, s.journal[key].atoms)))
    case ForgetOpen =>
      if !s.mode.Booting? || s.mode.credited.None? then None
      else Some(s.(mode := Booting(s.mode.todo - {s.mode.credited.value}, None),
                   journal := s.journal - {s.mode.credited.value}))
    case BootDone =>
      if s.mode != Booting({}, None) then None else Some(BootDoneStep(s))
  }

  /** A duplicate answers what the record it waited on says once that is closed. */
  function WakeStep(s: State, w: nat): Option<State> {
    if w !in s.waiters || s.waiters[w] !in s.recs || !s.recs[s.waiters[w]].closed then None
    else
      var r := s.waiters[w];
      Some(s.(waiters := s.waiters - {w}, hist := s.hist.(heard := s.hist.heard[w := (r, s.recs[r].outcome)])))
  }

  function TipStep(s: State, peer: string, atoms: int): State {
    s.(ledger := Credited(s.ledger, peer, atoms),
       hist := s.hist.(credited := s.hist.credited + (if atoms > 0 then atoms else 0)))
  }

  /** What label l does in s; None when l cannot happen there. */
  ghost function Step(s: State, l: Label): Option<State> {
    if !Linked(s) then None
    else if IsOwnerStep(l) then OwnerStep(s, l)
    else if IsBootStep(l) then BootStep(s, l)
    else
      match l
      case Tick(ns) => Some(s.(now := s.now + ns))
      case Tip(peer, atoms) => if s.mode != Up then None else Some(TipStep(s, peer, atoms))
      case Claim(peer, callKey) => if s.mode != Up then None else Some(ClaimStep(s, peer, callKey))
      case Wake(w) => WakeStep(s, w)
      case GiveUp(w) => if w !in s.waiters then None else Some(s.(waiters := s.waiters - {w}))
      case _ => None
  }

  ghost predicate Initial(s: State) {
    && s.mode == Down && s.ledger == map[] && s.journal == map[] && s.calls == map[] && s.recs == map[]
    && s.owners == map[] && s.waiters == map[]
    && s.hist == History(0, 0, 0, 0, map[], map[], map[], map[], map[], map[], map[], map[], map[])
  }

  // ---------------------------------------------------------------------------------------------
  // What an owner's step can touch

  ghost predicate SameAt<K, V>(m: map<K, V>, n: map<K, V>, k: K) {
    (k in m <==> k in n) && (k in m ==> m[k] == n[k])
  }

  ghost predicate SameBut<K(!new), V>(m: map<K, V>, n: map<K, V>, gone: K) {
    forall k {:trigger SameAt(m, n, k)} :: k != gone ==> SameAt(m, n, k)
  }

  /** Only the record, the claim, the journal entry and the history of the owner's own key change, and the ledger. */
  ghost predicate OwnerTouches(s: State, s': State, r: Id) {
    && r in s.owners && s'.now == s.now && s'.mode == s.mode && s'.nextId == s.nextId && s'.waiters == s.waiters
    && SameBut(s'.owners, s.owners, r) && SameBut(s'.recs, s.recs, r) && s'.recs.Keys == s.recs.Keys
    && (r in s'.owners ==> s'.owners[r].key == s.owners[r].key && s'.owners[r].peer == s.owners[r].peer)
    && SameBut(s'.calls, s.calls, s.owners[r].key) && SameBut(s'.journal, s.journal, s.owners[r].key)
    && HistoryTouches(s.hist, s'.hist, r, s.owners[r].key)
  }

  ghost predicate HistoryTouches(h: History, h': History, r: Id, key: string) {
    && h'.credited == h.credited && h'.lost == h.lost && h'.over == h.over && h'.heard == h.heard
    && SameBut(h'.doneUntil, h.doneUntil, key) && SameBut(h'.outcomes, h.outcomes, key)
    && SameBut(h'.starts, h.starts, key) && SameBut(h'.net, h.net, key)
    && SameBut(h'.runs, h.runs, key) && SameBut(h'.until, h.until, key)
    && SameBut(h'.replies, h.replies, r) && SameBut(h'.ran, h.ran, r)
  }

  lemma AtTouches(s: State, r: Id, phase: Phase)
    requires r in s.owners
    ensures OwnerTouches(s, At(s, r, phase), r)
  {
  }

  lemma RefuseTouches(s: State, r: Id)
    requires r in s.owners && RefuseAt(s, r).Some?
    ensures OwnerTouches(s, RefuseAt(s, r).value, r)
  {
  }

  lemma FreeTouches(s: State, r: Id)
    requires r in s.owners && FreeAt(s, r).Some?
    ensures OwnerTouches(s, FreeAt(s, r).value, r)
  {
  }

  lemma DebitTouches(s: State, r: Id, price: int)
    requires r in s.owners && DebitAt(s, r, price).Some?
    ensures OwnerTouches(s, DebitAt(s, r, price).value, r)
  {
    if Debited(s.ledger, s.owners[r].peer, price).None? {
      AtTouches(s, r, Short(price));
    }
  }

  lemma QuoteTouches(s: State, r: Id)
    requires r in s.owners && QuoteAt(s, r).Some?
    ensures OwnerTouches(s, QuoteAt(s, r).value, r)
  {
  }

  lemma ChargeTouches(s: State, r: Id)
    requires r in s.owners && ChargeAt(s, r).Some?
    ensures OwnerTouches(s, ChargeAt(s, r).value, r)
  {
  }

  lemma StartTouches(s: State, r: Id)
    requires r in s.owners && StartAt(s, r).Some?
    ensures OwnerTouches(s, StartAt(s, r).value, r)
  {
  }

  lemma ReturnTouches(s: State, r: Id, o: Outcome)
    requires r in s.owners && ReturnAt(s, r, o).Some?
    ensures OwnerTouches(s, ReturnAt(s, r, o).value, r)
  {
    AtTouches(s, r, if o.err.Some? && s.owners[r].price > 0 then Failed(o) else Finishing(o));
  }

  lemma RepayTouches(s: State, r: Id)
    requires r in s.owners && RepayAt(s, r).Some?
    ensures OwnerTouches(s, RepayAt(s, r).value, r)
  {
  }

  lemma RecordTouches(s: State, r: Id)
    requires r in s.owners && r in s.recs && RecordAt(s, r).Some?
    ensures OwnerTouches(s, RecordAt(s, r).value, r)
  {
  }

  lemma OutcomeTouches(s: State, r: Id)
    requires r in s.owners && r in s.recs && OutcomeAt(s, r).Some?
    ensures OwnerTouches(s, OutcomeAt(s, r).value, r)
  {
  }

  lemma CloseTouches(s: State, r: Id)
    requires r in s.owners && r in s.recs && CloseAt(s, r).Some?
    ensures OwnerTouches(s, CloseAt(s, r).value, r)
  {
  }

  lemma OwnerStepTouches(s: State, l: Label)
    requires IsOwnerStep(l) && OwnerStep(s, l).Some?
    ensures OwnerTouches(s, OwnerStep(s, l).value, l.r)
  {
    match l {
      case Refuse(r) => RefuseTouches(s, r);
      case Free(r) => FreeTouches(s, r);
      case Debit(r, price) => DebitTouches(s, r, price);
      case Quote(r) => QuoteTouches(s, r);
      case JournalCharge(r) => ChargeTouches(s, r);
      case Start(r) => StartTouches(s, r);
      case Return(r, o) => ReturnTouches(s, r, o);
      case Repay(r) => RepayTouches(s, r);
      case Record(r) => RecordTouches(s, r);
      case JournalOutcome(r) => OutcomeTouches(s, r);
      case Close(r) => CloseTouches(s, r);
    }
  }
}
