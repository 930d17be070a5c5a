/**
 * Crediting received tips (the tip loop of server/bot.go): look up, credit, record, acknowledge. A tip that was not
 * acknowledged is delivered again, after a crash for instance.
 */
module TipCredits {
  import opened Wrappers
  import opened MapSums
  import opened ServerLedger
  import opened TipJournal

  /** One tip, named by its sequence id; the rail redelivers it unchanged. */
  datatype Tip = Tip(uid: string, matoms: int)

  /** The whole atoms a tip is worth; Go divides toward zero and the ledger ignores what is not positive. */
  function Worth(matoms: int): nat {
    if matoms <= 0 then 0 else matoms / 1000
  }

  /**
   * seqs is the journal; recorded everything it ever recorded, oldest first; credited the ids credited so far, and
   * extra, by peer, what was credited again.
   */
  datatype Bot = Bot(balances: Balances, seqs: seq<nat>, recorded: seq<nat>, credited: set<nat>, extra: Balances)

  /**
   * allowed tells whether the peer may earn credit at that moment. CrashBeforeRecord is a delivery whose credit is on
   * disk and whose record is not.
   */
  datatype Step = Deliver(id: nat, allowed: bool) | CrashBeforeRecord(id: nat, allowed: bool)

  /** The tips of the run. */
  datatype World = World(tips: nat -> Tip)

  function WithCredit(b: Bot, w: World, id: nat, allowed: bool): Bot {
    var t := w.tips(id);
    if !allowed || id in b.seqs then b
    else
      b.(balances := Credited(b.balances, t.uid, Worth(t.matoms)),
         credited := b.credited + {id},
         extra := if id in b.credited then Credited(b.extra, t.uid, Worth(t.matoms)) else b.extra)
  }

  function Next(b: Bot, w: World, s: Step): Bot {
    match s
    case Deliver(id, allowed) =>
      var c := WithCredit(b, w, id, allowed);
      if id in b.seqs then c else c.(seqs := Recorded(b.seqs, id), recorded := b.recorded + [id])
    case CrashBeforeRecord(id, allowed) => WithCredit(b, w, id, allowed)
  }

  datatype Trace = Begin | Then(before: Trace, step: Step)

  function End(t: Trace, w: World): Bot {
    match t
    case Begin => Bot(map[], [], [], {}, map[])
    case Then(before, step) => Next(End(before, w), w, step)
  }

  /** The tip loop's work on one delivered tip, up to the acknowledgement. */
  method ReceiveTip(ledger: Ledger, tips: Journal, uid: string, matoms: int, id: nat, allowed: bool)
    returns (already: bool)
    requires ledger.Valid() && tips.Valid()
    modifies ledger, tips
    ensures ledger.Valid() && tips.Valid() && already == (id in old(tips.seqs))
    ensures tips.seqs == Recorded(old(tips.seqs), id)
    ensures ledger.balances == if allowed && !already then Credited(old(ledger.balances), uid, Worth(matoms))
         else old(ledger.balances)
    ensures forall other :: BalanceOf(ledger.balances, other)
                         == BalanceOf(old(ledger.balances), other)
                          + (if other == uid && allowed && !already && 0 < matoms then matoms / 1000 else 0)
  {
    var atoms := if matoms >= 0 then matoms / 1000 else -(-matoms / 1000);
    already := tips.Seen(id);
    if allowed && !already {
      ledger.Credit(uid, atoms);
    }
    if !already {
      tips.Record(id);
    }
  }

  // ------------------------------------------------------------ the books

  function WorthTo(w: World, id: nat, uid: string): int {
    if w.tips(id).uid == uid then Worth(w.tips(id).matoms) else 0
  }

  ghost function Values(w: World, ids: set<nat>, uid: string): map<nat, int> {
    map id | id in ids :: WorthTo(w, id, uid)
  }

  /** What the tips of a set are worth to one peer: each tip's whole atoms, once. */
  ghost function Total(w: World, ids: set<nat>, uid: string): int {
    Sum(Values(w, ids, uid))
  }

  lemma TotalAdd(w: World, ids: set<nat>, id: nat, uid: string)
    ensures Total(w, ids + {id}, uid) == Total(w, ids, uid) + (if id in ids then 0 else WorthTo(w, id, uid))
  {
    assert Values(w, ids + {id}, uid) == Values(w, ids, uid)[id := WorthTo(w, id, uid)];
    SumStore(Values(w, ids, uid), id, WorthTo(w, id, uid));
  }

  ghost predicate BooksOf(b: Bot, w: World, uid: string) {
    && BalanceOf(b.balances, uid) == Total(w, b.credited, uid) + BalanceOf(b.extra, uid)
    && 0 <= BalanceOf(b.extra, uid)
  }

  /** The journal is the newest part of what was recorded; every atom of a balance is one distinct tip's, or extra. */
  ghost predicate Inv(b: Bot, w: World) {
    && b.seqs == Newest(b.recorded) && Distinct(b.seqs)
    && (forall uid {:trigger BooksOf(b, w, uid)} :: BooksOf(b, w, uid))
  }

  lemma NewestAgain(recorded: seq<nat>, id: nat)
    ensures Newest(Newest(recorded) + [id]) == Newest(recorded + [id])
  {
  }

  lemma RecordedDistinct(seqs: seq<nat>, id: nat)
    requires Distinct(seqs) && id !in seqs
    ensures Distinct(Newest(seqs + [id]))
  {
    assert Distinct(seqs + [id]);
  }

  lemma CreditKeeps(b: Bot, w: World, id: nat, allowed: bool)
    requires Inv(b, w)
    ensures Inv(WithCredit(b, w, id, allowed), w)
  {
    var t := w.tips(id);
    forall uid ensures BooksOf(WithCredit(b, w, id, allowed), w, uid) {
      assert BooksOf(b, w, uid);
      TotalAdd(w, b.credited, id, uid);
    }
  }

  lemma RecordKeeps(b: Bot, w: World, id: nat)
    requires Inv(b, w) && id !in b.seqs
    ensures Inv(b.(seqs := Recorded(b.seqs, id), recorded := b.recorded + [id]), w)
  {
    NewestAgain(b.recorded, id);
    RecordedDistinct(b.seqs, id);
    var c := b.(seqs := Recorded(b.seqs, id), recorded := b.recorded + [id]);
    forall uid ensures BooksOf(c, w, uid) {
      assert BooksOf(b, w, uid);
    }
  }

  lemma NextKeeps(b: Bot, w: World, s: Step)
    requires Inv(b, w)
    ensures Inv(Next(b, w, s), w)
  {
    CreditKeeps(b, w, s.id, s.allowed);
    if s.Deliver? && s.id !in b.seqs {
      RecordKeeps(WithCredit(b, w, s.id, s.allowed), w, s.id);
    }
  }

  lemma {:induction false} RunKeeps(t: Trace, w: World)
    ensures Inv(End(t, w), w)
  {
    if t.Begin? {
      forall uid ensures BooksOf(End(t, w), w, uid) {
        assert Values(w, {}, uid) == map[];
      }
    } else {
      RunKeeps(t.before, w);
      NextKeeps(End(t.before, w), w, t.step);
    }
  }

  // ------------------------------------------------------------ once per tip

  /** The tips that came while their peer was allowed and the journal did not hold them, each once. */
  function Earning(t: Trace, w: World): set<nat> {
    if t.Begin? then {}
    else Earning(t.before, w) + (if t.step.allowed && t.step.id !in End(t.before, w).seqs then {t.step.id} else {})
  }

  lemma {:induction false} EarningIsCredited(t: Trace, w: World)
    ensures End(t, w).credited == Earning(t, w)
  {
    if t.Then? {
      EarningIsCredited(t.before, w);
    }
  }

  /** A credited tip of an allowed peer comes again although the journal does not hold it. */
  predicate Repeats(b: Bot, w: World, s: Step) {
    s.allowed && s.id in b.credited && s.id !in b.seqs && 0 < Worth(w.tips(s.id).matoms)
  }

  predicate NeverRepeats(t: Trace, w: World) {
    t.Then? ==> NeverRepeats(t.before, w) && !Repeats(End(t.before, w), w, t.step)
  }

  ghost predicate NothingExtra(b: Bot) {
    forall uid :: BalanceOf(b.extra, uid) == 0
  }

  lemma ExtraStep(b: Bot, w: World, s: Step)
    requires Inv(b, w)
    ensures NothingExtra(Next(b, w, s)) <==> NothingExtra(b) && !Repeats(b, w, s)
  {
    var uid := w.tips(s.id).uid;
    assert BooksOf(b, w, uid);
    if Repeats(b, w, s) {
      assert BalanceOf(Next(b, w, s).extra, uid) > 0;
    } else {
      assert forall u :: BalanceOf(Next(b, w, s).extra, u) == BalanceOf(b.extra, u);
    }
  }

  /**
   * However the allowed peers change, every peer's credit is the sum of the whole atoms of the distinct tips it sent
   * while allowed and not recorded, if and only if no credited tip came again while its peer was allowed and the
   * journal did not hold it; otherwise it is more.
   */
  lemma {:induction false} OncePerTip(t: Trace, w: World)
    ensures NeverRepeats(t, w) <==> forall uid :: BalanceOf(End(t, w).balances, uid) == Total(w, Earning(t, w), uid)
    ensures forall uid :: BalanceOf(End(t, w).balances, uid) >= Total(w, Earning(t, w), uid)
  {
    ExtraRun(t, w);
    RunKeeps(t, w);
    EarningIsCredited(t, w);
    var b := End(t, w);
    forall uid
      ensures BalanceOf(b.balances, uid) == Total(w, b.credited, uid) + BalanceOf(b.extra, uid)
      ensures 0 <= BalanceOf(b.extra, uid)
    {
      assert BooksOf(b, w, uid);
    }
  }

  lemma {:induction false} ExtraRun(t: Trace, w: World)
    ensures NothingExtra(End(t, w)) <==> NeverRepeats(t, w)
  {
    if t.Then? {
      ExtraRun(t.before, w);
      RunKeeps(t.before, w);
      ExtraStep(End(t.before, w), w, t.step);
    }
  }

  /** No crash between credit and record, and no tip delivered again after 1000 newer ones were recorded. */
  ghost predicate Prompt(t: Trace, w: World) {
    t.Then? ==>
      && Prompt(t.before, w) && t.step.Deliver?
      && (t.step.id in End(t.before, w).recorded ==> t.step.id in Newest(End(t.before, w).recorded))
  }

  lemma {:induction false} CreditedIsRecorded(t: Trace, w: World)
    requires Prompt(t, w)
    ensures forall id :: id in End(t, w).credited ==> id in End(t, w).recorded
  {
    if t.Then? {
      CreditedIsRecorded(t.before, w);
      RunKeeps(t.before, w);
    }
  }

  /** In such a run each tip is credited once, however often it is delivered. */
  lemma {:induction false} PromptNeverRepeats(t: Trace, w: World)
    requires Prompt(t, w)
    ensures NeverRepeats(t, w)
  {
    if t.Then? {
      PromptNeverRepeats(t.before, w);
      CreditedIsRecorded(t.before, w);
      RunKeeps(t.before, w);
    }
  }

  /** The tips whose peer was allowed when they came first. */
  function FirstAllowed(t: Trace): set<nat> {
    if t.Begin? then {}
    else FirstAllowed(t.before) + (if t.step.allowed && t.step.id !in Came(t.before) then {t.step.id} else {})
  }

  function Came(t: Trace): set<nat> {
    if t.Begin? then {} else Came(t.before) + {t.step.id}
  }

  lemma {:induction false} CameIsRecorded(t: Trace, w: World)
    requires Prompt(t, w)
    ensures forall id :: id in Came(t) <==> id in End(t, w).recorded
  {
    if t.Then? {
      CameIsRecorded(t.before, w);
      RunKeeps(t.before, w);
    }
  }

  /**
   * In such a run what counts is whether the peer was allowed when the tip came first; a later permission earns
   * nothing.
   */
  lemma {:induction false} PromptEarnsFirst(t: Trace, w: World)
    requires Prompt(t, w)
    ensures Earning(t, w) == FirstAllowed(t)
  {
    if t.Then? {
      PromptEarnsFirst(t.before, w);
      CameIsRecorded(t.before, w);
      RunKeeps(t.before, w);
    }
  }

  /** A crash between credit and record credits that tip, and no other, a second time when it is redelivered. */
  lemma CrashCreditsTwice(b: Bot, w: World, id: nat)
    requires id !in b.seqs
    ensures var c := Next(Next(b, w, CrashBeforeRecord(id, true)), w, Deliver(id, true));
            && BalanceOf(c.balances, w.tips(id).uid)
                == BalanceOf(b.balances, w.tips(id).uid) + 2 * Worth(w.tips(id).matoms)
            && forall uid :: uid != w.tips(id).uid ==> BalanceOf(c.balances, uid) == BalanceOf(b.balances, uid)
  {
  }
}
