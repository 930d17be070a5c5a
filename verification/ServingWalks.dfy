/**
 * What a call comes to when nothing overlaps it, from every point of every play: executed and paid for, executed and
 * refunded, or quoted; heard again by a duplicate; and settled by a restart.
 */
module ServingWalks {
  import opened Wrappers
  import opened CallJournal
  import opened ServerLedger
  import opened ServingHarness
  import opened Serving
  import opened ServingInvariant
  import opened ServingRuns
  import opened ServingRaces

  /** Balances differ by the given atoms of one peer. */
  ghost predicate Moved(b: Balances, c: Balances, peer: string, atoms: int) {
    forall other :: BalanceOf(c, other) == BalanceOf(b, other) + (if other == peer then atoms else 0)
  }

  predicate Open(look: bool) {
    true
  }

  /** Reaches, to be looked into only where Open(true) is said: the steps so far do not matter for the next ones. */
  ghost predicate Comes(s: State, ls: seq<Label>, t: State) {
    forall look {:trigger Open(look)} :: Open(look) ==> Reaches(s, ls, t)
  }

  /** The same, by steps of owners alone. */
  ghost predicate Acts(s: State, ls: seq<Label>, t: State) {
    forall look {:trigger Open(look)} :: Open(look) ==> Reaches(s, ls, t) && forall l :: l in ls ==> IsOwnerStep(l)
  }

  lemma ComesMore(s: State, ls: seq<Label>, t: State, l: Label, u: State)
    requires Comes(s, ls, t) && Step(t, l) == Some(u)
    ensures Comes(s, ls + [l], u)
  {
    assert Open(true);
    ReachMore(s, ls, t, l);
  }

  lemma {:induction false} GoesOn(s: State, ls: seq<Label>, t: State, more: seq<Label>, u: State)
    requires Comes(s, ls, t) && Play(t, more, u)
    ensures Comes(s, ls + more, u)
    decreases |more|
  {
    if more == [] {
      assert ls + more == ls;
    } else {
      var t1 := Step(t, more[0]).value;
      ComesMore(s, ls, t, more[0], t1);
      assert ls + [more[0]] + more[1..] == ls + more;
      GoesOn(s, ls + [more[0]], t1, more[1..], u);
    }
  }

  lemma Joins(s: State, ls: seq<Label>, t: State, more: seq<Label>, u: State)
    requires Comes(s, ls, t) && Acts(t, more, u)
    ensures Comes(s, ls + more, u)
  {
    assert Play(t, more, u) by {
      assert Open(true);
    }
    GoesOn(s, ls, t, more, u);
  }

  lemma StartsActing(s: State, ls: seq<Label>, t: State)
    requires Comes(s, ls, t)
    ensures Acts(t, [], t)
  {
    assert Open(true);
  }

  /** A step of the owner of r, which is where it should be. */
  lemma Moves(s: State, ls: seq<Label>, t: State, l: Label) returns (u: State)
    requires Acts(s, ls, t) && t.mode == Up && IsOwnerStep(l) && l.r in t.owners
    requires l.r in t.recs ==> OwnerStep(t, l).Some?
    ensures Acts(s, ls + [l], u) && OwnerStep(t, l) == Some(u)
    ensures u.mode == Up && u.now == t.now
  {
    assert Open(true);
    assert OwnerOk(t, l.r);
    ServingRaces.OwnerMoves(s, ls, t, l);
    OwnerStepTouches(t, l);
    u := OwnerStep(t, l).value;
  }

  /** A covered price is taken, journaled as an open charge, and the handler starts. */
  lemma ChargeStarts(s: State, ls: seq<Label>, t: State, r: Id, price: int) returns (more: seq<Label>, u: State)
    requires Acts(s, ls, t) && t.mode == Up && r in t.owners && t.owners[r].phase.Claimed?
    requires 0 < price <= BalanceOf(t.ledger, t.owners[r].peer)
    ensures Acts(s, more, u) && u.mode == Up && u.now == t.now
    ensures var o := t.owners[r];
            && u.owners == t.owners[r := Owner(o.key, o.peer, price, Running)]
            && u.journal == t.journal[o.key := CallJournal.Entry(o.peer, price, false, 0, false, None, None, "")]
            && Moved(t.ledger, u.ledger, o.peer, -price)
            && CountOf(u.hist.starts, o.key) == CountOf(t.hist.starts, o.key) + 1
    ensures u.recs == t.recs && u.calls == t.calls && u.nextId == t.nextId && u.waiters == t.waiters
    ensures u.hist.earned == t.hist.earned && u.hist.replies == t.hist.replies
  {
    var t1 := Moves(s, ls, t, Debit(r, price));
    var t2 := Moves(s, ls + [Debit(r, price)], t1, JournalCharge(r));
    u := Moves(s, ls + [Debit(r, price)] + [JournalCharge(r)], t2, Start(r));
    more := ls + [Debit(r, price)] + [JournalCharge(r)] + [Start(r)];
  }

  /** The handler of a paid call returns; the price of a failed one goes back. */
  lemma Returns(s: State, ls: seq<Label>, t: State, r: Id, o: Outcome) returns (more: seq<Label>, u: State)
    requires Acts(s, ls, t) && t.mode == Up && r in t.owners && t.owners[r].phase.Running? && 0 < t.owners[r].price
    requires Returnable(o)
    ensures Acts(s, more, u) && u.mode == Up && u.now == t.now
    ensures u.owners == t.owners[r := t.owners[r].(phase := Finishing(o))]
    ensures Moved(t.ledger, u.ledger, t.owners[r].peer, if o.err.Some? then t.owners[r].price else 0)
    ensures u.recs == t.recs && u.calls == t.calls && u.nextId == t.nextId && u.waiters == t.waiters
    ensures u.hist.earned == t.hist.earned && u.hist.replies == t.hist.replies && u.hist.starts == t.hist.starts
    ensures u.journal == t.journal
  {
    var t1 := Moves(s, ls, t, Return(r, o));
    assert ReturnAt(t, r, o) == Some(t1);
    if o.err.Some? {
      more, u := Repays(s, ls + [Return(r, o)], t1, r);
    } else {
      more, u := ls + [Return(r, o)], t1;
    }
  }

  lemma Repays(s: State, ls: seq<Label>, t: State, r: Id) returns (more: seq<Label>, u: State)
    requires Acts(s, ls, t) && t.mode == Up && r in t.owners && t.owners[r].phase.Failed? && 0 < t.owners[r].price
    ensures Acts(s, more, u) && u.mode == Up && u.now == t.now
    ensures u.owners == t.owners[r := t.owners[r].(phase := Finishing(t.owners[r].phase.o))]
    ensures Moved(t.ledger, u.ledger, t.owners[r].peer, t.owners[r].price)
    ensures u.recs == t.recs && u.calls == t.calls && u.nextId == t.nextId && u.waiters == t.waiters
    ensures u.hist.earned == t.hist.earned && u.hist.replies == t.hist.replies && u.hist.starts == t.hist.starts
    ensures u.journal == t.journal
  {
    u := Moves(s, ls, t, Repay(r));
    assert RepayAt(t, r) == Some(u);
    more := ls + [Repay(r)];
  }

  /** The entry of a completed charge: its answer is kept when it fits into 64 KiB, its error only with it. */
  function Completed(peer: string, price: int, o: Outcome, expires: int): CallJournal.Entry {
    if SizeOf(o.result) + SizeOf(o.out) <= 65_536 then
      CallJournal.Entry(peer, price, true, expires / 1_000_000_000, true, o.result, o.out,
                        if o.err.Some? then o.err.value else "")
    else
      CallJournal.Entry(peer, price, true, expires / 1_000_000_000, false, None, None, "")
  }

  /** The outcome goes to the record, which answers duplicates for half an hour. */
  lemma Fills(s: State, ls: seq<Label>, t: State, r: Id) returns (u: State)
    requires Acts(s, ls, t) && t.mode == Up && r in t.owners && t.owners[r].phase.Finishing?
    ensures Acts(s, ls + [Record(r)], u) && u.mode == Up && u.now == t.now
    ensures var out := t.owners[r].phase.o;
            && u.owners == t.owners[r := t.owners[r].(phase := Recorded(out))]
            && u.recs == t.recs[r := Rec(false, out, Some(t.now + 1_800_000_000_000))]
    ensures u.ledger == t.ledger && u.calls == t.calls && u.nextId == t.nextId && u.waiters == t.waiters
    ensures u.journal == t.journal
    ensures u.hist.earned == t.hist.earned && u.hist.replies == t.hist.replies && u.hist.starts == t.hist.starts
  {
    u := Moves(s, ls, t, Record(r));
  }

  /** It goes to the journal, and to the caller. */
  lemma Answers(s: State, ls: seq<Label>, t: State, r: Id) returns (more: seq<Label>, u: State)
    requires Acts(s, ls, t) && t.mode == Up && r in t.owners && t.owners[r].phase.Recorded? && 0 < t.owners[r].price
    requires r in t.recs && t.recs[r] == Rec(false, t.owners[r].phase.o, Some(t.now + 1_800_000_000_000))
    requires var o := t.owners[r];
             && o.key in t.journal
             && t.journal[o.key] == CallJournal.Entry(o.peer, o.price, false, 0, false, None, None, "")
    ensures Acts(s, more, u) && u.mode == Up && u.now == t.now && u.owners == t.owners - {r}
    ensures var o, out, expires := t.owners[r], t.owners[r].phase.o, t.now + 1_800_000_000_000;
            && u.recs == t.recs[r := Rec(true, out, Some(expires))]
            && u.journal == t.journal[o.key := Completed(o.peer, o.price, out, expires)]
            && u.hist.replies == t.hist.replies[r := (o.key, Answered(out))]
            && u.hist.earned == t.hist.earned + (if out.err.None? then o.price else 0)
    ensures u.ledger == t.ledger && u.calls == t.calls && u.nextId == t.nextId && u.waiters == t.waiters
    ensures u.hist.starts == t.hist.starts
  {
    var t1 := Moves(s, ls, t, JournalOutcome(r));
    assert OutcomeAt(t, r) == Some(t1);
    u := Moves(s, ls + [JournalOutcome(r)], t1, Close(r));
    assert CloseAt(t1, r) == Some(u);
    more := ls + [JournalOutcome(r)] + [Close(r)];
  }

  lemma Records(s: State, ls: seq<Label>, t: State, r: Id) returns (more: seq<Label>, u: State)
    requires Acts(s, ls, t) && t.mode == Up && r in t.owners && t.owners[r].phase.Finishing? && 0 < t.owners[r].price
    requires var o := t.owners[r];
             && o.key in t.journal
             && t.journal[o.key] == CallJournal.Entry(o.peer, o.price, false, 0, false, None, None, "")
    ensures Acts(s, more, u) && u.mode == Up && u.now == t.now && u.owners == t.owners - {r}
    ensures var o, out, expires := t.owners[r], t.owners[r].phase.o, t.now + 1_800_000_000_000;
            && u.recs == t.recs[r := Rec(true, out, Some(expires))]
            && u.journal == t.journal[o.key := Completed(o.peer, o.price, out, expires)]
            && u.hist.replies == t.hist.replies[r := (o.key, Answered(out))]
            && u.hist.earned == t.hist.earned + (if out.err.None? then o.price else 0)
    ensures u.ledger == t.ledger && u.calls == t.calls && u.nextId == t.nextId && u.waiters == t.waiters
    ensures u.hist.starts == t.hist.starts
  {
    var t1 := Fills(s, ls, t, r);
    more, u := Answers(s, ls + [Record(r)], t1, r);
  }

  /** The owner of a claim, from its charge to its answer. */
  lemma OwnerIsServed(s: State, ls: seq<Label>, t: State, r: Id, price: int, o: Outcome)
    returns (more: seq<Label>, u: State)
    requires Acts(s, ls, t) && t.mode == Up && r in t.owners && t.owners[r].phase.Claimed?
    requires 0 < price <= BalanceOf(t.ledger, t.owners[r].peer) && Returnable(o)
    ensures Acts(s, more, u) && u.mode == Up && u.now == t.now && u.owners == t.owners - {r} && u.calls == t.calls
    ensures var key, peer, expires := t.owners[r].key, t.owners[r].peer, t.now + 1_800_000_000_000;
            && u.hist.replies == t.hist.replies[r := (key, Answered(o))]
            && CountOf(u.hist.starts, key) == CountOf(t.hist.starts, key) + 1
            && Moved(t.ledger, u.ledger, peer, if o.err.None? then -price else 0)
            && u.recs == t.recs[r := Rec(true, o, Some(expires))]
            && u.journal == t.journal[key := Completed(peer, price, o, expires)]
    ensures u.hist.earned == t.hist.earned + (if o.err.None? then price else 0)
  {
    var more2, t2 := ChargeStarts(s, ls, t, r, price);
    var own := t2.owners[r];
    assert own == Owner(t.owners[r].key, t.owners[r].peer, price, Running);
    more, u := RunIsServed(s, more2, t2, r, o);
    assert u.owners == t.owners - {r};
    assert u.journal == t.journal[own.key := Completed(own.peer, price, o, t.now + 1_800_000_000_000)];
  }

  lemma RunIsServed(s: State, ls: seq<Label>, t: State, r: Id, o: Outcome) returns (more: seq<Label>, u: State)
    requires Acts(s, ls, t) && t.mode == Up && r in t.owners && t.owners[r].phase.Running? && 0 < t.owners[r].price
    requires Returnable(o)
    requires var o := t.owners[r];
             && o.key in t.journal
             && t.journal[o.key] == CallJournal.Entry(o.peer, o.price, false, 0, false, None, None, "")
    ensures Acts(s, more, u) && u.mode == Up && u.now == t.now && u.owners == t.owners - {r} && u.calls == t.calls
    ensures var own, expires := t.owners[r], t.now + 1_800_000_000_000;
            && u.hist.replies == t.hist.replies[r := (own.key, Answered(o))]
            && Moved(t.ledger, u.ledger, own.peer, if o.err.None? then 0 else own.price)
            && u.recs == t.recs[r := Rec(true, o, Some(expires))]
            && u.journal == t.journal[own.key := Completed(own.peer, own.price, o, expires)]
            && u.hist.earned == t.hist.earned + (if o.err.None? then own.price else 0)
    ensures u.hist.starts == t.hist.starts
  {
    var more1, t1 := Returns(s, ls, t, r, o);
    more, u := Records(s, more1, t1, r);
  }

  /** Nothing stands for the key, or only a record whose half hour is over. */
  predicate Vacant(t: State, key: string) {
    key in t.calls ==> t.calls[key] in t.recs && Expired(t.recs[t.calls[key]], t.now)
  }

  lemma Claims(s: State, ls: seq<Label>, t: State, peer: string, callKey: string) returns (u: State)
    requires Comes(s, ls, t) && t.mode == Up && Vacant(t, peer + "|" + callKey)
    ensures Comes(s, ls + [Claim(peer, callKey)], u) && u.mode == Up && u.now == t.now
    ensures var key, r := peer + "|" + callKey, Fresh(t.nextId);
            && r !in t.owners && u.owners == t.owners[r := Owner(key, peer, 0, Claimed)]
            && key in u.calls && u.calls[key] == r
    ensures u.hist == t.hist && u.ledger == t.ledger && u.journal == Collected(t.journal, t.now)
    ensures u.waiters == t.waiters && u.nextId == t.nextId + 1
  {
    assert Open(true);
    u := ClaimEnters(s, ls, t, peer, callKey);
  }

  lemma Serves(s: State, ls: seq<Label>, t: State, peer: string, callKey: string, price: int, o: Outcome)
    returns (more: seq<Label>, u: State, r: Id)
    requires Comes(s, ls, t) && t.mode == Up && Vacant(t, peer + "|" + callKey)
    requires 0 < price <= BalanceOf(t.ledger, peer) && Returnable(o)
    ensures Comes(s, more, u) && u.mode == Up && u.now == t.now && u.owners == t.owners && r !in t.owners
    ensures u.hist.replies == t.hist.replies[r := (peer + "|" + callKey, Answered(o))]
    ensures CountOf(u.hist.starts, peer + "|" + callKey) == CountOf(t.hist.starts, peer + "|" + callKey) + 1
    ensures Moved(t.ledger, u.ledger, peer, if o.err.None? then -price else 0)
    ensures u.hist.earned == t.hist.earned + (if o.err.None? then price else 0)
    ensures var key, expires := peer + "|" + callKey, t.now + 1_800_000_000_000;
            && key in u.calls && u.calls[key] == r && r in u.recs && u.recs[r] == Rec(true, o, Some(expires))
            && key in u.journal && u.journal[key] == Completed(peer, price, o, expires)
            && forall k :: k in u.journal && k != key ==> k in t.journal && u.journal[k] == t.journal[k]
  {
    r := Fresh(t.nextId);
    var t1 := Claims(s, ls, t, peer, callKey);
    StartsActing(s, ls + [Claim(peer, callKey)], t1);
    more, u := OwnerIsServed(t1, [], t1, r, price, o);
    Joins(s, ls + [Claim(peer, callKey)], t1, more, u);
    more := ls + [Claim(peer, callKey)] + more;
  }

  /** A price the balance does not cover is quoted, and the claim is given up. */
  lemma Quotes(s: State, ls: seq<Label>, t: State, peer: string, callKey: string, price: int)
    returns (more: seq<Label>, u: State, r: Id)
    requires Comes(s, ls, t) && t.mode == Up && Vacant(t, peer + "|" + callKey)
    requires 0 < price && BalanceOf(t.ledger, peer) < price
    ensures Comes(s, more, u) && u.mode == Up && u.now == t.now && u.owners == t.owners && r !in t.owners
    ensures u.hist.replies
         == t.hist.replies[r := (peer + "|" + callKey, Quoted(price, price - BalanceOf(t.ledger, peer)))]
    ensures u.hist.starts == t.hist.starts && u.hist.earned == t.hist.earned && u.ledger == t.ledger
    ensures peer + "|" + callKey !in u.calls && u.journal == Collected(t.journal, t.now)
  {
    r := Fresh(t.nextId);
    var t1 := Claims(s, ls, t, peer, callKey);
    StartsActing(s, ls + [Claim(peer, callKey)], t1);
    more, u := OwnerQuotes(t1, [], t1, r, price);
    Joins(s, ls + [Claim(peer, callKey)], t1, more, u);
    more := ls + [Claim(peer, callKey)] + more;
  }

  lemma FallsShort(s: State, ls: seq<Label>, t: State, r: Id, price: int) returns (u: State)
    requires Acts(s, ls, t) && t.mode == Up && r in t.owners && t.owners[r].phase.Claimed?
    requires 0 < price && BalanceOf(t.ledger, t.owners[r].peer) < price
    ensures Acts(s, ls + [Debit(r, price)], u) && u == t.(owners := t.owners[r := t.owners[r].(phase := Short(price))])
  {
    u := Moves(s, ls, t, Debit(r, price));
  }

  lemma OwnerQuotes(s: State, ls: seq<Label>, t: State, r: Id, price: int) returns (more: seq<Label>, u: State)
    requires Acts(s, ls, t) && t.mode == Up && r in t.owners && t.owners[r].phase.Claimed?
    requires 0 < price && BalanceOf(t.ledger, t.owners[r].peer) < price
    ensures Acts(s, more, u) && u.mode == Up && u.now == t.now && u.owners == t.owners - {r}
    ensures u.calls == t.calls - {t.owners[r].key}
    ensures var quote := Quoted(price, price - BalanceOf(t.ledger, t.owners[r].peer));
            u.hist.replies == t.hist.replies[r := (t.owners[r].key, quote)]
    ensures u.hist.starts == t.hist.starts && u.hist.earned == t.hist.earned && u.hist.until == t.hist.until
    ensures u.ledger == t.ledger && u.journal == t.journal
  {
    var t1 := FallsShort(s, ls, t, r, price);
    var t2 := Moves(s, ls + [Debit(r, price)], t1, Quote(r));
    assert QuoteAt(t1, r) == Some(t2);
    u := Moves(s, ls + [Debit(r, price)] + [Quote(r)], t2, Close(r));
    assert CloseAt(t2, r) == Some(u);
    more := ls + [Debit(r, price)] + [Quote(r)] + [Close(r)];
  }

  /** A duplicate of a finished call hears the record. */
  lemma Hears(s: State, ls: seq<Label>, t: State, peer: string, callKey: string)
    returns (more: seq<Label>, u: State, w: nat)
    requires Comes(s, ls, t) && t.mode == Up
    requires var key := peer + "|" + callKey;
             key in t.calls && t.calls[key] in t.recs && t.recs[t.calls[key]].closed
             && !Expired(t.recs[t.calls[key]], t.now)
    ensures Comes(s, more, u) && u.mode == Up && u.now == t.now && u.owners == t.owners
    ensures var r := t.calls[peer + "|" + callKey];
            w !in t.waiters && u.hist == t.hist.(heard := t.hist.heard[w := (r, t.recs[r].outcome)])
    ensures u.ledger == t.ledger
  {
    w := t.nextId;
    var t1 := Waits(s, ls, t, peer, callKey);
    u := Wakes(s, ls + [Claim(peer, callKey)], t1, w);
    more := ls + [Claim(peer, callKey)] + [Wake(w)];
  }

  lemma Waits(s: State, ls: seq<Label>, t: State, peer: string, callKey: string) returns (u: State)
    requires Comes(s, ls, t) && t.mode == Up
    requires var key := peer + "|" + callKey;
             key in t.calls && t.calls[key] in t.recs && !Expired(t.recs[t.calls[key]], t.now)
    ensures Comes(s, ls + [Claim(peer, callKey)], u) && u.mode == Up && u.now == t.now && u.owners == t.owners
    ensures t.nextId !in t.waiters && u.waiters == t.waiters[t.nextId := t.calls[peer + "|" + callKey]]
    ensures u.recs == t.recs && u.hist == t.hist && u.ledger == t.ledger
  {
    assert Open(true);
    CoreLinks(t);
    assert t.nextId in t.waiters ==> WaiterOk(t, t.nextId);
    u := ClaimStep(t, peer, callKey);
    ReachMore(s, ls, t, Claim(peer, callKey));
  }

  lemma Wakes(s: State, ls: seq<Label>, t: State, w: nat) returns (u: State)
    requires Comes(s, ls, t) && w in t.waiters && t.waiters[w] in t.recs && t.recs[t.waiters[w]].closed
    ensures Comes(s, ls + [Wake(w)], u) && u.mode == t.mode && u.now == t.now && u.owners == t.owners
    ensures var r := t.waiters[w]; u.hist == t.hist.(heard := t.hist.heard[w := (r, t.recs[r].outcome)])
    ensures u.ledger == t.ledger
  {
    assert Open(true);
    CoreLinks(t);
    u := WakeStep(t, w).value;
    ReachMore(s, ls, t, Wake(w));
  }

  /** A crash, and the start of the next life. */
  lemma Reboots(s: State, ls: seq<Label>, t: State) returns (more: seq<Label>, u: State)
    requires Comes(s, ls, t)
    ensures Comes(s, more, u) && u.mode == Booting(InterruptedIn(t.journal).Keys, None)
    ensures u.journal == t.journal && u.ledger == t.ledger && u.now == t.now && u.owners == map[]
    ensures u.hist == t.hist.(lost := u.hist.lost, over := u.hist.over) && u.nextId == t.nextId
  {
    assert Open(true);
    CoreLinks(t);
    var t1 := CrashStep(t);
    ReachMore(s, ls, t, Crash);
    CoreLinks(t1);
    u := t1.(mode := Booting(InterruptedIn(t.journal).Keys, None));
    ReachMore(s, ls + [Crash], t1, Boot);
    more := ls + [Crash] + [Boot];
  }

  /** An open charge found at startup goes back to its caller. */
  lemma Refunds(s: State, ls: seq<Label>, t: State, key: string) returns (more: seq<Label>, u: State)
    requires Comes(s, ls, t) && t.mode == Booting({key}, None) && key in t.journal && 0 < t.journal[key].atoms
    ensures Comes(s, more, u) && u.mode == Booting({}, None)
    ensures u.journal == t.journal - {key} && Moved(t.ledger, u.ledger, t.journal[key].peer, t.journal[key].atoms)
    ensures u.now == t.now && u.hist == t.hist && u.nextId == t.nextId && u.owners == t.owners
  {
    assert Open(true);
    CoreLinks(t);
    var t1 := BootStep(t, RefundOpen(key)).value;
    ReachMore(s, ls, t, RefundOpen(key));
    CoreLinks(t1);
    assert {key} - {key} == {};
    u := BootStep(t1, ForgetOpen).value;
    ReachMore(s, ls + [RefundOpen(key)], t1, ForgetOpen);
    more := ls + [RefundOpen(key)] + [ForgetOpen];
  }

  /** Startup ends; completed entries answer for their keys again. */
  lemma Starts(s: State, ls: seq<Label>, t: State) returns (u: State)
    requires Comes(s, ls, t) && t.mode == Booting({}, None)
    ensures Comes(s, ls + [BootDone], u) && u.mode == Up && u.ledger == t.ledger && u.now == t.now
    ensures u.owners == t.owners && u.hist == t.hist.(replies := u.hist.replies) && u.journal.Keys <= t.journal.Keys
    ensures forall k :: k in u.calls <==> k in t.journal && t.journal[k].done && !Lapsed(t.journal[k], t.now)
    ensures forall k :: k in u.calls ==> u.calls[k] in u.recs && u.recs[u.calls[k]] == Reloaded(t.journal[k])
  {
    assert Open(true);
    CoreLinks(t);
    u := BootDoneStep(t);
    ReachMore(s, ls, t, BootDone);
  }

  /**
   * From every good state, and so from every point of every play, a paid call of a vacant key whose price is covered
   * runs the handler once, and is answered with what that returned. A success costs its price, which is earned; a
   * failure costs nothing. Record and journal keep the outcome for half an hour.
   */
  lemma PaidCallIsServed(t: State, peer: string, callKey: string, price: int, o: Outcome)
    returns (ls: seq<Label>, u: State, r: Id)
    requires Core(t) && t.mode == Up && Vacant(t, peer + "|" + callKey)
    requires 0 < price <= BalanceOf(t.ledger, peer) && Returnable(o)
    ensures Play(t, ls, u) && Core(u) && u.mode == Up && u.now == t.now && u.owners == t.owners && r !in t.owners
    ensures u.hist.replies == t.hist.replies[r := (peer + "|" + callKey, Answered(o))]
    ensures CountOf(u.hist.starts, peer + "|" + callKey) == CountOf(t.hist.starts, peer + "|" + callKey) + 1
    ensures Moved(t.ledger, u.ledger, peer, if o.err.None? then -price else 0)
    ensures u.hist.earned == t.hist.earned + (if o.err.None? then price else 0)
    ensures var key, expires := peer + "|" + callKey, t.now + 1_800_000_000_000;
            && key in u.calls && u.calls[key] == r && r in u.recs && u.recs[r] == Rec(true, o, Some(expires))
            && key in u.journal && u.journal[key] == Completed(peer, price, o, expires)
  {
    assert Comes(t, [], t);
    ls, u, r := Serves(t, [], t, peer, callKey, price, o);
    assert Open(true);
  }

  /** A price the balance does not cover is quoted with what is missing; nothing runs, and the key is vacant again. */
  lemma ShortCallIsQuoted(t: State, peer: string, callKey: string, price: int)
    returns (ls: seq<Label>, u: State, r: Id)
    requires Core(t) && t.mode == Up && Vacant(t, peer + "|" + callKey)
    requires 0 < price && BalanceOf(t.ledger, peer) < price
    ensures Play(t, ls, u) && Core(u) && u.mode == Up && u.now == t.now && u.owners == t.owners && r !in t.owners
    ensures var quote := Quoted(price, price - BalanceOf(t.ledger, peer));
            u.hist.replies == t.hist.replies[r := (peer + "|" + callKey, quote)]
    ensures u.hist.starts == t.hist.starts && u.hist.earned == t.hist.earned && u.ledger == t.ledger
    ensures Vacant(u, peer + "|" + callKey)
  {
    assert Comes(t, [], t);
    ls, u, r := Quotes(t, [], t, peer, callKey, price);
    assert Open(true);
  }

  /**
   * Up to half an hour after a paid call is served, a duplicate hears its outcome, with no start and no charge. A
   * restart between them changes that only for a failure without a text, and for an answer of more than 64 KiB; the
   * last second may be missing.
   */
  lemma DuplicateIsReplayed(t: State, peer: string, callKey: string, price: int, o: Outcome, wait: nat, crash: bool)
    returns (ls: seq<Label>, u: State, w: nat, r: Id)
    requires Core(t) && t.mode == Up && Vacant(t, peer + "|" + callKey) && InterruptedIn(t.journal).Keys == {}
    requires 0 < price <= BalanceOf(t.ledger, peer) && Returnable(o)
    requires wait <= (if crash then 1_799_000_000_000 else 1_800_000_000_000)
    ensures Play(t, ls, u) && u.mode == Up && w in u.hist.heard && u.hist.heard[w].0 == r
    ensures !crash || (o.err != Some("") && SizeOf(o.out) <= 65_536) ==> u.hist.heard[w].1 == o
    ensures CountOf(u.hist.starts, peer + "|" + callKey) == CountOf(t.hist.starts, peer + "|" + callKey) + 1
    ensures Moved(t.ledger, u.ledger, peer, if o.err.None? then -price else 0)
  {
    assert Comes(t, [], t);
    var t1;
    ls, t1, r := Serves(t, [], t, peer, callKey, price, o);
    var t2 := Waited(t, ls, t1, wait);
    ls := ls + [Tick(wait)];
    if crash {
      var t3;
      ls, t3 := Restarts(t, ls, t2);
      r := t3.calls[peer + "|" + callKey];
      ls, u, w := Hears(t, ls, t3, peer, callKey);
    } else {
      ls, u, w := Hears(t, ls, t2, peer, callKey);
    }
    assert Open(true);
  }

  lemma Waited(s: State, ls: seq<Label>, t: State, ns: nat) returns (u: State)
    requires Comes(s, ls, t)
    ensures Comes(s, ls + [Tick(ns)], u) && u == t.(now := t.now + ns)
  {
    assert Open(true);
    CoreLinks(t);
    u := t.(now := t.now + ns);
    ReachMore(s, ls, t, Tick(ns));
  }

  /** A crash and a restart when no charge is open. */
  lemma Restarts(s: State, ls: seq<Label>, t: State) returns (more: seq<Label>, u: State)
    requires Comes(s, ls, t) && InterruptedIn(t.journal).Keys == {}
    ensures Comes(s, more, u) && u.mode == Up && u.ledger == t.ledger && u.now == t.now
    ensures u.hist.starts == t.hist.starts
    ensures forall k :: k in u.calls <==> k in t.journal && t.journal[k].done && !Lapsed(t.journal[k], t.now)
    ensures forall k :: k in u.calls ==> u.calls[k] in u.recs && u.recs[u.calls[k]] == Reloaded(t.journal[k])
  {
    var t1;
    more, t1 := Reboots(s, ls, t);
    u := Starts(s, more, t1);
    more := more + [BootDone];
  }

  /** A crash while the handler of a paid call runs: the restart gives the price back, and the key is vacant. */
  lemma InterruptedCallIsRefunded(t: State, peer: string, callKey: string, price: int)
    returns (ls: seq<Label>, u: State)
    requires Core(t) && t.mode == Up && Vacant(t, peer + "|" + callKey) && InterruptedIn(t.journal).Keys == {}
    requires 0 < price <= BalanceOf(t.ledger, peer)
    ensures Play(t, ls, u) && u.mode == Up && u.owners == map[] && Moved(t.ledger, u.ledger, peer, 0)
    ensures CountOf(u.hist.starts, peer + "|" + callKey) == CountOf(t.hist.starts, peer + "|" + callKey) + 1
    ensures Vacant(u, peer + "|" + callKey) && peer + "|" + callKey !in u.journal
  {
    assert Comes(t, [], t);
    var t1;
    ls, t1 := Runs(t, [], t, peer, callKey, price);
    ls, u := Recovers(t, ls, t1, peer + "|" + callKey);
    assert Open(true);
  }

  /** The handler of a paid call runs; its charge is the only open one. */
  lemma Runs(s: State, ls: seq<Label>, t: State, peer: string, callKey: string, price: int)
    returns (more: seq<Label>, u: State)
    requires Comes(s, ls, t) && t.mode == Up && Vacant(t, peer + "|" + callKey) && InterruptedIn(t.journal).Keys == {}
    requires 0 < price <= BalanceOf(t.ledger, peer)
    ensures Comes(s, more, u) && InterruptedIn(u.journal).Keys == {peer + "|" + callKey}
    ensures u.journal[peer + "|" + callKey] == OpenEntry(peer, price)
    ensures CountOf(u.hist.starts, peer + "|" + callKey) == CountOf(t.hist.starts, peer + "|" + callKey) + 1
    ensures Moved(t.ledger, u.ledger, peer, -price)
  {
    var t1 := Claims(s, ls, t, peer, callKey);
    StartsActing(s, ls + [Claim(peer, callKey)], t1);
    more, u := ChargeStarts(t1, [], t1, Fresh(t.nextId), price);
    Joins(s, ls + [Claim(peer, callKey)], t1, more, u);
    more := ls + [Claim(peer, callKey)] + more;
    assert u.journal == Collected(t.journal, t.now)[peer + "|" + callKey := OpenEntry(peer, price)];
    OneOpen(t.journal, t.now, peer + "|" + callKey, OpenEntry(peer, price));
  }

  lemma OneOpen(j: Journal, now: int, key: string, e: CallJournal.Entry)
    requires InterruptedIn(j).Keys == {} && !e.done
    ensures InterruptedIn(Collected(j, now)[key := e]).Keys == {key}
  {
    forall k | k in j ensures j[k].done {
      assert k !in InterruptedIn(j);
    }
  }

  /** A crash and a restart when one charge is open. */
  lemma Recovers(s: State, ls: seq<Label>, t: State, key: string) returns (more: seq<Label>, u: State)
    requires Comes(s, ls, t) && InterruptedIn(t.journal).Keys == {key} && key in t.journal
    requires 0 < t.journal[key].atoms
    ensures Comes(s, more, u) && u.mode == Up && u.owners == map[] && u.hist.starts == t.hist.starts
    ensures Moved(t.ledger, u.ledger, t.journal[key].peer, t.journal[key].atoms)
    ensures key !in u.calls && key !in u.journal
  {
    var t1, t2;
    more, t1 := Reboots(s, ls, t);
    more, t2 := Refunds(s, more, t1, key);
    u := Starts(s, more, t2);
    more := more + [BootDone];
  }
}
