/** The run everything is for: a caller without enough credit is quoted, pays, and hears what its execution returned. */
module PaidAnswers {
  import opened Wrappers
  import opened CallJournal
  import opened ServerLedger
  import opened ServingHarness
  import opened Serving
  import opened ServingInvariant
  import opened ServingRuns
  import opened EndToEnd
  import E = EmptyAnswers
  import W = ServingWalks
  import OneKey
  import P = Passthrough

  /** The moves of a world in which only the server acts. */
  function Moves(ls: seq<Label>): seq<Move> {
    seq(|ls|, i requires 0 <= i < |ls| => ServerMove(ls[i]))
  }

  /** Whatever the owners of a server do, they do in the world. */
  lemma {:induction false} ActsInWorld(w: World, ms: seq<Move>, key: string, end: World, ls: seq<Label>, t: State)
    requires E.Reaches(w, ms, key, end) && Play(end.server, ls, t) && forall l :: l in ls ==> IsOwnerStep(l)
    ensures E.Reaches(w, ms + Moves(ls), key, end.(server := t))
    decreases |ls|
  {
    if ls == [] {
      assert ms + Moves(ls) == ms;
    } else {
      var s1 := Step(end.server, ls[0]).value;
      OneAct(w, ms, key, end, ls[0]);
      ActsInWorld(w, ms + [ServerMove(ls[0])], key, end.(server := s1), ls[1..], t);
      assert ms + [ServerMove(ls[0])] + Moves(ls[1..]) == ms + Moves(ls);
    }
  }

  lemma OneAct(w: World, ms: seq<Move>, key: string, end: World, l: Label)
    requires E.Reaches(w, ms, key, end) && IsOwnerStep(l) && Step(end.server, l).Some?
    ensures E.Reaches(w, ms + [ServerMove(l)], key, end.(server := Step(end.server, l).value))
  {
    StepCore(end.server, l);
    OwnerStepTouches(end.server, l);
    assert WorldStep(end, ServerMove(l), key) == Some(end.(server := Step(end.server, l).value));
    E.RunMore(w, ms, key, end, ServerMove(l));
  }

  /** E.Reaches, to be looked into only where W.Open(true) is said. */
  ghost predicate Comes(w: World, ms: seq<Move>, key: string, end: World) {
    forall look {:trigger W.Open(look)} :: W.Open(look) ==> E.Reaches(w, ms, key, end)
  }

  lemma Client(w: World, ms: seq<Move>, key: string, end: World, e: P.Event)
    requires Comes(w, ms, key, end) && (e.Replied? ==> Sent(end.server, key, e.reply))
    requires P.After(P.Then(end.trace, e)).Some?
    ensures Comes(w, ms + [ClientMove(e)], key, end.(trace := P.Then(end.trace, e)))
  {
    assert W.Open(true);
    E.ClientMoves(w, ms, key, end, e);
  }

  lemma Ends(w: World, ms: seq<Move>, key: string, end: World)
    requires Comes(w, ms, key, end)
    ensures WorldRun(w, ms, key, end)
  {
    assert W.Open(true);
  }

  /** A request for a key nothing stands for makes an owner. */
  lemma Arrives(w: World, ms: seq<Move>, end: World, peer: string, callKey: string)
    returns (more: seq<Move>, s: State, r: Id)
    requires Comes(w, ms, peer + "|" + callKey, end) && P.Calls(end.trace) > 0
    requires peer + "|" + callKey !in end.server.hist.until && peer + "|" + callKey !in end.server.calls
    ensures Comes(w, more, peer + "|" + callKey, end.(server := s)) && W.Acts(s, [], s) && s.mode == Up
    ensures s.hist == end.server.hist && s.ledger == end.server.ledger
    ensures r in s.owners && s.owners[r] == Owner(peer + "|" + callKey, peer, 0, Claimed)
  {
    assert W.Open(true);
    more, s := E.RequestArrives(w, ms, end, peer, callKey);
    r := s.calls[peer + "|" + callKey];
  }

  lemma OwnersAct(w: World, ms: seq<Move>, key: string, end: World, ls: seq<Label>, t: State) returns (more: seq<Move>)
    requires Comes(w, ms, key, end) && W.Acts(end.server, ls, t)
    ensures Comes(w, more, key, end.(server := t))
  {
    assert W.Open(true);
    ActsInWorld(w, ms, key, end, ls, t);
    more := ms + Moves(ls);
  }

  /** A request without enough credit is quoted what is missing. */
  lemma QuoteComes(w: World, ms: seq<Move>, end: World, peer: string, callKey: string, price: int)
    returns (more: seq<Move>, s: State)
    requires Comes(w, ms, peer + "|" + callKey, end) && P.Calls(end.trace) > 0
    requires peer + "|" + callKey !in end.server.hist.until && peer + "|" + callKey !in end.server.calls
    requires 0 < price && BalanceOf(end.server.ledger, peer) < price
    ensures Comes(w, more, peer + "|" + callKey, end.(server := s))
    ensures QuotedFor(s, peer + "|" + callKey, price, price - BalanceOf(s.ledger, peer))
    ensures s.ledger == end.server.ledger && s.hist.starts == end.server.hist.starts
    ensures peer + "|" + callKey !in s.hist.until && peer + "|" + callKey !in s.calls
  {
    var key, t, r, ls := peer + "|" + callKey, end.server, Fresh(0), [];
    more, t, r := Arrives(w, ms, end, peer, callKey);
    ls, s := W.OwnerQuotes(t, [], t, r, price);
    more := OwnersAct(w, more, key, end.(server := t), ls, s);
    assert s.hist.replies[r] == (key, Quoted(price, price - BalanceOf(s.ledger, peer)));
  }

  /** A request with enough credit is served. */
  lemma AnswerComes(w: World, ms: seq<Move>, end: World, peer: string, callKey: string, price: int, o: Outcome)
    returns (more: seq<Move>, s: State)
    requires Comes(w, ms, peer + "|" + callKey, end) && P.Calls(end.trace) > 0
    requires peer + "|" + callKey !in end.server.hist.until && peer + "|" + callKey !in end.server.calls
    requires 0 < price <= BalanceOf(end.server.ledger, peer) && Returnable(o)
    ensures Comes(w, more, peer + "|" + callKey, end.(server := s)) && OwnerSaid(s, peer + "|" + callKey, o)
    ensures W.Moved(end.server.ledger, s.ledger, peer, if o.err.None? then -price else 0)
    ensures CountOf(s.hist.starts, peer + "|" + callKey)
         == CountOf(end.server.hist.starts, peer + "|" + callKey) + 1
  {
    var key, t, r, ls := peer + "|" + callKey, end.server, Fresh(0), [];
    more, t, r := Arrives(w, ms, end, peer, callKey);
    ls, s := W.OwnerIsServed(t, [], t, r, price, o);
    more := OwnersAct(w, more, key, end.(server := t), ls, s);
    assert s.hist.replies[r] == (key, Answered(o));
  }

  /** The tip is credited. */
  lemma TipComes(w: World, ms: seq<Move>, key: string, end: World, peer: string, atoms: int) returns (s: State)
    requires Comes(w, ms, key, end) && 0 < atoms
    ensures Comes(w, ms + [ServerMove(Tip(peer, atoms))], key, end.(server := s))
    ensures W.Moved(end.server.ledger, s.ledger, peer, atoms)
    ensures s.hist == end.server.hist.(credited := s.hist.credited) && s.calls == end.server.calls
  {
    assert W.Open(true);
    CoreLinks(end.server);
    s := TipStep(end.server, peer, atoms);
    StepCore(end.server, Tip(peer, atoms));
    assert WorldStep(end, ServerMove(Tip(peer, atoms)), key) == Some(end.(server := s));
    E.RunMore(w, ms, key, end, ServerMove(Tip(peer, atoms)));
  }

  /** What the agent's side of such a run is: quoted, paid, answered. */
  function QuotedTrace(price: int, shortfall: int): P.Trace {
    P.Then(P.Then(P.Begin, P.CallSent), P.Replied(P.PaymentRequired(price, shortfall)))
  }

  function PaidTrace(price: int, shortfall: int): P.Trace {
    P.Then(P.Then(QuotedTrace(price, shortfall), P.Settled), P.CallSent)
  }

  function AnsweredTrace(price: int, shortfall: int, o: Outcome): P.Trace {
    P.Then(PaidTrace(price, shortfall), P.Replied(P.Result(P.Said(o))))
  }

  lemma TraceGoes(price: int, shortfall: int, o: Outcome)
    requires 0 < shortfall
    ensures P.After(QuotedTrace(price, shortfall)) == Some(P.Settling(0, shortfall))
    ensures P.After(PaidTrace(price, shortfall)) == Some(P.Waiting(1, true))
         && P.Calls(PaidTrace(price, shortfall)) == 2
    ensures P.After(P.Then(QuotedTrace(price, shortfall), P.Settled)) == Some(P.Dialing(1, true))
    ensures P.After(AnsweredTrace(price, shortfall, o)) == Some(P.Done(P.Relayed(P.Said(o))))
    ensures P.Calls(AnsweredTrace(price, shortfall, o)) == 2
    ensures P.Payments(AnsweredTrace(price, shortfall, o)) == [shortfall]
  {
    assert P.After(P.Then(P.Begin, P.CallSent)) == Some(P.Waiting(0, false));
    assert P.After(QuotedTrace(price, shortfall)) == Some(P.Settling(0, shortfall));
    assert P.Payments(QuotedTrace(price, shortfall)) == [];
    assert P.Calls(P.Then(P.Begin, P.CallSent)) == 1 && P.Calls(QuotedTrace(price, shortfall)) == 1;
    assert P.Calls(P.Then(QuotedTrace(price, shortfall), P.Settled)) == 1;
    assert P.Payments(P.Then(QuotedTrace(price, shortfall), P.Settled)) == [shortfall];
  }

  /** The call is sent and quoted. */
  lemma CallIsQuoted(w: World, peer: string, callKey: string, price: int) returns (ms: seq<Move>, end: World)
    requires FreshCall(w, peer + "|" + callKey) && 0 < price && BalanceOf(w.server.ledger, peer) < price
    ensures Comes(w, ms, peer + "|" + callKey, end)
    ensures end.trace == QuotedTrace(price, price - BalanceOf(w.server.ledger, peer))
    ensures end.server.ledger == w.server.ledger && end.server.hist.starts == w.server.hist.starts
    ensures peer + "|" + callKey !in end.server.hist.until && peer + "|" + callKey !in end.server.calls
  {
    var key, s, due := peer + "|" + callKey, w.server, price - BalanceOf(w.server.ledger, peer);
    assert Comes(w, [], key, w);
    Client(w, [], key, w, P.CallSent);
    end := World(P.Then(P.Begin, P.CallSent), w.server);
    ms, s := QuoteComes(w, [] + [ClientMove(P.CallSent)], end, peer, callKey, price);
    end := end.(server := s);
    TraceGoes(price, due, NILS);
    Client(w, ms, key, end, P.Replied(P.PaymentRequired(price, due)));
    ms := ms + [ClientMove(P.Replied(P.PaymentRequired(price, due)))];
    end := World(QuotedTrace(price, due), s);
  }

  /** The shortfall is tipped, and the call is sent again. */
  lemma CallIsPaid(w: World, ms: seq<Move>, key: string, end: World, peer: string, price: int, due: int)
    returns (more: seq<Move>, end': World)
    requires Comes(w, ms, key, end) && end.trace == QuotedTrace(price, due) && 0 < due
    ensures Comes(w, more, key, end') && end'.trace == PaidTrace(price, due)
    ensures W.Moved(end.server.ledger, end'.server.ledger, peer, due)
    ensures end'.server.calls == end.server.calls
    ensures end'.server.hist == end.server.hist.(credited := end'.server.hist.credited)
  {
    TraceGoes(price, due, NILS);
    var s := TipComes(w, ms, key, end, peer, due);
    more, end' := ms + [ServerMove(Tip(peer, due))], end.(server := s);
    Client(w, more, key, end', P.Settled);
    more, end' := more + [ClientMove(P.Settled)], end'.(trace := P.Then(end'.trace, P.Settled));
    Client(w, more, key, end', P.CallSent);
    more, end' := more + [ClientMove(P.CallSent)], end'.(trace := P.Then(end'.trace, P.CallSent));
  }

  /**
   * For every server a fresh call finds, every price above the caller's balance and every outcome of the handler there
   * is a run in which the agent pays exactly what is missing and hears that outcome, after two calls and one execution.
   * A success leaves the caller nothing, a failure the price it has paid in.
   */
  lemma PaidCallGoesThrough(w: World, peer: string, callKey: string, price: int, o: Outcome)
    returns (ms: seq<Move>, end: World)
    requires FreshCall(w, peer + "|" + callKey) && Returnable(o)
    requires 0 < price && BalanceOf(w.server.ledger, peer) < price
    ensures WorldRun(w, ms, peer + "|" + callKey, end)
    ensures P.After(end.trace) == Some(P.Done(P.Relayed(P.Said(o)))) && P.Calls(end.trace) == 2
    ensures P.Payments(end.trace) == [price - BalanceOf(w.server.ledger, peer)]
    ensures CountOf(end.server.hist.starts, peer + "|" + callKey) == 1
    ensures BalanceOf(end.server.ledger, peer) == if o.err.None? then 0 else price
    ensures forall other :: other != peer ==> BalanceOf(end.server.ledger, other) == BalanceOf(w.server.ledger, other)
  {
    var key, s, due := peer + "|" + callKey, w.server, price - BalanceOf(w.server.ledger, peer);
    ms, end := CallIsQuoted(w, peer, callKey, price);
    ms, end := CallIsPaid(w, ms, key, end, peer, price, due);
    TraceGoes(price, due, o);
    ms, s := AnswerComes(w, ms, end, peer, callKey, price, o);
    end := end.(server := s);
    Client(w, ms, key, end, P.Replied(P.Result(P.Said(o))));
    ms, end := ms + [ClientMove(P.Replied(P.Result(P.Said(o))))], end.(trace := AnsweredTrace(price, due, o));
    Ends(w, ms, key, end);
  }
}
