/** A run in which the agent is answered with an empty success although nothing was executed. */
module EmptyAnswers {
  import opened Wrappers
  import opened CallJournal
  import opened ServingHarness
  import opened Serving
  import opened ServingInvariant
  import opened OneKey
  import opened EndToEnd
  import P = Passthrough

  /** A run from w that has come to end, where every reference of the server is good. */
  ghost predicate Reaches(w: World, ms: seq<Move>, key: string, end: World) {
    WorldRun(w, ms, key, end) && Core(end.server) && end.server.mode == Up
  }

  lemma {:induction false} RunMore(w: World, ms: seq<Move>, key: string, end: World, m: Move)
    requires WorldRun(w, ms, key, end) && WorldStep(end, m, key).Some?
    ensures WorldRun(w, ms + [m], key, WorldStep(end, m, key).value)
    decreases |ms|
  {
    if ms == [] {
      assert ([] + [m])[1..] == [];
    } else {
      assert (ms + [m])[1..] == ms[1..] + [m];
      RunMore(WorldStep(w, ms[0], key).value, ms[1..], key, end, m);
    }
  }

  lemma ServerMoves(w: World, ms: seq<Move>, key: string, end: World, l: Label)
    requires Reaches(w, ms, key, end) && IsOwnerStep(l) && l.r in end.server.owners && OwnerStep(end.server, l).Some?
    ensures Reaches(w, ms + [ServerMove(l)], key, end.(server := OwnerStep(end.server, l).value))
  {
    CoreLinks(end.server);
    assert Step(end.server, l) == OwnerStep(end.server, l);
    StepCore(end.server, l);
    OwnerStepTouches(end.server, l);
    assert WorldStep(end, ServerMove(l), key) == Some(end.(server := OwnerStep(end.server, l).value));
    RunMore(w, ms, key, end, ServerMove(l));
  }

  lemma ClientMoves(w: World, ms: seq<Move>, key: string, end: World, e: P.Event)
    requires Reaches(w, ms, key, end) && (e.Replied? ==> Sent(end.server, key, e.reply))
    requires P.After(P.Then(end.trace, e)).Some?
    ensures Reaches(w, ms + [ClientMove(e)], key, end.(trace := P.Then(end.trace, e)))
  {
    RunMore(w, ms, key, end, ClientMove(e));
  }

  /** A request that finds no claim makes an owner, one that finds a claim in progress waits on it. */
  lemma RequestArrives(w: World, ms: seq<Move>, end: World, peer: string, callKey: string)
    returns (more: seq<Move>, s: State)
    requires Reaches(w, ms, peer + "|" + callKey, end) && P.Calls(end.trace) > 0
    requires peer + "|" + callKey !in end.server.hist.until
    requires var (t, key) := (end.server, peer + "|" + callKey);
             key in t.calls ==> t.calls[key] in t.recs && t.recs[t.calls[key]] == UNCLAIMED
    ensures Reaches(w, more, peer + "|" + callKey, end.(server := s)) && s.hist == end.server.hist
    ensures s.ledger == end.server.ledger
    ensures var (t, key) := (end.server, peer + "|" + callKey);
            && key in s.calls && s.calls[key] in s.recs && s.recs[s.calls[key]] == UNCLAIMED
            && if key in t.calls
               then s.calls[key] == t.calls[key] && s.owners == t.owners
                    && t.nextId in s.waiters && s.waiters[t.nextId] == t.calls[key]
               else s.owners == t.owners[s.calls[key] := Owner(key, peer, 0, Claimed)]
  {
    CoreLinks(end.server);
    s := ClaimStep(end.server, peer, callKey);
    StepCore(end.server, Claim(peer, callKey));
    RunMore(w, ms, peer + "|" + callKey, end, ServerMove(Claim(peer, callKey)));
    more := ms + [ServerMove(Claim(peer, callKey))];
  }

  /** The owner refuses its call and closes the record. */
  lemma OwnerRefuses(w: World, ms: seq<Move>, key: string, end: World, r: Id) returns (more: seq<Move>, s: State)
    requires Reaches(w, ms, key, end) && r in end.server.owners && end.server.owners[r].phase.Claimed?
    requires end.server.owners[r].key == key
    ensures Reaches(w, more, key, end.(server := s)) && s.waiters == end.server.waiters
    ensures s.hist.starts == end.server.hist.starts && s.hist.runs == end.server.hist.runs
    ensures r in s.recs && s.recs[r].closed && s.recs[r].outcome == NILS
    ensures r in s.hist.replies && s.hist.replies[r] == (key, Refused)
  {
    assert OwnerOk(end.server, r);
    ServerMoves(w, ms, key, end, Refuse(r));
    var refused := RefuseAt(end.server, r).value;
    ServerMoves(w, ms + [ServerMove(Refuse(r))], key, end.(server := refused), Close(r));
    s := CloseAt(refused, r).value;
    more := ms + [ServerMove(Refuse(r))] + [ServerMove(Close(r))];
  }

  /** A duplicate that waited on the record then answers three nils. */
  lemma RefusalReachesTheWaiter(w: World, ms: seq<Move>, key: string, end: World, r: Id, v: nat) returns (s: State)
    requires Reaches(w, ms, key, end) && v in end.server.waiters && end.server.waiters[v] == r
    requires r in end.server.recs && end.server.recs[r].closed && end.server.recs[r].outcome == NILS
    requires r in end.server.hist.replies && end.server.hist.replies[r] == (key, Refused)
    ensures Reaches(w, ms + [ServerMove(Wake(v))], key, end.(server := s)) && DuplicateSaid(s, key, NILS)
    ensures s.hist.starts == end.server.hist.starts && s.hist.runs == end.server.hist.runs
  {
    CoreLinks(end.server);
    StepCore(end.server, Wake(v));
    s := WakeStep(end.server, v).value;
    RunMore(w, ms, key, end, ServerMove(Wake(v)));
    assert s.hist.heard[v] == (r, NILS) && s.hist.replies[r] == (key, Refused);
  }

  /** The first reply is lost, and the reissue waits on the claim. */
  lemma ReissueWaits(w: World, peer: string, callKey: string) returns (ms: seq<Move>, end: World, r: Id, v: nat)
    requires FreshCall(w, peer + "|" + callKey)
    ensures Reaches(w, ms, peer + "|" + callKey, end)
    ensures end.trace == P.Then(P.Then(P.Then(w.trace, P.CallSent), P.CallFailed), P.CallSent)
    ensures end.server.hist == w.server.hist && v in end.server.waiters && end.server.waiters[v] == r
    ensures r in end.server.owners && end.server.owners[r] == Owner(peer + "|" + callKey, peer, 0, Claimed)
  {
    var key, s := peer + "|" + callKey, w.server;
    ClientMoves(w, [], key, w, P.CallSent);
    ms := [] + [ClientMove(P.CallSent)];
    end := World(P.Then(w.trace, P.CallSent), s);
    ms, s := RequestArrives(w, ms, end, peer, callKey);
    end := end.(server := s);
    ClientMoves(w, ms, key, end, P.CallFailed);
    ms, end := ms + [ClientMove(P.CallFailed)], end.(trace := P.Then(end.trace, P.CallFailed));
    ClientMoves(w, ms, key, end, P.CallSent);
    ms, end := ms + [ClientMove(P.CallSent)], end.(trace := P.Then(end.trace, P.CallSent));
    r, v := end.server.calls[key], end.server.nextId;
    ms, s := RequestArrives(w, ms, end, peer, callKey);
    end := end.(server := s);
  }

  /** The server then refuses the claim, and what the waiter answers is relayed as a result. */
  lemma NothingRanYetAnswered(w: World, peer: string, callKey: string) returns (ms: seq<Move>, end: World)
    requires FreshCall(w, peer + "|" + callKey)
    ensures WorldRun(w, ms, peer + "|" + callKey, end)
    ensures P.After(end.trace) == Some(P.Done(P.Relayed(P.Said(NILS))))
    ensures CountOf(end.server.hist.starts, peer + "|" + callKey) == 0
    ensures RunsOf(end.server.hist.runs, peer + "|" + callKey) == []
  {
    var key, r, v, s := peer + "|" + callKey, Fresh(0), 0, w.server;
    ms, end, r, v := ReissueWaits(w, peer, callKey);
    ms, s := OwnerRefuses(w, ms, key, end, r);
    end := end.(server := s);
    s := RefusalReachesTheWaiter(w, ms, key, end, r, v);
    ms, end := ms + [ServerMove(Wake(v))], end.(server := s);
    ClientMoves(w, ms, key, end, P.Replied(P.Result(P.Said(NILS))));
    ms := ms + [ClientMove(P.Replied(P.Result(P.Said(NILS))))];
    end := end.(trace := P.Then(end.trace, P.Replied(P.Result(P.Said(NILS)))));
  }
}
