/** A run in which a second caller becomes the owner of a key whose first outcome is not journaled yet. */
module ServingRaces {
  import opened Wrappers
  import opened CallJournal
  import opened ServerLedger
  import opened ServingHarness
  import opened Serving
  import opened ServingInvariant
  import opened ServingRuns

  /** A play from a start s that has come to t, where every reference is good. */
  ghost predicate Reaches(s: State, ls: seq<Label>, t: State) {
    Play(s, ls, t) && Core(t)
  }

  lemma {:induction false} PlayMore(s: State, ls: seq<Label>, t: State, l: Label)
    requires Play(s, ls, t) && Step(t, l).Some?
    ensures Play(s, ls + [l], Step(t, l).value)
    decreases |ls|
  {
    if ls == [] {
      assert ([] + [l])[1..] == [];
    } else {
      assert (ls + [l])[1..] == ls[1..] + [l];
      PlayMore(Step(s, ls[0]).value, ls[1..], t, l);
    }
  }

  lemma ReachMore(s: State, ls: seq<Label>, t: State, l: Label)
    requires Reaches(s, ls, t) && Step(t, l).Some?
    ensures Reaches(s, ls + [l], Step(t, l).value)
  {
    PlayMore(s, ls, t, l);
    StepCore(t, l);
  }

  /** The owner of r moves from phase to phase. */
  lemma OwnerMoves(s: State, ls: seq<Label>, t: State, l: Label)
    requires Reaches(s, ls, t) && t.mode == Up && IsOwnerStep(l) && l.r in t.owners && OwnerStep(t, l).Some?
    ensures Step(t, l) == OwnerStep(t, l) && Reaches(s, ls + [l], Step(t, l).value)
  {
    CoreLinks(t);
    ReachMore(s, ls, t, l);
  }

  /** A first start finds nothing to refund and nothing to rebuild. */
  lemma StartsEmpty(s: State) returns (ls: seq<Label>, t: State)
    requires Initial(s)
    ensures Reaches(s, ls, t) && t.mode == Up && t.calls.Keys == {} && t.owners == map[] && t.hist.starts == map[]
  {
    var booting := s.(mode := Booting({}, None));
    assert InterruptedIn(s.journal).Keys == {};
    ReachMore(s, [], s, Boot);
    ReachMore(s, [] + [Boot], booting, BootDone);
    ls, t := [] + [Boot] + [BootDone], BootDoneStep(booting);
    assert ReloadedRecords(s.journal, s.now).Keys == {};
  }

  /** A caller whose key is not in the table, or only under an expired record, becomes an owner. */
  lemma ClaimEnters(s: State, ls: seq<Label>, t: State, peer: string, callKey: string) returns (u: State)
    requires Reaches(s, ls, t) && t.mode == Up
    requires var key := peer + "|" + callKey;
             key in t.calls ==> t.calls[key] in t.recs && Expired(t.recs[t.calls[key]], t.now)
    ensures Reaches(s, ls + [Claim(peer, callKey)], u) && u.mode == Up && u.now == t.now && u.nextId == t.nextId + 1
    ensures var r := Fresh(t.nextId);
            && r !in t.owners && u.owners == t.owners[r := Owner(peer + "|" + callKey, peer, 0, Claimed)]
            && u.hist == t.hist && peer + "|" + callKey in u.calls && u.calls[peer + "|" + callKey] == r
    ensures u.ledger == t.ledger && u.journal == Collected(t.journal, t.now) && u.waiters == t.waiters
  {
    CoreLinks(t);
    assert Fresh(t.nextId) in t.owners ==> OwnerOk(t, Fresh(t.nextId));
    u := ClaimStep(t, peer, callKey);
    assert Step(t, Claim(peer, callKey)) == Some(u);
    ReachMore(s, ls, t, Claim(peer, callKey));
  }

  lemma FreeStarts(s: State, ls: seq<Label>, t: State, r: Id) returns (u: State)
    requires Reaches(s, ls, t) && t.mode == Up && r in t.owners && t.owners[r].phase.Claimed?
    ensures Reaches(s, ls + [Free(r)] + [Start(r)], u) && u.owners == t.owners[r := t.owners[r].(phase := Running)]
    ensures u == t.(owners := u.owners, hist := u.hist)
    ensures CountOf(u.hist.starts, t.owners[r].key) == CountOf(t.hist.starts, t.owners[r].key) + 1
  {
    assert OwnerOk(t, r);
    OwnerMoves(s, ls, t, Free(r));
    var t1 := FreeAt(t, r).value;
    assert OwnerOk(t1, r);
    OwnerMoves(s, ls + [Free(r)], t1, Start(r));
    u := StartAt(t1, r).value;
  }

  lemma RunningIsRecorded(s: State, ls: seq<Label>, t: State, r: Id) returns (u: State)
    requires Reaches(s, ls, t) && t.mode == Up && r in t.owners && t.owners[r].phase.Running?
    requires t.owners[r].price == 0
    ensures Reaches(s, ls + [Return(r, NILS)] + [Record(r)], u)
    ensures u.owners == t.owners[r := t.owners[r].(phase := Recorded(NILS))] && u.calls == t.calls && u.now == t.now
    ensures u.recs == t.recs[r := Rec(false, NILS, Some(t.now + CALL_KEY_TTL))] && u.mode == Up
    ensures u.nextId == t.nextId && u.hist.starts == t.hist.starts
  {
    assert OwnerOk(t, r);
    OwnerMoves(s, ls, t, Return(r, NILS));
    var t1 := ReturnAt(t, r, NILS).value;
    assert OwnerOk(t1, r);
    OwnerMoves(s, ls + [Return(r, NILS)], t1, Record(r));
    u := RecordAt(t1, r).value;
  }

  /** Such a caller, as the owner of a free call, starts the handler. */
  lemma ClaimStarts(s: State, ls: seq<Label>, t: State, peer: string, callKey: string)
    returns (more: seq<Label>, u: State)
    requires Reaches(s, ls, t) && t.mode == Up
    requires var key := peer + "|" + callKey;
             key in t.calls ==> t.calls[key] in t.recs && Expired(t.recs[t.calls[key]], t.now)
    ensures Reaches(s, more, u) && u.mode == Up && u.now == t.now && u.nextId == t.nextId + 1
    ensures var (key, r) := (peer + "|" + callKey, Fresh(t.nextId));
            && r !in t.owners && u.owners == t.owners[r := Owner(key, peer, 0, Running)]
            && key in u.calls && u.calls[key] == r
            && CountOf(u.hist.starts, key) == CountOf(t.hist.starts, key) + 1
  {
    var r := Fresh(t.nextId);
    var claimed := ClaimEnters(s, ls, t, peer, callKey);
    u := FreeStarts(s, ls + [Claim(peer, callKey)], claimed, r);
    more := ls + [Claim(peer, callKey)] + [Free(r)] + [Start(r)];
  }

  lemma TimePasses(s: State, ls: seq<Label>, t: State, ns: nat)
    requires Reaches(s, ls, t)
    ensures Reaches(s, ls + [Tick(ns)], t.(now := t.now + ns))
  {
    CoreLinks(t);
    ReachMore(s, ls, t, Tick(ns));
  }

  /**
   * The outcome is in the record and not in the journal for longer than the record lives; the next claim of the key
   * makes a second owner beside the first, whose handler has returned, and the handler starts a second time.
   */
  lemma OvertakenByASecondOwner(s: State, peer: string, callKey: string)
    returns (ls: seq<Label>, t: State, q: Id, r: Id)
    requires Initial(s)
    ensures Play(s, ls, t) && q != r && q in t.owners && r in t.owners
    ensures t.owners[q].phase.Recorded? && t.owners[r].phase.Running?
    ensures t.owners[q].key == t.owners[r].key == peer + "|" + callKey
    ensures CountOf(t.hist.starts, peer + "|" + callKey) == 2
  {
    var up, running, recorded;
    ls, up := StartsEmpty(s);
    q := Fresh(up.nextId);
    ls, running := ClaimStarts(s, ls, up, peer, callKey);
    recorded := RunningIsRecorded(s, ls, running, q);
    ls := ls + [Return(q, NILS)] + [Record(q)];
    TimePasses(s, ls, recorded, CALL_KEY_TTL + 1);
    ls := ls + [Tick(CALL_KEY_TTL + 1)];
    r := Fresh(recorded.nextId);
    ls, t := ClaimStarts(s, ls, recorded.(now := recorded.now + CALL_KEY_TTL + 1), peer, callKey);
  }
}
