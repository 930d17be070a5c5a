/** Messages, dials, idle sweeps and Close running side by side on one router, one locked section a step. */
module RouterRuns {
  import opened Wrappers
  import opened MapSums
  import opened Router
  import RR = ReassemblyRuns
  import Wire

  /** Closing: the connection is done, its entry not yet removed. */
  datatype Stage = Open | Closing | Gone

  datatype Member = Member(info: Session, stage: Stage)

  /** closers maps each running Close to the sessions it has still to wait for. */
  datatype State = State(table: Table, conns: map<nat, Member>, closers: map<nat, set<nat>>)

  datatype Step =
    | Message(peer: string, sid: string, id: nat)
    | Dial(peer: string, sid: string, id: nat)
    | StartClose(id: nat)
    | FinishClose(id: nat)
    | CloseRouter(closer: nat)
    | CloseNext(closer: nat, id: nat)

  function Add(s: State, info: Session): State {
    s.(table := Opened(s.table, info), conns := s.conns[info.id := Member(info, Open)])
  }

  /** The ids of new connections are new; a dialed session id is one its peer does not use. */
  ghost function Next(s: State, c: Config, l: Step): Option<State> {
    match l
    case Message(peer, sid, id) =>
      if id in s.conns then None
      else if MayOpen(s.table, c, peer, sid) then Some(Add(s, Session(id, peer, sid, true))) else Some(s)
    case Dial(peer, sid, id) =>
      if id in s.conns || s.table.closed || KeyOf(peer, sid) in s.table.sessions then None
      else Some(Add(s, Session(id, peer, sid, false)))
    case StartClose(id) =>
      if id in s.conns && s.conns[id].stage == Open
      then Some(s.(conns := s.conns[id := s.conns[id].(stage := Closing)])) else None
    case FinishClose(id) =>
      if id in s.conns && s.conns[id].stage == Closing
      then
        var info := s.conns[id].info;
        Some(s.(table := Closed(s.table, info.peer, info.sid), conns := s.conns[id := s.conns[id].(stage := Gone)]))
      else None
    case CloseRouter(closer) =>
      if closer in s.closers then None
      else Some(s.(table := s.table.(closed := true), closers := s.closers[closer := Ids(s.table.sessions)]))
    case CloseNext(closer, id) =>
      if closer in s.closers && id in s.conns && s.conns[id].stage == Gone
      then Some(s.(closers := s.closers[closer := s.closers[closer] - {id}])) else None
  }

  ghost function Ids(sessions: map<string, Session>): set<nat> {
    set k | k in sessions :: sessions[k].id
  }

  datatype Trace = Begin | Then(before: Trace, step: Step)

  ghost function End(t: Trace, c: Config): Option<State> {
    match t
    case Begin => Some(State(Table(map[], map[], false), map[], map[]))
    case Then(before, step) => if End(before, c).None? then None else Next(End(before, c).value, c, step)
  }

  /** Session ids are hex, so a key names one peer and one session, whatever the peer is called. */
  lemma KeysApart(peer: string, sid: string, peer': string, sid': string)
    requires Wire.ValidId(sid) && Wire.ValidId(sid') && KeyOf(peer, sid) == KeyOf(peer', sid')
    ensures peer == peer' && sid == sid'
  {
    RR.LastSlash(peer, sid, peer', sid');
  }

  /** A connection is in the table until it is gone, under its own key. */
  ghost predicate MemberOk(s: State, id: nat) {
    id in s.conns ==>
      var m := s.conns[id];
      && m.info.id == id
      && (m.stage != Gone ==> KeyOf(m.info.peer, m.info.sid) in s.table.sessions
                              && s.table.sessions[KeyOf(m.info.peer, m.info.sid)] == m.info)
  }

  ghost predicate EntryOk(s: State, k: string) {
    k in s.table.sessions ==>
      var info := s.table.sessions[k];
      info.id in s.conns && s.conns[info.id].info == info && s.conns[info.id].stage != Gone
  }

  ghost predicate WithinLimit(s: State, c: Config, peer: string) {
    c.limit > 0 ==> Inbound(s.table.sessions, peer) <= c.limit
  }

  ghost predicate Waited(s: State, closer: nat) {
    closer in s.closers ==>
      && s.table.closed
      && forall k :: k in s.table.sessions ==> s.table.sessions[k].id in s.closers[closer]
  }

  ghost predicate Inv(s: State, c: Config) {
    && Agreed(s.table)
    && (forall k {:trigger EntryOk(s, k)} :: EntryOk(s, k))
    && (forall id {:trigger MemberOk(s, id)} :: MemberOk(s, id))
    && (forall peer {:trigger WithinLimit(s, c, peer)} :: WithinLimit(s, c, peer))
    && (forall closer {:trigger Waited(s, closer)} :: Waited(s, closer))
  }

  lemma AddKeeps(s: State, c: Config, info: Session)
    requires Inv(s, c) && !s.table.closed && KeyOf(info.peer, info.sid) !in s.table.sessions && info.id !in s.conns
    requires info.inbound && c.limit > 0 ==> CountOf(s.table.peers, info.peer) < c.limit
    ensures Inv(Add(s, info), c)
  {
    var s', key := Add(s, info), KeyOf(info.peer, info.sid);
    OpenAgrees(s.table, info);
    forall id ensures MemberOk(s', id) {
      assert MemberOk(s, id);
    }
    forall k ensures EntryOk(s', k) {
      assert EntryOk(s, k);
    }
    forall peer ensures WithinLimit(s', c, peer) {
      assert WithinLimit(s, c, peer) && CountsOf(s.table, peer);
      MarkStore(s.table.sessions, info, peer, true);
      MarksBounds(s.table.sessions, peer);
    }
    forall closer ensures Waited(s', closer) {
      assert Waited(s, closer);
    }
  }

  lemma FinishAgrees(s: State, c: Config, id: nat)
    requires Inv(s, c) && id in s.conns && s.conns[id].stage == Closing
    ensures var info := s.conns[id].info;
            && Agreed(Closed(s.table, info.peer, info.sid))
            && Closed(s.table, info.peer, info.sid).sessions == s.table.sessions - {KeyOf(info.peer, info.sid)}
            && KeyOf(info.peer, info.sid) in s.table.sessions && s.table.sessions[KeyOf(info.peer, info.sid)] == info
  {
    assert MemberOk(s, id);
    CloseAgrees(s.table, s.conns[id].info.peer, s.conns[id].info.sid);
  }

  /** The table files a session under the key of its connection. */
  lemma KeyOfEntry(s: State, k: string)
    requires Agreed(s.table) && k in s.table.sessions
    ensures k == KeyOf(s.table.sessions[k].peer, s.table.sessions[k].sid)
  {
  }

  lemma FinishKeeps(s: State, c: Config, id: nat)
    requires Inv(s, c) && id in s.conns && s.conns[id].stage == Closing
    ensures Inv(Next(s, c, FinishClose(id)).value, c)
  {
    var s', info := Next(s, c, FinishClose(id)).value, s.conns[id].info;
    FinishAgrees(s, c, id);
    var key := KeyOf(info.peer, info.sid);
    forall j ensures MemberOk(s', j) {
      assert MemberOk(s, j) && MemberOk(s, id);
    }
    forall k ensures EntryOk(s', k) {
      assert EntryOk(s, k);
      if k in s.table.sessions {
        KeyOfEntry(s, k);
      }
    }
    forall peer ensures WithinLimit(s', c, peer) {
      assert WithinLimit(s, c, peer);
      MarkDrop(s.table.sessions, key, peer, true);
    }
    forall closer ensures Waited(s', closer) {
      assert Waited(s, closer);
    }
  }

  lemma CloseRouterKeeps(s: State, c: Config, closer: nat)
    requires Inv(s, c) && closer !in s.closers
    ensures Inv(Next(s, c, CloseRouter(closer)).value, c)
  {
    var s' := Next(s, c, CloseRouter(closer)).value;
    ClosedAgrees(s.table);
    forall id ensures MemberOk(s', id) {
      assert MemberOk(s, id);
    }
    forall k ensures EntryOk(s', k) {
      assert EntryOk(s, k);
    }
    forall peer ensures WithinLimit(s', c, peer) {
      assert WithinLimit(s, c, peer);
    }
    forall other ensures Waited(s', other) {
      assert Waited(s, other);
    }
  }

  /** Steps that leave the table alone: a close that begins, and a wait that ends because its session is gone. */
  lemma QuietKeeps(s: State, c: Config, l: Step)
    requires Inv(s, c) && Next(s, c, l).Some? && (l.StartClose? || l.CloseNext?)
    ensures Inv(Next(s, c, l).value, c)
  {
    var s' := Next(s, c, l).value;
    forall id ensures MemberOk(s', id) {
      assert MemberOk(s, id);
    }
    forall k ensures EntryOk(s', k) {
      assert EntryOk(s, k);
    }
    forall peer ensures WithinLimit(s', c, peer) {
      assert WithinLimit(s, c, peer);
    }
    forall closer ensures Waited(s', closer) {
      assert Waited(s, closer);
      forall k | k in s.table.sessions
        ensures s.table.sessions[k].id in s.conns && s.conns[s.table.sessions[k].id].stage != Gone
      {
        assert EntryOk(s, k);
      }
    }
  }

  lemma NextKeeps(s: State, c: Config, l: Step)
    requires Inv(s, c) && Next(s, c, l).Some?
    ensures Inv(Next(s, c, l).value, c)
  {
    match l {
      case Message(peer, sid, id) =>
        if MayOpen(s.table, c, peer, sid) {
          AddKeeps(s, c, Session(id, peer, sid, true));
        }
      case Dial(peer, sid, id) => AddKeeps(s, c, Session(id, peer, sid, false));
      case StartClose(_) => QuietKeeps(s, c, l);
      case FinishClose(id) => FinishKeeps(s, c, id);
      case CloseRouter(closer) => CloseRouterKeeps(s, c, closer);
      case CloseNext(_, _) => QuietKeeps(s, c, l);
    }
  }

  lemma {:induction false} RunKeeps(t: Trace, c: Config)
    requires End(t, c).Some?
    ensures Inv(End(t, c).value, c)
  {
    match t {
      case Begin =>
        NoSessions();
        forall peer ensures WithinLimit(End(t, c).value, c, peer) {
          assert Marks(map[], peer, true) == map[];
        }
      case Then(before, step) =>
        RunKeeps(before, c);
        NextKeeps(End(before, c).value, c, step);
    }
  }

  /**
   * In every interleaving, each peer's counter is the number of its sessions in the table, and the sessions its
   * messages opened never exceed a positive limit.
   */
  lemma CountersAgree(t: Trace, c: Config, s: State, peer: string)
    requires End(t, c) == Some(s)
    ensures CountOf(s.table.peers, peer) == Live(s.table.sessions, peer)
    ensures c.limit > 0 ==> Inbound(s.table.sessions, peer) <= c.limit
  {
    RunKeeps(t, c);
    assert CountsOf(s.table, peer) && WithinLimit(s, c, peer);
  }

  /**
   * In every interleaving, a message opens a session exactly when the router is open and accepts sessions, none has the
   * message's key, and the peer has fewer sessions than a positive limit; otherwise nothing changes.
   */
  lemma FreePlaceIsGiven(t: Trace, c: Config, s: State, peer: string, sid: string, id: nat)
    requires End(t, c) == Some(s) && id !in s.conns
    ensures var key := peer + "/" + sid;
            var live := |set k | k in s.table.sessions && s.table.sessions[k].peer == peer|;
            var s' := Next(s, c, Message(peer, sid, id));
            if !s.table.closed && key !in s.table.sessions && c.accepts && (c.limit <= 0 || live < c.limit) then
              && s'.Some? && s'.value.table.sessions == s.table.sessions[key := Session(id, peer, sid, true)]
              && s'.value.conns == s.conns[id := Member(Session(id, peer, sid, true), Open)]
            else
              s' == Some(s)
  {
    CountersAgree(t, c, s, peer);
    LiveIsCount(s.table.sessions, peer);
  }

  /**
   * A Close that has waited for every session it found leaves an empty table, however many others close, dial or
   * deliver.
   */
  lemma NothingSurvivesClose(t: Trace, c: Config, s: State, closer: nat)
    requires End(t, c) == Some(s) && closer in s.closers && s.closers[closer] == {}
    ensures s.table.sessions == map[] && s.table.closed && forall peer :: CountOf(s.table.peers, peer) == 0
  {
    RunKeeps(t, c);
    assert Waited(s, closer);
    assert forall k :: k !in s.table.sessions;
    NothingCounted(s.table);
  }
}
