/** The session table of the router (transport.go): sessions by "peer/sid", and how many each peer has. */
module Router {
  import opened Wrappers
  import opened MapSums

  /** id tells connections apart; inbound ones were opened by a message, the others by Dial. */
  datatype Session = Session(id: nat, peer: string, sid: string, inbound: bool)

  datatype Table = Table(sessions: map<string, Session>, peers: map<string, int>, closed: bool)

  /** limit is MaxSessionsPerPeer (zero selects 8, negative means no limit); accepts tells whether Accept is set. */
  datatype Config = Config(limit: int, accepts: bool)

  function WithDefaults(c: Config): Config {
    if c.limit == 0 then c.(limit := 8) else c
  }

  function KeyOf(peer: string, sid: string): string {
    peer + "/" + sid
  }

  function CountOf(peers: map<string, int>, peer: string): int {
    if peer in peers then peers[peer] else 0
  }

  function Opened(t: Table, s: Session): Table {
    t.(sessions := t.sessions[KeyOf(s.peer, s.sid) := s], peers := t.peers[s.peer := CountOf(t.peers, s.peer) + 1])
  }

  /** onClose: by key, whatever the table holds under it. */
  function Closed(t: Table, peer: string, sid: string): Table {
    if KeyOf(peer, sid) !in t.sessions then t
    else
      t.(sessions := t.sessions - {KeyOf(peer, sid)},
         peers := if CountOf(t.peers, peer) <= 1 then t.peers - {peer}
                  else t.peers[peer := CountOf(t.peers, peer) - 1])
  }

  /** Whether a complete message may open a session. */
  predicate MayOpen(t: Table, c: Config, peer: string, sid: string) {
    && !t.closed && KeyOf(peer, sid) !in t.sessions && c.accepts
    && !(c.limit > 0 && CountOf(t.peers, peer) >= c.limit)
  }

  // ------------------------------------------------------------ counting

  ghost function Marks(sessions: map<string, Session>, peer: string, inboundOnly: bool): map<string, int> {
    map k | k in sessions :: if sessions[k].peer == peer && (inboundOnly ==> sessions[k].inbound) then 1 else 0
  }

  /** How many sessions a peer has. */
  ghost function Live(sessions: map<string, Session>, peer: string): int {
    Sum(Marks(sessions, peer, false))
  }

  /** How many of them its messages opened. */
  ghost function Inbound(sessions: map<string, Session>, peer: string): int {
    Sum(Marks(sessions, peer, true))
  }

  ghost predicate CountsOf(t: Table, peer: string) {
    CountOf(t.peers, peer) == Live(t.sessions, peer) && (peer in t.peers ==> 0 < t.peers[peer])
  }

  /** The counters agree with the table, which files each session under its own key. */
  ghost predicate Agreed(t: Table) {
    && (forall k :: k in t.sessions ==> k == KeyOf(t.sessions[k].peer, t.sessions[k].sid))
    && (forall peer {:trigger CountsOf(t, peer)} :: CountsOf(t, peer))
  }

  lemma MarkStore(sessions: map<string, Session>, s: Session, peer: string, inboundOnly: bool)
    requires KeyOf(s.peer, s.sid) !in sessions
    ensures Sum(Marks(sessions[KeyOf(s.peer, s.sid) := s], peer, inboundOnly))
         == Sum(Marks(sessions, peer, inboundOnly)) + (if s.peer == peer && (inboundOnly ==> s.inbound) then 1 else 0)
  {
    var key, v := KeyOf(s.peer, s.sid), if s.peer == peer && (inboundOnly ==> s.inbound) then 1 else 0;
    assert Marks(sessions[key := s], peer, inboundOnly) == Marks(sessions, peer, inboundOnly)[key := v];
    SumStore(Marks(sessions, peer, inboundOnly), key, v);
  }

  lemma MarkDrop(sessions: map<string, Session>, key: string, peer: string, inboundOnly: bool)
    requires key in sessions
    ensures Sum(Marks(sessions - {key}, peer, inboundOnly))
         == Sum(Marks(sessions, peer, inboundOnly))
            - (if sessions[key].peer == peer && (inboundOnly ==> sessions[key].inbound) then 1 else 0)
  {
    assert Marks(sessions - {key}, peer, inboundOnly) == Marks(sessions, peer, inboundOnly) - {key};
    SumDrop(Marks(sessions, peer, inboundOnly), key);
  }

  ghost function Of(sessions: map<string, Session>, peer: string): set<string> {
    set k | k in sessions && sessions[k].peer == peer
  }

  lemma OneFewer(sessions: map<string, Session>, key: string, peer: string)
    requires key in sessions
    ensures |Of(sessions, peer)| == |Of(sessions - {key}, peer)| + (if sessions[key].peer == peer then 1 else 0)
  {
    if sessions[key].peer == peer {
      assert Of(sessions, peer) == Of(sessions - {key}, peer) + {key};
    } else {
      assert Of(sessions, peer) == Of(sessions - {key}, peer);
    }
  }

  /** The marks count the sessions of the peer. */
  lemma {:induction false} LiveIsCount(sessions: map<string, Session>, peer: string)
    ensures Live(sessions, peer) == |set k | k in sessions && sessions[k].peer == peer|
    decreases |sessions.Keys|
  {
    assert Of(sessions, peer) == set k | k in sessions && sessions[k].peer == peer;
    if sessions.Keys == {} {
      NoSum(Marks(sessions, peer, false));
      assert Of(sessions, peer) == {};
    } else {
      var key :| key in sessions.Keys;
      assert (sessions - {key}).Keys == sessions.Keys - {key};
      LiveIsCount(sessions - {key}, peer);
      assert Of(sessions - {key}, peer) == set k | k in sessions - {key} && (sessions - {key})[k].peer == peer;
      MarkDrop(sessions, key, peer, false);
      OneFewer(sessions, key, peer);
    }
  }

  lemma NoSum(m: map<string, int>)
    requires m.Keys == {}
    ensures Sum(m) == 0
  {
    assert m == map[];
  }

  lemma MarksBounds(sessions: map<string, Session>, peer: string)
    ensures 0 <= Inbound(sessions, peer) <= Live(sessions, peer)
  {
    SumNonNegative(Marks(sessions, peer, true));
    SumMonotone(Marks(sessions, peer, true), Marks(sessions, peer, false));
  }

  /** A session in the table is counted. */
  lemma SessionCounted(sessions: map<string, Session>, key: string)
    requires key in sessions
    ensures 1 <= Live(sessions, sessions[key].peer)
  {
    var marks := Marks(sessions, sessions[key].peer, false);
    assert marks[key] == 1;
    SumCovers(marks, key);
  }

  /** Opening under a key in use, which only a repeated session id can cause, is exactly what breaks the counters. */
  lemma OpenAgrees(t: Table, s: Session)
    requires Agreed(t)
    ensures Agreed(Opened(t, s)) <==> KeyOf(s.peer, s.sid) !in t.sessions
  {
    var t', key := Opened(t, s), KeyOf(s.peer, s.sid);
    if key !in t.sessions {
      forall peer ensures CountsOf(t', peer) {
        assert CountsOf(t, peer);
        MarkStore(t.sessions, s, peer, false);
        MarksBounds(t.sessions, peer);
      }
    } else {
      Overwritten(t, s);
    }
  }

  lemma OverwrittenLive(t: Table, s: Session)
    requires KeyOf(s.peer, s.sid) in t.sessions
    ensures var lost := t.sessions[KeyOf(s.peer, s.sid)].peer;
            Live(Opened(t, s).sessions, lost) == Live(t.sessions, lost) - 1 + (if s.peer == lost then 1 else 0)
  {
    var key := KeyOf(s.peer, s.sid);
    var lost := t.sessions[key].peer;
    MarkDrop(t.sessions, key, lost, false);
    MarkStore(t.sessions - {key}, s, lost, false);
    assert (t.sessions - {key})[key := s] == t.sessions[key := s];
  }

  lemma Overwritten(t: Table, s: Session)
    requires Agreed(t) && KeyOf(s.peer, s.sid) in t.sessions
    ensures !Agreed(Opened(t, s))
  {
    var lost := t.sessions[KeyOf(s.peer, s.sid)].peer;
    OverwrittenLive(t, s);
    assert CountsOf(t, lost);
    assert !CountsOf(Opened(t, s), lost);
  }

  lemma CloseAgrees(t: Table, peer: string, sid: string)
    requires Agreed(t) && (KeyOf(peer, sid) in t.sessions ==> t.sessions[KeyOf(peer, sid)].peer == peer)
    ensures Agreed(Closed(t, peer, sid))
  {
    var t', key := Closed(t, peer, sid), KeyOf(peer, sid);
    if key in t.sessions {
      SessionCounted(t.sessions, key);
      forall p ensures CountsOf(t', p) {
        assert CountsOf(t, p) && CountsOf(t, peer);
        MarkDrop(t.sessions, key, p, false);
      }
    }
  }

  // ------------------------------------------------------------ the object

  class Conn {
    const info: Session
    var done: bool

    constructor (info: Session)
      ensures this.info == info && !done
    {
      this.info := info;
      done := false;
    }
  }

  ghost function Infos(sessions: map<string, Conn>): map<string, Session> {
    map k | k in sessions :: sessions[k].info
  }

  lemma InfosStore(sessions: map<string, Conn>, key: string, conn: Conn)
    ensures Infos(sessions[key := conn]) == Infos(sessions)[key := conn.info]
  {
  }

  class Switchboard {
    const config: Config
    var sessions: map<string, Conn>
    var peers: map<string, int>
    var closed: bool
    var issued: nat

    ghost function View(): Table
      reads this
    {
      Table(Infos(sessions), peers, closed)
    }

    ghost predicate Valid()
      reads this, sessions.Values
    {
      && Agreed(View())
      && (forall k :: k in sessions ==> !sessions[k].done)
      && (forall k :: k in sessions ==> sessions[k].info.id < issued)
    }

    constructor (c: Config)
      ensures Valid() && config == WithDefaults(c) && View() == Table(map[], map[], false)
      ensures config.accepts == c.accepts && config.limit == if c.limit == 0 then 8 else c.limit
    {
      config := WithDefaults(c);
      sessions, peers, closed, issued := map[], map[], false, 0;
      new;
      NoSessions();
    }

    /** The part of HandlePM under the lock: the session of a complete message, opened if it may be. */
    method Deliver(peer: string, sid: string) returns (conn: Conn?)
      requires Valid()
      modifies this
      ensures Valid() && closed == old(closed)
      ensures MayOpen(old(View()), config, peer, sid) ==>
                View() == Opened(old(View()), Session(old(issued), peer, sid, true))
      ensures var key, some, all := peer + "/" + sid, old(sessions), old(peers);
              if old(closed) then
                conn == null && sessions == some && peers == all
              else if key in some then
                conn == some[key] && sessions == some && peers == all
              else if config.accepts
                   && (config.limit <= 0 || (if peer in all then all[peer] else 0) < config.limit) then
                && conn != null && fresh(conn) && !conn.done && conn.info == Session(old(issued), peer, sid, true)
                && sessions == some[key := conn] && peers == all[peer := (if peer in all then all[peer] else 0) + 1]
              else
                conn == null && sessions == some && peers == all
    {
      var key := KeyOf(peer, sid);
      if closed {
        return null;
      }
      if key in sessions {
        return sessions[key];
      }
      if !config.accepts {
        return null;
      }
      if config.limit > 0 && CountOf(peers, peer) >= config.limit {
        return null;
      }
      conn := Open(peer, sid, true);
    }

    /** Dial with a session id no session of the peer uses. */
    method Dial(peer: string, sid: string) returns (conn: Conn?)
      requires Valid() && KeyOf(peer, sid) !in sessions
      modifies this
      ensures Valid() && (conn == null <==> old(closed)) && closed == old(closed)
      ensures conn != null ==>
                && fresh(conn) && !conn.done && conn.info == Session(old(issued), peer, sid, false)
                && View() == Opened(old(View()), conn.info)
                && sessions == old(sessions)[peer + "/" + sid := conn]
                && peers == old(peers)[peer := (if peer in old(peers) then old(peers)[peer] else 0) + 1]
      ensures conn == null ==> View() == old(View())
    {
      if closed {
        return null;
      }
      conn := Open(peer, sid, false);
    }

    method Open(peer: string, sid: string, inbound: bool) returns (conn: Conn)
      requires Valid() && KeyOf(peer, sid) !in sessions
      modifies this
      ensures Valid() && fresh(conn) && conn.info == Session(old(issued), peer, sid, inbound) && closed == old(closed)
      ensures View() == Opened(old(View()), conn.info) && sessions == old(sessions)[KeyOf(peer, sid) := conn]
      ensures !conn.done && peers == old(peers)[peer := CountOf(old(peers), peer) + 1]
    {
      var info := Session(issued, peer, sid, inbound);
      OpenAgrees(View(), info);
      conn := new Conn(info);
      InfosStore(sessions, KeyOf(peer, sid), conn);
      sessions := sessions[KeyOf(peer, sid) := conn];
      peers := peers[peer := CountOf(peers, peer) + 1];
      issued := issued + 1;
    }

    /** Closing a connection takes its session out once; closing it again does nothing. */
    method CloseConn(conn: Conn)
      requires Valid() && (!conn.done ==> KeyOf(conn.info.peer, conn.info.sid) in sessions)
      requires !conn.done ==> sessions[KeyOf(conn.info.peer, conn.info.sid)] == conn
      modifies this, conn
      ensures Valid() && conn.done && closed == old(closed)
      ensures View() == if old(conn.done) then old(View()) else Closed(old(View()), conn.info.peer, conn.info.sid)
      ensures sessions == if old(conn.done) then old(sessions)
                          else old(sessions) - {KeyOf(conn.info.peer, conn.info.sid)}
    {
      if conn.done {
        return;
      }
      ghost var before := View();
      var key, peer := KeyOf(conn.info.peer, conn.info.sid), conn.info.peer;
      CloseAgrees(before, peer, conn.info.sid);
      conn.done := true;
      if key in sessions {
        sessions := sessions - {key};
        if CountOf(peers, peer) <= 1 {
          peers := peers - {peer};
        } else {
          peers := peers[peer := CountOf(peers, peer) - 1];
        }
      }
      assert View() == Closed(before, peer, conn.info.sid);
      forall k | k in sessions ensures sessions[k] != conn {
        assert before.sessions[k] == sessions[k].info;
      }
    }

    method CloseEntry(k: string)
      requires Valid() && k in sessions
      modifies this, sessions[k]
      ensures Valid() && closed == old(closed)
      ensures sessions == old(sessions) - {k} && old(sessions)[k].done
    {
      assert View().sessions[k] == sessions[k].info;
      CloseConn(sessions[k]);
    }

    /** Close, when nothing runs beside it: no session and no count is left, and none can be opened again. */
    method Close()
      requires Valid()
      modifies this, sessions.Values
      ensures Valid() && closed && sessions == map[] && forall peer :: CountOf(peers, peer) == 0
      ensures forall k :: k in old(sessions) ==> old(sessions)[k].done
    {
      closed := true;
      ClosedAgrees(old(View()));
      assert View() == old(View()).(closed := true);
      CloseAll();
      assert View().sessions == map[];
      NothingCounted(View());
    }

    /** The loop over the sessions Close found. */
    method CloseAll()
      requires Valid()
      modifies this, sessions.Values
      ensures Valid() && closed == old(closed) && sessions == map[]
      ensures forall k :: k in old(sessions) ==> old(sessions)[k].done
    {
      ghost var start := sessions;
      var conns := sessions;
      while conns != map[]
        invariant Valid() && closed == old(closed) && conns == sessions
        invariant forall k :: k in sessions ==> k in start && sessions[k] == start[k]
        invariant forall k :: k in start && k !in sessions ==> start[k].done
        decreases |conns.Keys|
      {
        var k :| k in conns;
        CloseEntry(k);
        conns := conns - {k};
      }
    }
  }

  lemma NothingCounted(t: Table)
    requires Agreed(t) && t.sessions == map[]
    ensures forall peer :: CountOf(t.peers, peer) == 0
  {
    forall peer ensures CountOf(t.peers, peer) == 0 {
      assert CountsOf(t, peer) && Marks(map[], peer, false) == map[];
    }
  }

  lemma ClosedAgrees(t: Table)
    requires Agreed(t)
    ensures Agreed(t.(closed := true))
  {
    forall peer ensures CountsOf(t.(closed := true), peer) {
      assert CountsOf(t, peer);
    }
  }

  lemma NoSessions()
    ensures Agreed(Table(map[], map[], false))
  {
    forall peer ensures CountsOf(Table(map[], map[], false), peer) {
      assert Marks(map[], peer, false) == map[];
    }
  }
}
