/** The paid-call journal (server/journal.go) and the call records it rebuilds after a restart. */
module CallJournal {
  import opened Wrappers
  import opened Bytes

  const SECOND := 1_000_000_000
  const CALL_KEY_TTL := 1800 * SECOND
  const OUTCOME_CAP := 64 * 1024
  const NOT_RETAINED := "duplicate call: outcome not retained across a restart"

  /** What one execution answered: tool result, structured output and error, each possibly nil. */
  datatype Outcome = Outcome(result: Option<Blob>, out: Option<Blob>, err: Option<string>)

  const NILS := Outcome(None, None, None)

  /** A callRecord: whether its done channel is closed, its answer, and its expiry (None while in progress). */
  datatype Rec = Rec(closed: bool, outcome: Outcome, expires: Option<int>)

  datatype Entry = Entry(peer: string, atoms: int, done: bool, expires: int, kept: bool,
                         result: Option<Blob>, out: Option<Blob>, err: string)

  type Journal = map<string, Entry>

  /** time.Unix of an instant in nanoseconds; rounds down. */
  function UnixOf(ns: int): int {
    ns / SECOND
  }

  function SizeOf(b: Option<Blob>): nat {
    if b.Some? then |b.value| else 0
  }

  predicate Fits(o: Outcome) {
    SizeOf(o.result) + SizeOf(o.out) <= OUTCOME_CAP
  }

  /** The replay window of a completed entry has passed. */
  predicate Lapsed(e: Entry, now: int) {
    e.done && now > e.expires * SECOND
  }

  function OpenEntry(peer: string, atoms: int): Entry {
    Entry(peer, atoms, false, 0, false, None, None, "")
  }

  function Finished(e: Entry, o: Outcome, expires: int): Entry {
    if Fits(o) then
      e.(done := true, expires := UnixOf(expires), kept := true, result := o.result, out := o.out,
         err := if o.err.Some? then o.err.value else e.err)
    else
      e.(done := true, expires := UnixOf(expires))
  }

  function ChargedIn(j: Journal, key: string, peer: string, atoms: int): Journal {
    j[key := OpenEntry(peer, atoms)]
  }

  function CompleteIn(j: Journal, key: string, o: Outcome, expires: int): Journal {
    if key in j then j[key := Finished(j[key], o, expires)] else j
  }

  function InterruptedIn(j: Journal): Journal {
    map k | k in j && !j[k].done :: j[k]
  }

  function Collected(j: Journal, now: int): Journal {
    map k | k in j && !Lapsed(j[k], now) :: j[k]
  }

  function NonEmpty(b: Option<Blob>): Option<Blob> {
    if SizeOf(b) > 0 then b else None
  }

  /** The record a completed entry answers duplicates with after a restart. */
  function Reloaded(e: Entry): Rec {
    Rec(true,
        if e.kept then Outcome(NonEmpty(e.result), NonEmpty(e.out), if e.err != "" then Some(e.err) else None)
        else Outcome(None, None, Some(NOT_RETAINED)),
        Some(e.expires * SECOND))
  }

  function ReloadedRecords(j: Journal, now: int): map<string, Rec> {
    map k | k in j && j[k].done && !Lapsed(j[k], now) :: Reloaded(j[k])
  }

  /** JSON never encodes a value to nothing. */
  predicate Encoded(o: Outcome) {
    (o.result.Some? ==> o.result.value != []) && (o.out.Some? ==> o.out.value != [])
  }

  /**
   * A freshly charged call, completed with o and reloaded before its whole-second expiry, answers a
   * duplicate as the in-memory record does exactly when o fits the cap and its error, if any, has a
   * non-empty text. An outcome above the cap answers the fixed refusal.
   */
  lemma ReloadRefinesMemory(j: Journal, key: string, peer: string, atoms: int, o: Outcome, expires: int, now: int)
    requires Encoded(o)
    requires now <= UnixOf(expires) * SECOND
    ensures var r := ReloadedRecords(CompleteIn(ChargedIn(j, key, peer, atoms), key, o, expires), now);
            && key in r && r[key].closed
            && (r[key].outcome == o <==> Fits(o) && o.err != Some(""))
            && (!Fits(o) ==> r[key].outcome == Outcome(None, None, Some(NOT_RETAINED)))
            && r[key].expires.value <= expires < r[key].expires.value + SECOND
  {
    var done := CompleteIn(ChargedIn(j, key, peer, atoms), key, o, expires);
    assert key in done && !Lapsed(done[key], now);
    if !Fits(o) {
      assert o != Outcome(None, None, Some(NOT_RETAINED));
    }
  }

  /** How an executed outcome answers duplicates once it has been through the journal. */
  function Replayed(o: Outcome): Outcome {
    if !Fits(o) then Outcome(None, None, Some(NOT_RETAINED))
    else Outcome(o.result, o.out, if o.err == Some("") then None else o.err)
  }

  /** What completing a charge with o and reading it back answers. */
  lemma ReloadReplays(peer: string, atoms: int, o: Outcome, expires: int)
    requires Encoded(o)
    ensures Reloaded(Finished(OpenEntry(peer, atoms), o, expires)).outcome == Replayed(o)
    ensures Replayed(o) == o <==> Fits(o) && o.err != Some("")
  {
    if !Fits(o) {
      assert o != Outcome(None, None, Some(NOT_RETAINED));
    }
  }

  /** A failure with an empty error text comes back from the journal as a success without output. */
  lemma EmptyErrorTextIsLost()
    ensures var o := Outcome(None, None, Some(""));
            Reloaded(Finished(OpenEntry("peer", 5), o, 10 * SECOND)).outcome == NILS != o
  {
  }

  /** Collecting lapsed entries never drops a charge still open, nor changes what a reload answers. */
  lemma CollectionIsInvisible(j: Journal, now: int, later: int)
    requires now <= later
    ensures InterruptedIn(Collected(j, now)) == InterruptedIn(j)
    ensures ReloadedRecords(Collected(j, now), later) == ReloadedRecords(j, later)
  {
  }

  class CallRecord {
    var closed: bool
    var outcome: Outcome
    var expires: Option<int>

    constructor ()
      ensures Value() == Rec(false, NILS, None)
    {
      closed, outcome, expires := false, NILS, None;
    }

    ghost function Value(): Rec
      reads this
    {
      Rec(closed, outcome, expires)
    }
  }

  class Journaling {
    var data: Journal
    var disk: Journal

    ghost predicate Valid()
      reads this
    {
      disk == data
    }

    constructor (stored: Journal)
      ensures Valid() && data == stored
    {
      data, disk := stored, stored;
    }

    method Charged(key: string, peer: string, atoms: int)
      requires Valid()
      modifies this
      ensures Valid() && data == ChargedIn(old(data), key, peer, atoms)
      ensures key in data && !data[key].done && data[key].peer == peer && data[key].atoms == atoms
      ensures forall k :: k != key ==> (k in data <==> k in old(data)) && (k in data ==> data[k] == old(data)[k])
    {
      data := data[key := Entry(peer, atoms, false, 0, false, None, None, "")];
      disk := data;
    }

    method Complete(key: string, o: Outcome, expires: int)
      requires Valid()
      modifies this
      ensures Valid() && data == CompleteIn(old(data), key, o, expires)
      ensures data.Keys == old(data).Keys && forall k :: k in data && k != key ==> data[k] == old(data)[k]
      ensures key in data ==>
                var e, was, fits := data[key], old(data)[key], SizeOf(o.result) + SizeOf(o.out) <= 64 * 1024;
                && e.done && e.peer == was.peer && e.atoms == was.atoms
                && e.expires * 1_000_000_000 <= expires < (e.expires + 1) * 1_000_000_000
                && (fits ==> e.kept && e.result == o.result && e.out == o.out)
                && e.err == (if fits && o.err.Some? then o.err.value else was.err)
                && (!fits ==> e.kept == was.kept && e.result == was.result && e.out == was.out)
    {
      if key !in data {
        return;
      }
      var e := data[key].(done := true, expires := UnixOf(expires));
      var res: Blob := if o.result.Some? then o.result.value else [];
      var out: Blob := if o.out.Some? then o.out.value else [];
      if |res| + |out| <= OUTCOME_CAP {
        e := e.(kept := true, result := o.result, out := o.out);
        if o.err.Some? {
          e := e.(err := o.err.value);
        }
      }
      data := data[key := e];
      disk := data;
    }

    method Remove(key: string)
      requires Valid()
      modifies this
      ensures Valid() && data == old(data) - {key}
    {
      if key !in data {
        return;
      }
      data := data - {key};
      disk := data;
    }

    method Interrupted() returns (open: Journal)
      ensures open == InterruptedIn(data)
      ensures forall k :: k in open <==> k in data && !data[k].done
      ensures forall k :: k in open ==> open[k] == data[k]
    {
      open := map[];
      var todo := data.Keys;
      while todo != {}
        invariant todo <= data.Keys
        invariant open == map k | k in data && k !in todo && !data[k].done :: data[k]
        decreases todo
      {
        var k :| k in todo;
        if !data[k].done {
          open := open[k := data[k]];
        }
        todo := todo - {k};
      }
    }

    /** The record that answers for one completed entry. */
    method Rebuilt(e: Entry) returns (rec: CallRecord)
      ensures fresh(rec) && rec.Value() == Reloaded(e)
      ensures rec.closed && rec.expires == Some(e.expires * 1_000_000_000)
      ensures rec.outcome.result == if e.kept && SizeOf(e.result) > 0 then e.result else None
      ensures rec.outcome.out == if e.kept && SizeOf(e.out) > 0 then e.out else None
      ensures rec.outcome.err == if !e.kept then Some("duplicate call: outcome not retained across a restart")
                                 else if e.err != "" then Some(e.err) else None
    {
      rec := new CallRecord();
      rec.closed := true;
      rec.expires := Some(e.expires * SECOND);
      if !e.kept {
        rec.outcome := rec.outcome.(err := Some(NOT_RETAINED));
      } else {
        if SizeOf(e.result) > 0 {
          rec.outcome := rec.outcome.(result := e.result);
        }
        if SizeOf(e.out) > 0 {
          rec.outcome := rec.outcome.(out := e.out);
        }
        if e.err != "" {
          rec.outcome := rec.outcome.(err := Some(e.err));
        }
      }
    }

    /** The rebuilt records are new objects, one per retained key. */
    method CompletedRecords(now: int) returns (records: map<string, CallRecord>)
      ensures fresh(records.Values)
      ensures forall k, l :: k in records && l in records && k != l ==> records[k] != records[l]
      ensures (map k | k in records :: records[k].Value()) == ReloadedRecords(data, now)
      ensures forall k :: k in records <==> k in data && data[k].done && now <= data[k].expires * 1_000_000_000
    {
      records := map[];
      var todo := data.Keys;
      while todo != {}
        invariant todo <= data.Keys
        invariant records.Keys == set k | k in data && k !in todo && data[k].done && !Lapsed(data[k], now)
        invariant forall k :: k in records ==> fresh(records[k]) && records[k].Value() == Reloaded(data[k])
        invariant forall k, l :: k in records && l in records && k != l ==> records[k] != records[l]
        decreases todo
      {
        var k :| k in todo;
        var e := data[k];
        todo := todo - {k};
        if e.done && now <= e.expires * SECOND {
          var rec := Rebuilt(e);
          records := records[k := rec];
        }
      }
    }

    method Gc(now: int)
      requires Valid()
      modifies this
      ensures Valid() && data == Collected(old(data), now)
      ensures forall k :: k in data <==>
                k in old(data) && (old(data)[k].done ==> now <= old(data)[k].expires * 1_000_000_000)
      ensures forall k :: k in data ==> data[k] == old(data)[k]
    {
      var dropped := false;
      var todo := data.Keys;
      ghost var was := data;
      while todo != {}
        invariant todo <= data.Keys <= was.Keys
        invariant data == map k | k in was && (k in todo || !Lapsed(was[k], now)) :: was[k]
        invariant disk == was
        invariant !dropped ==> data == was
        decreases todo
      {
        var k :| k in todo;
        todo := todo - {k};
        if data[k].done && now > data[k].expires * SECOND {
          data := data - {k};
          dropped := true;
        }
      }
      if dropped {
        disk := data;
      }
    }
  }
}
