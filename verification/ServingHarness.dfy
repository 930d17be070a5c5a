/** The serving harness (server/harness.go): claim table, rate limiter, charging and start-up reconciliation. */
module ServingHarness {
  import opened Wrappers
  import opened MapSums
  import opened CallJournal
  import opened ServerLedger
  import TokenBucket

  /** The claim table as values: what each key's record says. */
  type Claims = map<string, Rec>

  const UNCLAIMED := Rec(false, NILS, None)

  predicate Expired(r: Rec, now: int) {
    r.expires.Some? && now > r.expires.value
  }

  /** The table holds the key under a record in progress, or one whose expiry has not passed. */
  predicate Holds(c: Claims, key: string, now: int) {
    key in c && (c[key].expires.None? || now <= c[key].expires.value)
  }

  function Swept(c: Claims, now: int): Claims {
    map k | k in c && !Expired(c[k], now) :: c[k]
  }

  function Claimed(c: Claims, key: string, now: int): Claims {
    var s := Swept(c, now);
    if key in s then s else s[key := UNCLAIMED]
  }

  /** j without its open entries. */
  function Settled(j: Journal): Journal {
    map k | k in j && j[k].done :: j[k]
  }

  /** A refund of no atoms, or fewer, credits nothing. */
  function Refundable(e: Entry): int {
    if e.atoms > 0 then e.atoms else 0
  }

  ghost function Owed(j: Journal, uid: string): map<string, int> {
    map k | k in j && j[k].peer == uid :: Refundable(j[k])
  }

  /** What the open entries of j owe uid. */
  ghost function OwedTo(j: Journal, uid: string): int {
    Sum(Owed(j, uid))
  }

  lemma OwedToWithout(j: Journal, key: string, uid: string)
    requires key in j
    ensures OwedTo(j, uid) == OwedTo(j - {key}, uid)
                               + (if j[key].peer == uid && 0 < j[key].atoms then j[key].atoms else 0)
  {
    SumDrop(Owed(j, uid), key);
    assert Owed(j - {key}, uid) == Owed(j, uid) - {key};
  }

  /** was while the open entries in open are still to be refunded. */
  function StillThere(was: Journal, open: Journal): Journal {
    map k | k in was && (was[k].done || k in open) :: was[k]
  }

  lemma StillThereLaws(was: Journal, open: Journal)
    ensures open == InterruptedIn(was) ==> StillThere(was, open) == was
    ensures open == map[] ==> StillThere(was, open) == Settled(was)
  {
  }

  lemma OneLess(was: Journal, open: Journal, key: string)
    requires key in was && !was[key].done && key in open
    ensures StillThere(was, open - {key}) == StillThere(was, open) - {key}
  {
  }

  lemma NothingOwed()
    ensures forall uid :: OwedTo(map[], uid) == 0
  {
    forall uid ensures OwedTo(map[], uid) == 0 {
      assert Owed(map[], uid) == map[];
    }
  }

  /** Refunding everything in open on top of b gives each caller what refunding all on top of start would. */
  ghost predicate OnTheWay(start: Balances, all: Journal, b: Balances, open: Journal) {
    forall uid :: BalanceOf(b, uid) + OwedTo(open, uid) == BalanceOf(start, uid) + OwedTo(all, uid)
  }

  lemma RefundOne(start: Balances, all: Journal, b: Balances, open: Journal, key: string)
    requires OnTheWay(start, all, b, open) && key in open
    ensures OnTheWay(start, all, Credited(b, open[key].peer, open[key].atoms), open - {key})
  {
    var b' := Credited(b, open[key].peer, open[key].atoms);
    forall uid
      ensures BalanceOf(b', uid) + OwedTo(open - {key}, uid) == BalanceOf(start, uid) + OwedTo(all, uid)
    {
      OwedToWithout(open, key, uid);
    }
  }

  /** How the tool handler ends. */
  datatype Ended = Duplicate | RateLimited | NoPrice | Unpaid(shortfall: int) | Ran(outcome: Outcome)

  /** The key a call is claimed under; keys of unusual length are ignored. */
  function CallKeyOf(peer: string, callKey: string): Option<string> {
    if 8 <= |callKey| <= 128 then Some(peer + "|" + callKey) else None
  }

  lemma NoBarBefore(a: string, b: string, i: int)
    requires '|' !in a && 0 <= i < |a|
    ensures (a + "|" + b)[i] != '|'
  {
    assert (a + "|" + b)[i] == a[i];
  }

  /** Calls are claimed under one key exactly when peer and call key are the same; peer ids contain no bar. */
  lemma CallKeysApart(peer: string, callKey: string, peer': string, callKey': string)
    requires '|' !in peer && '|' !in peer'
    ensures CallKeyOf(peer, callKey).Some? <==> 8 <= |callKey| <= 128
    ensures CallKeyOf(peer, callKey).Some? && CallKeyOf(peer, callKey) == CallKeyOf(peer', callKey') ==>
              peer == peer' && callKey == callKey'
  {
    if CallKeyOf(peer, callKey).Some? && CallKeyOf(peer, callKey) == CallKeyOf(peer', callKey') {
      var key := peer + "|" + callKey;
      assert key == peer' + "|" + callKey';
      assert key[|peer|] == '|' && key[|peer'|] == '|';
      if |peer| < |peer'| {
        NoBarBefore(peer', callKey', |peer|);
      } else if |peer'| < |peer| {
        NoBarBefore(peer, callKey, |peer'|);
      } else {
        assert key[..|peer|] == peer && key[..|peer|] == peer';
        assert key[|peer| + 1..] == callKey && key[|peer| + 1..] == callKey';
      }
    }
  }

  /** What the restart refunds answered nobody. */
  lemma SettledReloads(j: Journal, now: int)
    ensures ReloadedRecords(Settled(j), now) == ReloadedRecords(j, now)
  {
  }

  class Harness {
    const limit: int
    const ledger: Ledger
    const journal: Journaling?
    var calls: map<string, CallRecord>
    var buckets: TokenBucket.Buckets

    ghost predicate Valid()
      reads this, ledger, journal
    {
      && 0 < limit
      && ledger.Valid()
      && (journal != null ==> journal.Valid())
    }

    ghost function View(): Claims
      reads this, calls.Values
    {
      map k | k in calls :: calls[k].Value()
    }

    constructor (callsPerMinute: int, ledger: Ledger, journal: Journaling?)
      requires ledger.Valid() && (journal != null ==> journal.Valid())
      ensures Valid() && calls == map[] && buckets == map[]
      ensures this.ledger == ledger && this.journal == journal
      ensures limit == if callsPerMinute <= 0 then 30 else callsPerMinute
    {
      limit := if callsPerMinute <= 0 then 30 else callsPerMinute;
      this.ledger, this.journal := ledger, journal;
      calls, buckets := map[], map[];
    }

    /** Forgets every record whose expiry has passed; a record in progress has none and stays. */
    method Sweep(now: int)
      modifies this`calls
      ensures calls == map k | k in old(calls) && !Expired(old(calls)[k].Value(), now) :: old(calls)[k]
      ensures forall k :: k in calls <==>
                k in old(calls) && !(old(calls)[k].expires.Some? && now > old(calls)[k].expires.value)
    {
      var todo := calls.Keys;
      while todo != {}
        invariant todo <= calls.Keys <= old(calls).Keys
        invariant calls == map k | k in old(calls)
                                   && (k in todo || !Expired(old(calls)[k].Value(), now)) :: old(calls)[k]
        decreases todo
      {
        var k :| k in todo;
        todo := todo - {k};
        if calls[k].expires.Some? && now > calls[k].expires.value {
          calls := calls - {k};
        }
      }
    }

    /** Registers key unless an unexpired record holds it. */
    method ClaimCall(key: string, now: int) returns (c: CallRecord, dup: bool)
      requires Valid()
      modifies this`calls, journal
      ensures Valid()
      ensures dup <==> key in old(calls) && !old(calls[key].expires.Some? && now > calls[key].expires.value)
      ensures forall k :: k != key ==>
                (k in calls <==> k in old(calls) && !(old(calls)[k].expires.Some? && now > old(calls)[k].expires.value))
      ensures !dup ==> c.Value() == Rec(false, NILS, None)
      ensures dup <==> key in Swept(old(View()), now)
      ensures forall k :: k != key ==> (k in calls <==> Holds(old(View()), k, now))
      ensures View() == Claimed(old(View()), key, now)
      ensures key in calls && calls[key] == c
      ensures forall k :: k in calls && (k != key || dup) ==> k in old(calls) && calls[k] == old(calls)[k]
      ensures !dup ==> fresh(c)
      ensures journal != null ==> journal.data == Collected(old(journal.data), now)
    {
      Sweep(now);
      if journal != null {
        journal.Gc(now);
      }
      assert View() == Swept(old(View()), now);
      if key in calls {
        c, dup := calls[key], true;
      } else {
        dup := false;
        c := NewClaim(key);
      }
    }

    method NewClaim(key: string) returns (c: CallRecord)
      modifies this`calls
      ensures fresh(c) && c.Value() == Rec(false, NILS, None)
      ensures calls == old(calls)[key := c] && View() == old(View())[key := UNCLAIMED]
    {
      ghost var view := View();
      c := new CallRecord();
      calls := calls[key := c];
      assert View() == view[key := UNCLAIMED];
    }

    /** Abandons a claim; whoever waits on it wakes up to three nils. */
    method ReleaseCall(key: string, c: CallRecord)
      requires Valid()
      modifies this`calls, c
      ensures Valid() && calls == old(calls) - {key}
      ensures c.Value() == old(c.Value()).(closed := true)
    {
      calls := calls - {key};
      c.closed := true;
    }

    method CompleteCall(key: string, c: CallRecord, o: Outcome, now: int)
      requires Valid()
      modifies c, journal
      ensures Valid()
      ensures c.Value() == Rec(true, o, Some(now + CALL_KEY_TTL))
      ensures journal != null ==> journal.data == CompleteIn(old(journal.data), key, o, now + CALL_KEY_TTL)
    {
      c.outcome := o;
      c.expires := Some(now + CALL_KEY_TTL);
      if journal != null {
        journal.Complete(key, o, now + CALL_KEY_TTL);
      }
      c.closed := true;
    }

    method TakeToken(peer: string, now: int) returns (ok: bool)
      requires Valid()
      modifies this`buckets
      ensures Valid()
      ensures ok <==> TokenBucket.Admits(old(buckets), TokenBucket.Attempt(peer, now), limit)
      ensures buckets.Keys == old(buckets).Keys + {peer} && buckets[peer].last == now
      ensures forall other :: other in old(buckets) && other != peer ==> buckets[other] == old(buckets)[other]
      ensures peer !in old(buckets) ==> ok && buckets[peer].tokens == limit as real - 1.0
      ensures buckets == TokenBucket.After(old(buckets), TokenBucket.Attempt(peer, now), limit)
    {
      var b := if peer in buckets then buckets[peer] else TokenBucket.Bucket(limit as real, now);
      var rate := limit as real / 60.0;
      var tokens := b.tokens + TokenBucket.Seconds(now - b.last) * rate;
      assert peer !in buckets ==> TokenBucket.Seconds(now - b.last) * rate == 0.0;
      if tokens > limit as real {
        tokens := limit as real;
      }
      assert tokens == TokenBucket.Refilled(buckets, peer, now, limit);
      if tokens < 1.0 {
        buckets := buckets[peer := TokenBucket.Bucket(tokens, now)];
        return false;
      }
      buckets := buckets[peer := TokenBucket.Bucket(tokens - 1.0, now)];
      ok := true;
    }

    /** Debits the price, or quotes what is missing; nothing else may touch the ledger in between here. */
    method Charge(peer: string, price: int) returns (shortfall: Option<int>)
      requires Valid() && 0 < price
      modifies ledger
      ensures Valid()
      ensures shortfall.None? <==> price <= BalanceOf(old(ledger.balances), peer)
      ensures shortfall.None? ==> Debited(old(ledger.balances), peer, price) == Some(ledger.balances)
      ensures shortfall.Some? ==> ledger.balances == old(ledger.balances) && 0 < shortfall.value <= price
      ensures shortfall.Some? ==> BalanceOf(ledger.balances, peer) + shortfall.value == price
    {
      var ok := ledger.Debit(peer, price);
      if ok {
        return None;
      }
      var balance := ledger.Balance(peer);
      shortfall := Some(price - balance);
    }

    /**
     * The handler of a priced tool when nothing runs beside it. A call whose key an unexpired record holds is a
     * duplicate and changes nothing. Any other is rate limited, or has no price, or is quoted what is missing, or runs,
     * in that order. The caller pays the price exactly when the handler ran without error. An executed keyed call
     * answers its duplicates until the expiry, a refused one leaves no claim, and a paid one is completed in the
     * journal.
     */
    method HandleCall(peer: string, callKey: string, price: Option<int>, out: Outcome, now: int) returns (ended: Ended)
      requires Valid() && out.result == None && (out.err.Some? ==> out.out == None)
      modifies this`calls, this`buckets, ledger, journal
      ensures Valid()
      ensures var key, admitted := peer + "|" + callKey, Admitted(old(buckets), peer, now);
              var balance := BalanceOf(old(ledger.balances), peer);
              if 8 <= |callKey| <= 128 && Holds(old(View()), key, now) then ended == Duplicate
              else if !admitted then ended == RateLimited
              else if price.None? then ended == NoPrice
              else if 0 < price.value && balance < price.value then ended == Unpaid(price.value - balance)
              else ended == Ran(out)
      ensures forall uid :: BalanceOf(ledger.balances, uid)
                         == BalanceOf(old(ledger.balances), uid)
                            - (if uid == peer && ended.Ran? && out.err.None? && price.value > 0 then price.value else 0)
      ensures buckets == if ended == Duplicate then old(buckets)
                         else TokenBucket.After(old(buckets), TokenBucket.Attempt(peer, now), limit)
      ensures var key, keyed := peer + "|" + callKey, 8 <= |callKey| <= 128;
              && (keyed && ended.Ran? ==>
                    key in calls && calls[key].Value() == Rec(true, out, Some(now + CALL_KEY_TTL)))
              && (keyed && !ended.Ran? && ended != Duplicate ==> key !in calls)
              && (keyed && ended == Duplicate ==> key in calls && calls[key] == old(calls)[key])
              && (!keyed ==> calls == old(calls))
              && forall k :: k != key ==>
                   (k in calls <==> k in old(calls) && (keyed ==> Holds(old(View()), k, now)))
                   && (k in calls ==> calls[k] == old(calls)[k])
      ensures journal != null ==>
                var key, j := peer + "|" + callKey, old(journal.data);
                if |callKey| < 8 || 128 < |callKey| then journal.data == j
                else if !ended.Ran? then journal.data == Collected(j, now)
                else if price.value <= 0 then
                  journal.data == CompleteIn(Collected(j, now), key, out, now + CALL_KEY_TTL)
                else
                  journal.data == CompleteIn(ChargedIn(Collected(j, now), key, peer, price.value), key, out,
                                             now + CALL_KEY_TTL)
    {
      var key := CallKeyOf(peer, callKey);
      if key.Some? {
        ended := HandleKeyed(key.value, peer, price, out, now);
      } else {
        ended := Serve(None, null, peer, price, out, now);
      }
    }

    /** The part of the handler behind a usable key. */
    method HandleKeyed(key: string, peer: string, price: Option<int>, out: Outcome, now: int) returns (ended: Ended)
      requires Valid() && out.result == None && (out.err.Some? ==> out.out == None)
      modifies this`calls, this`buckets, ledger, journal
      ensures Valid()
      ensures var balance := BalanceOf(old(ledger.balances), peer);
              if Holds(old(View()), key, now) then ended == Duplicate
              else if !Admitted(old(buckets), peer, now) then ended == RateLimited
              else if price.None? then ended == NoPrice
              else if 0 < price.value && balance < price.value then ended == Unpaid(price.value - balance)
              else ended == Ran(out)
      ensures forall uid :: BalanceOf(ledger.balances, uid)
                         == BalanceOf(old(ledger.balances), uid)
                            - (if uid == peer && ended.Ran? && out.err.None? && price.value > 0 then price.value else 0)
      ensures buckets == if ended == Duplicate then old(buckets)
                         else TokenBucket.After(old(buckets), TokenBucket.Attempt(peer, now), limit)
      ensures ended.Ran? ==> key in calls && calls[key].Value() == Rec(true, out, Some(now + CALL_KEY_TTL))
      ensures !ended.Ran? && ended != Duplicate ==> key !in calls
      ensures ended == Duplicate ==> key in calls && calls[key] == old(calls)[key]
      ensures forall k :: k != key ==>
                (k in calls <==> Holds(old(View()), k, now)) && (k in calls ==> calls[k] == old(calls)[k])
      ensures journal != null ==>
                var j := Collected(old(journal.data), now);
                if !ended.Ran? then journal.data == j
                else if price.value <= 0 then journal.data == CompleteIn(j, key, out, now + CALL_KEY_TTL)
                else journal.data == CompleteIn(ChargedIn(j, key, peer, price.value), key, out, now + CALL_KEY_TTL)
    {
      var rec, dup := ClaimCall(key, now);
      if dup {
        return Duplicate;
      }
      assert journal != null ==> journal.data == Collected(old(journal.data), now);
      ended := Serve(Some(key), rec, peer, price, out, now);
    }

    predicate Admitted(buckets: TokenBucket.Buckets, peer: string, now: int) {
      TokenBucket.Admits(buckets, TokenBucket.Attempt(peer, now), limit)
    }

    /** What the owner of a claim, or of a call without a key, does. */
    method Serve(key: Option<string>, rec: CallRecord?, peer: string, price: Option<int>, out: Outcome, now: int)
      returns (ended: Ended)
      requires Valid() && (rec != null <==> key.Some?)
           && (rec != null ==> key.value in calls && calls[key.value] == rec)
      modifies this`calls, this`buckets, ledger, journal, rec
      ensures Valid()
      ensures var balance := BalanceOf(old(ledger.balances), peer);
              if !Admitted(old(buckets), peer, now) then ended == RateLimited
              else if price.None? then ended == NoPrice
              else if 0 < price.value && balance < price.value then ended == Unpaid(price.value - balance)
              else ended == Ran(out)
      ensures forall uid :: BalanceOf(ledger.balances, uid)
                         == BalanceOf(old(ledger.balances), uid)
                            - (if uid == peer && ended.Ran? && out.err.None? && price.value > 0 then price.value else 0)
      ensures buckets == TokenBucket.After(old(buckets), TokenBucket.Attempt(peer, now), limit)
      ensures rec == null || ended.Ran? ==> calls == old(calls)
      ensures rec != null && ended.Ran? ==> rec.Value() == Rec(true, out, Some(now + CALL_KEY_TTL))
      ensures rec != null && !ended.Ran? ==>
                calls == old(calls) - {key.value} && rec.Value() == old(rec.Value()).(closed := true)
      ensures journal != null ==>
                var j := old(journal.data);
                if rec == null || !ended.Ran? then journal.data == j
                else if price.value <= 0 then journal.data == CompleteIn(j, key.value, out, now + CALL_KEY_TTL)
                else
                  journal.data == CompleteIn(ChargedIn(j, key.value, peer, price.value), key.value, out,
                                             now + CALL_KEY_TTL)
    {
      var admitted := TakeToken(peer, now);
      if !admitted || price.None? {
        if rec != null {
          ReleaseCall(key.value, rec);
        }
        return if !admitted then RateLimited else NoPrice;
      }
      if price.value > 0 {
        var shortfall := ChargeCall(key, peer, price.value);
        if shortfall.Some? {
          if rec != null {
            ReleaseCall(key.value, rec);
          }
          return Unpaid(shortfall.value);
        }
      }
      Conclude(key, rec, peer, price.value, out, now);
      ended := Ran(out);
    }

    /** Charges and, for a keyed call, journals the charge. */
    method ChargeCall(key: Option<string>, peer: string, price: int) returns (shortfall: Option<int>)
      requires Valid() && 0 < price
      modifies ledger, journal
      ensures Valid()
      ensures shortfall == if price <= BalanceOf(old(ledger.balances), peer) then None
                           else Some(price - BalanceOf(old(ledger.balances), peer))
      ensures forall uid :: BalanceOf(ledger.balances, uid)
                         == BalanceOf(old(ledger.balances), uid) - (if uid == peer && shortfall.None? then price else 0)
      ensures journal != null ==>
                journal.data == if shortfall.None? && key.Some?
                                then ChargedIn(old(journal.data), key.value, peer, price) else old(journal.data)
    {
      shortfall := Charge(peer, price);
      if shortfall.None? && key.Some? && journal != null {
        journal.Charged(key.value, peer, price);
      }
    }

    /** What follows the handler: a failed paid call is refunded, a claimed one is completed. */
    method Conclude(key: Option<string>, rec: CallRecord?, peer: string, price: int, out: Outcome, now: int)
      requires Valid() && (rec != null <==> key.Some?)
      modifies ledger, rec, journal
      ensures Valid()
      ensures ledger.balances == if out.err.Some? then Credited(old(ledger.balances), peer, price)
                                 else old(ledger.balances)
      ensures rec != null ==> rec.Value() == Rec(true, out, Some(now + CALL_KEY_TTL))
      ensures journal != null ==>
                journal.data == if rec == null then old(journal.data)
                                else CompleteIn(old(journal.data), key.value, out, now + CALL_KEY_TTL)
    {
      if out.err.Some? && price > 0 {
        ledger.Credit(peer, price);
      }
      if rec != null {
        CompleteCall(key.value, rec, out, now);
      }
    }

    /**
     * Start-up: every charge a crash interrupted goes back to its caller exactly once and leaves the
     * journal; completed outcomes become the claim table; lapsed entries go.
     */
    method OpenJournal(now: int)
      requires Valid() && journal != null && calls == map[]
      modifies this`calls, ledger, journal
      ensures Valid()
      ensures forall uid :: BalanceOf(ledger.balances, uid)
                              == BalanceOf(old(ledger.balances), uid) + OwedTo(InterruptedIn(old(journal.data)), uid)
      ensures InterruptedIn(journal.data) == map[]
      ensures journal.data == Collected(Settled(old(journal.data)), now)
      ensures View() == ReloadedRecords(old(journal.data), now)
      ensures forall k :: k in calls <==>
                var j := old(journal.data); k in j && j[k].done && now <= j[k].expires * 1_000_000_000
    {
      ghost var was := journal.data;
      Reconcile();
      assert InterruptedIn(journal.data) == map[];
      SettledReloads(was, now);
      Reload(now);
    }

    /** The records of completed calls become the claim table, and lapsed ones leave the journal. */
    method Reload(now: int)
      requires Valid() && journal != null
      modifies this`calls, journal
      ensures Valid() && journal.data == Collected(old(journal.data), now)
      ensures View() == ReloadedRecords(old(journal.data), now)
      ensures forall k :: k in calls <==>
                var j := old(journal.data); k in j && j[k].done && now <= j[k].expires * 1_000_000_000
    {
      calls := journal.CompletedRecords(now);
      assert View() == ReloadedRecords(journal.data, now);
      journal.Gc(now);
    }

    /** The refund loop of OpenJournal. */
    method Reconcile()
      requires Valid() && journal != null
      modifies ledger, journal
      ensures Valid()
      ensures forall uid :: BalanceOf(ledger.balances, uid)
                              == BalanceOf(old(ledger.balances), uid) + OwedTo(InterruptedIn(old(journal.data)), uid)
      ensures journal.data == Settled(old(journal.data))
    {
      ghost var was := journal.data;
      ghost var start := ledger.balances;
      var open := journal.Interrupted();
      ghost var all := open;
      StillThereLaws(was, open);
      while open != map[]
        invariant ledger.Valid() && journal.Valid()
        invariant forall k :: k in open ==> k in was && open[k] == was[k] && !was[k].done
        invariant journal.data == StillThere(was, open)
        invariant OnTheWay(start, all, ledger.balances, open)
        decreases open.Keys
      {
        var key :| key in open;
        RefundOne(start, all, ledger.balances, open, key);
        OneLess(was, open, key);
        ledger.Credit(open[key].peer, open[key].atoms);
        journal.Remove(key);
        open := open - {key};
      }
      NothingOwed();
      StillThereLaws(was, open);
    }
  }
}
