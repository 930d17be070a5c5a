/**
 * The persisted index and the directory engine that changes it (directory/store.go, pipeline.go, service.go, admin.go).
 */
module Directory {
  import opened Wrappers
  import opened DirectoryEntry
  import opened ServerLedger

  /** jsonStore: a map under a lock, written out after every change; an absent key reads as the zero value. */
  class Store<V> {
    const zero: V
    var m: map<string, V>
    var disk: map<string, V>

    ghost predicate Valid()
      reads this
    {
      disk == m
    }

    ghost function At(k: string): V
      reads this
    {
      if k in m then m[k] else zero
    }

    constructor (zero: V, stored: map<string, V>)
      ensures Valid() && this.zero == zero && m == stored
    {
      this.zero := zero;
      m, disk := stored, stored;
    }

    method Get(k: string) returns (v: V, found: bool)
      ensures found == (k in m) && v == At(k)
    {
      found := k in m;
      v := if found then m[k] else zero;
    }

    method Put(k: string, v: V)
      modifies this
      ensures Valid() && m == old(m)[k := v]
    {
      m := m[k := v];
      disk := m;
    }

    /** Nothing is stored or written when f declines. */
    method Mutate(k: string, f: V -> Option<V>) returns (ok: bool)
      requires Valid()
      modifies this
      ensures Valid() && ok == f(old(At(k))).Some?
      ensures m == if ok then old(m)[k := f(old(At(k))).value] else old(m)
    {
      var v, _ := Get(k);
      match f(v) {
        case None => ok := false;
        case Some(changed) =>
          Put(k, changed);
          ok := true;
      }
    }

    method Delete(k: string)
      requires Valid()
      modifies this
      ensures Valid() && m == old(m) - {k}
    {
      if k !in m {
        return;
      }
      m := m - {k};
      disk := m;
    }
  }

  /** All entries but that of uid are the same in both maps. */
  ghost predicate OnlyAt(uid: string, before: map<string, Entry>, after: map<string, Entry>) {
    forall other :: other != uid ==>
      (other in after <==> other in before) && (other in before ==> after[other] == before[other])
  }

  /** The registration of e becomes the listing of e'; a listing before it passes on the date it was approved on. */
  ghost predicate Lists(e: Entry, e': Entry, now: int, days: int) {
    && e.reg.Some? && e'.reg.None? && e'.flag == "" && e'.live.Some?
    && var l := e'.live.value;
       && l.origin == e.reg.value.id && l.terms == e.reg.value.terms && l.checkedAt == l.verifiedAt == now
       && l.approvedAt == (if e.live.Some? then e.live.value.approvedAt else now) && l.expiresAt == now + days * 86_400
  }

  class Service {
    const policy: Policy
    const index: Store<Entry>
    const ledger: Ledger
    var inflight: set<string>
    var closed: bool
    /** Whether Start has set up the router. */
    var routed: bool
    /** How many registrations there were. */
    var issued: nat

    ghost predicate Valid()
      reads this, index, ledger
    {
      Sensible(policy) && index.Valid() && index.zero == EMPTY && ledger.Valid()
    }

    constructor (policy: Policy, stored: map<string, Entry>, balances: Balances, issued: nat)
      requires Solvent(balances)
      ensures Valid() && fresh(index) && fresh(ledger) && this.policy == WithDefaults(policy)
      ensures index.m == stored && ledger.balances == balances
      ensures inflight == {} && !closed && !routed && this.issued == issued
    {
      this.policy := WithDefaults(policy);
      index := new Store(EMPTY, stored);
      ledger := new Ledger(balances);
      inflight, closed, routed, this.issued := {}, false, false, issued;
    }

    /** The registering part of handleRegister; validation precedes it. */
    method Register(uid: string, terms: Terms) returns (busy: bool)
      requires Valid() && 0 < terms.budget <= policy.budgetMax
      modifies this`issued, index
      ensures Valid() && issued == old(issued) + 1
      ensures var e := old(index.At(uid));
              busy <==> e.reg.Some? && (e.reg.value.phase == Crawling || e.reg.value.phase == Testing)
      ensures busy ==> index.At(uid) == old(index.At(uid))
      ensures !busy ==>
                var e, e' := old(index.At(uid)), index.At(uid);
                && e'.live == e.live && e'.flag == e.flag && e'.reg.Some?
                && var r := e'.reg.value;
                   && r.id == old(issued) && r.phase == Awaiting && r.terms == terms && r.fee == policy.fee
                   && r.key == "" && r.paid == 0 && r.outcome == Untested
                   && (r.renewal <==> e.live.Some?)
      ensures index.At(uid) == Registered(old(index.At(uid)), old(issued), terms, policy.fee)
      ensures OnlyAt(uid, old(index.m), index.m)
    {
      var e, _ := index.Get(uid);
      busy := e.reg.Some? && (e.reg.value.phase == Crawling || e.reg.value.phase == Testing);
      var id := issued;
      issued := issued + 1;
      if !busy {
        e := e.(reg := Some(Reg(id, Awaiting, terms, policy.fee, "", 0, e.live.Some?, Untested)));
      }
      index.Put(uid, e);
    }

    /** The fee leaves the balance exactly when the registration moves on; nothing else changes otherwise. */
    method PokeFunding(uid: string) returns (start: bool)
      requires Valid()
      modifies index, ledger
      ensures Valid()
      ensures var e, b := old(index.At(uid)), old(BalanceOf(ledger.balances, uid));
              start <==>
              && e.reg.Some? && e.reg.value.phase == Awaiting
              && e.reg.value.fee + e.reg.value.terms.budget <= b && (0 < e.reg.value.fee ==> e.reg.value.fee <= b)
      ensures start ==> Fundable(old(index.At(uid)), old(BalanceOf(ledger.balances, uid)))
      ensures start ==>
                var e, e' := old(index.At(uid)), index.At(uid);
                && e' == e.(reg := Some(e.reg.value.(phase := Crawling))) && e' == Moved(e)
                && forall other :: BalanceOf(ledger.balances, other)
                                == BalanceOf(old(ledger.balances), other)
                                 - (if other == uid && 0 < e.reg.value.fee then e.reg.value.fee else 0)
      ensures !start ==> index.m == old(index.m) && ledger.balances == old(ledger.balances)
      ensures OnlyAt(uid, old(index.m), index.m)
    {
      var e, _ := index.Get(uid);
      if e.reg.None? || e.reg.value.phase != Awaiting {
        return false;
      }
      var required := e.reg.value.fee + e.reg.value.terms.budget;
      var balance := ledger.Balance(uid);
      if balance < required {
        return false;
      }
      var paid := ledger.Debit(uid, e.reg.value.fee);
      if !paid {
        return false;
      }
      index.Put(uid, e.(reg := Some(e.reg.value.(phase := Crawling))));
      start := true;
    }

    /** A pipeline for uid is started unless one is running, the service is closed or not started. */
    method Spawn(uid: string) returns (started: bool)
      modifies this`inflight
      ensures started <==> !closed && routed && uid !in old(inflight)
      ensures inflight == if started then old(inflight) + {uid} else old(inflight)
    {
      if closed || uid in inflight || !routed {
        return false;
      }
      inflight := inflight + {uid};
      started := true;
    }

    /** What a pipeline that was started does last. */
    method PipelineEnds(uid: string)
      modifies this`inflight
      ensures inflight == old(inflight) - {uid}
    {
      inflight := inflight - {uid};
    }

    method Park(uid: string)
      requires Valid()
      modifies index
      ensures Valid() && OnlyAt(uid, old(index.m), index.m)
      ensures var e := old(index.At(uid));
              index.At(uid) == if e.reg.None? then e
                               else e.(reg := Some(e.reg.value.(phase := Pending, outcome := Failed)))
    {
      var _ := index.Mutate(uid, (e: Entry) => Parked(e));
    }

    /**
     * runPipeline when nothing runs beside it. A failed crawl or test parks the registration; a test interrupted by a
     * shutdown leaves it to be resumed with its call key; a passed renewal is listed, keeping the date the listing was
     * approved on; anything else passed awaits review.
     */
    method RunPipeline(uid: string, crawled: bool, newKey: string, paidNow: nat, passed: bool, cancelled: bool,
                       now: int)
      requires Valid() && newKey != ""
      modifies index
      ensures Valid() && OnlyAt(uid, old(index.m), index.m)
      ensures var e, e' := old(index.At(uid)), index.At(uid);
              && (e.reg.None? || e.reg.value.phase == Awaiting || e.reg.value.phase == Pending ==> e' == e)
              && (e.reg.Some? && e.reg.value.phase == Crawling && !crawled ==>
                    e' == if cancelled then e
                          else e.(reg := Some(e.reg.value.(phase := Pending, outcome := Failed))))
              && (e.reg.Some? && (e.reg.value.phase == Testing || (e.reg.value.phase == Crawling && crawled)) ==>
                    var key := if e.reg.value.phase == Testing || e.reg.value.key != "" then e.reg.value.key
                               else newKey;
                    var r := e.reg.value.(phase := Testing, key := key);
                    && (!passed && cancelled ==> e' == e.(reg := Some(r)))
                    && (!passed && !cancelled ==>
                          e' == e.(reg := Some(r.(phase := Pending, paid := r.paid + paidNow, outcome := Failed))))
                    && (passed && !r.renewal ==>
                          e' == e.(reg := Some(r.(phase := Pending, paid := r.paid + paidNow, outcome := Passed))))
                    && (passed && r.renewal ==> Lists(e.(reg := Some(r)), e', now, policy.expiryDays)))
    {
      var e, found := index.Get(uid);
      if !found || e.reg.None? {
        return;
      }
      if e.reg.value.phase == Crawling {
        if !crawled {
          if !cancelled {
            Park(uid);
          }
          return;
        }
        var callKey := e.reg.value.key;
        if callKey == "" {
          callKey := newKey;
        }
        var stored := index.Mutate(uid, (e: Entry) => Crawled(e, callKey));
        if !stored {
          return;
        }
      }
      e, found := index.Get(uid);
      if !found || e.reg.None? || e.reg.value.phase != Testing {
        return;
      }
      if !passed && cancelled {
        return;
      }
      var total := e.reg.value.paid + paidNow;
      var _ := index.Mutate(uid, (e: Entry) => Judged(e, total, passed));
      if passed && e.reg.value.renewal {
        var _ := Promote(uid, now);
      }
    }

    method Promote(uid: string, now: int) returns (ok: bool)
      requires Valid()
      modifies index
      ensures Valid() && ok == Promoted(old(index.At(uid)), now, policy.expiryDays).Some?
      ensures ok <==> old(index.At(uid)).reg.Some? && old(index.At(uid)).reg.value.outcome == Passed
      ensures ok ==> Lists(old(index.At(uid)), index.At(uid), now, policy.expiryDays)
      ensures index.At(uid) == if ok then Promoted(old(index.At(uid)), now, policy.expiryDays).value
                               else old(index.At(uid))
      ensures OnlyAt(uid, old(index.m), index.m)
    {
      var days := policy.expiryDays;
      ok := index.Mutate(uid, (e: Entry) => Promoted(e, now, days));
    }

    /** Approving when nothing comes between its two sections: only a parked registration that passed goes live. */
    method Approve(uid: string, now: int) returns (ok: bool)
      requires Valid()
      modifies index
      ensures Valid()
      ensures var e := old(index.At(uid));
              && ok == (e.reg.Some? && e.reg.value.phase == Pending && e.reg.value.outcome == Passed)
              && (ok ==> Lists(e, index.At(uid), now, policy.expiryDays))
              && (!ok ==> index.At(uid) == e)
      ensures OnlyAt(uid, old(index.m), index.m)
    {
      var e, found := index.Get(uid);
      if !found || e.reg.None? || e.reg.value.phase != Pending {
        return false;
      }
      ok := Promote(uid, now);
    }

    method Reject(uid: string, reason: string) returns (ok: bool)
      requires Valid()
      modifies index
      ensures Valid() && ok == old(index.At(uid)).reg.Some?
      ensures index.At(uid) == if !ok then old(index.At(uid))
                               else if reason == "" then old(index.At(uid)).(reg := None)
                               else old(index.At(uid)).(reg := None, flag := reason)
      ensures OnlyAt(uid, old(index.m), index.m)
    {
      ok := index.Mutate(uid, (e: Entry) => Rejected(e, reason));
    }

    method SpotCheck(uid: string, key: string) returns (ok: bool)
      requires Valid() && key != ""
      modifies this`issued, index
      ensures Valid() && issued == old(issued) + 1
      ensures var e := old(index.At(uid));
              && ok == (e.live.Some? && e.reg.None? && e.live.value.terms.budget <= BalanceOf(ledger.balances, uid))
              && index.At(uid) == if !ok then e
                                  else e.(reg := Some(Reg(old(issued), Testing, e.live.value.terms, 0, key, 0, true,
                                                          Untested)))
      ensures OnlyAt(uid, old(index.m), index.m)
    {
      var balance := ledger.Balance(uid);
      var id := issued;
      issued := issued + 1;
      ok := index.Mutate(uid, (e: Entry) => SpotChecked(e, id, key, balance));
    }

    /**
     * Expiry when nothing comes between its two sections: a lapsed listing goes, with its entry unless a registration
     * remains.
     */
    method Expire(uid: string, now: int)
      requires Valid()
      modifies index
      ensures Valid()
      ensures var e := old(index.At(uid));
              index.At(uid) == if e.live.None? || now < e.live.value.expiresAt then e
                               else if e.reg.None? then Entry(None, None, "")
                               else e.(live := None)
      ensures OnlyAt(uid, old(index.m), index.m)
    {
      var e, found := index.Get(uid);
      if !found || e.live.None? || e.live.value.expiresAt > now {
        return;
      }
      if e.reg.None? {
        index.Delete(uid);
      } else {
        var _ := index.Mutate(uid, (e: Entry) => if Lapsed(e, now) then Some(e.(live := None)) else None);
      }
    }

    /** A tip that completes the funding of the sender's registration moves it on and takes the fee. */
    method CreditTip(uid: string, atoms: int) returns (start: bool)
      requires Valid()
      modifies index, ledger
      ensures Valid() && OnlyAt(uid, old(index.m), index.m)
      ensures atoms <= 0 ==> !start
      ensures atoms > 0 ==>
                var e, b := old(index.At(uid)), old(BalanceOf(ledger.balances, uid)) + atoms;
                start <==>
                && e.reg.Some? && e.reg.value.phase == Awaiting
                && e.reg.value.fee + e.reg.value.terms.budget <= b && (0 < e.reg.value.fee ==> e.reg.value.fee <= b)
      ensures start ==>
                index.At(uid) == old(index.At(uid)).(reg := Some(old(index.At(uid)).reg.value.(phase := Crawling)))
      ensures !start ==> index.m == old(index.m)
      ensures var e := old(index.At(uid));
              forall other :: BalanceOf(ledger.balances, other)
                           == BalanceOf(old(ledger.balances), other)
                            + (if other == uid && 0 < atoms then atoms else 0)
                            - (if other == uid && start && 0 < e.reg.value.fee then e.reg.value.fee else 0)
    {
      if atoms <= 0 {
        return false;
      }
      ledger.Credit(uid, atoms);
      start := PokeFunding(uid);
    }
  }
}
