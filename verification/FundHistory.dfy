/** A provider's auto-funding policy and the history its monthly cap counts (directory/registrant.go). */
module FundHistory {
  /** One auto-funded listing payment; ts in Unix seconds. */
  datatype FundEntry = FundEntry(ts: int, directory: string, atoms: int)

  type History = seq<FundEntry>

  datatype AutoFund = AutoFund(enabled: bool, maxPerRequest: int, maxPerMonth: int, allowed: seq<string>)

  const MONTH := 30 * 86400

  function TotalSince(h: History, since: int): int {
    if h == [] then 0
    else TotalSince(h[..|h| - 1], since) + (if h[|h| - 1].ts >= since then h[|h| - 1].atoms else 0)
  }

  /** Each entry counts its atoms from its own second on. */
  lemma TotalGrows(h: History, e: FundEntry, since: int)
    ensures TotalSince([], since) == 0
    ensures TotalSince(h + [e], since) == TotalSince(h, since) + (if since <= e.ts then e.atoms else 0)
  {
    assert (h + [e])[..|h|] == h;
  }

  /** A cap that is not positive does not restrict. */
  predicate Allows(p: AutoFund, h: History, now: int, directory: string, atoms: int) {
    && p.enabled
    && (p.allowed == [] || directory in p.allowed)
    && (p.maxPerRequest > 0 ==> atoms <= p.maxPerRequest)
    && (p.maxPerMonth > 0 ==> TotalSince(h, now - MONTH) + atoms <= p.maxPerMonth)
  }

  /** What the rail was asked to pay, in order. */
  datatype Order = Order(directory: string, atoms: int)

  class Registrant {
    const policy: AutoFund
    var entries: History
    var disk: History
    var orders: seq<Order>

    ghost predicate Valid()
      reads this
    {
      disk == entries
    }

    constructor (policy: AutoFund, stored: History)
      ensures Valid() && this.policy == policy && entries == stored && orders == []
    {
      this.policy := policy;
      entries, disk, orders := stored, stored, [];
    }

    method Total(since: int) returns (total: int)
      ensures total == TotalSince(entries, since)
    {
      total := 0;
      for i := 0 to |entries|
        invariant total == TotalSince(entries[..i], since)
      {
        assert entries[..i + 1][..i] == entries[..i];
        if entries[i].ts >= since {
          total := total + entries[i].atoms;
        }
      }
      assert entries[..|entries|] == entries;
    }

    method Record(e: FundEntry)
      modifies this
      ensures Valid() && entries == old(entries) + [e] && orders == old(orders)
    {
      entries := entries + [e];
      disk := entries;
    }

    method AllowFund(now: int, directory: string, atoms: int) returns (ok: bool)
      ensures ok <==>
              && policy.enabled
              && (policy.allowed == [] || exists i :: 0 <= i < |policy.allowed| && policy.allowed[i] == directory)
              && (policy.maxPerRequest <= 0 || atoms <= policy.maxPerRequest)
              && (policy.maxPerMonth <= 0
                  || TotalSince(entries, now - 2_592_000) + atoms <= policy.maxPerMonth)
      ensures ok == Allows(policy, entries, now, directory, atoms)
    {
      if !policy.enabled {
        return false;
      }
      if |policy.allowed| > 0 {
        var allowed := false;
        for i := 0 to |policy.allowed|
          invariant !allowed && directory !in policy.allowed[..i]
        {
          if policy.allowed[i] == directory {
            allowed := true;
            break;
          }
        }
        if !allowed {
          return false;
        }
      }
      if policy.maxPerRequest > 0 && atoms > policy.maxPerRequest {
        return false;
      }
      if policy.maxPerMonth > 0 {
        var spent := Total(now - MONTH);
        if spent + atoms > policy.maxPerMonth {
          return false;
        }
      }
      ok := true;
    }

    /** The funding part of Register when nothing overlaps it: the entry is written before the rail is asked. */
    method FundListing(now: int, directory: string, shortfall: int) returns (ok: bool)
      requires Valid()
      modifies this
      ensures Valid()
      ensures shortfall <= 0 ==> ok
      ensures shortfall > 0 ==>
                (ok <==>
                 && policy.enabled
                 && (policy.allowed == [] || directory in policy.allowed)
                 && (policy.maxPerRequest <= 0 || shortfall <= policy.maxPerRequest)
                 && (policy.maxPerMonth <= 0
                     || TotalSince(old(entries), now - 2_592_000) + shortfall <= policy.maxPerMonth))
      ensures ok && shortfall > 0 ==>
                && entries == old(entries) + [FundEntry(now, directory, shortfall)]
                && orders == old(orders) + [Order(directory, shortfall)]
      ensures !(ok && shortfall > 0) ==> entries == old(entries) && orders == old(orders)
    {
      ok := true;
      if shortfall > 0 {
        ok := AllowFund(now, directory, shortfall);
        if !ok {
          return;
        }
        Record(FundEntry(now, directory, shortfall));
        orders := orders + [Order(directory, shortfall)];
      }
    }
  }
}
