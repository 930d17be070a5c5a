/**
 * One payment under the caps, end to end (settle in bridge/payment.go), when no other payment overlaps it. The clock
 * is read three times; what the user and the rail decide are parameters.
 */
module Settlement {
  import opened Wrappers
  import opened Search
  import opened SpendLog
  import D = Decimal

  /** The caps, and whether each payment waits for the user's approval. */
  datatype Settings = Settings(perCall: int, perDay: int, approval: bool)

  /** What paying came to before the wait was over: confirmed, failed for good, or not known yet. */
  datatype Rail = Confirmed | Rejected(err: string) | Unknown(err: string)

  /** The clock at the cap check, at the entry and at its outcome. */
  datatype Clock = Clock(checked: int, entered: int, marked: int)

  function OverCall(amount: int, cap: int): string {
    D.Print(amount) + " atoms exceeds the per-call cap (" + D.Print(cap) + ")"
  }

  function OverDay(amount: int, spent: int, cap: int): string {
    D.Print(amount) + " atoms would exceed the daily cap (" + D.Print(spent) + " spent of " + D.Print(cap) + ")"
  }

  function Later(a: int, b: int): int {
    if a < b then b else a
  }

  /**
   * The log gained e at its end. It lost at most some of its oldest entries, none of them pending and none that counts
   * since a day before now, and none at all up to a thousand.
   */
  ghost predicate Gained(before: Log, after: Log, e: Entry, now: int) {
    var lost := |before| + 1 - |after|;
    && 0 <= lost <= |before| && after == before[lost..] + [e] && (lost > 0 ==> |after| >= 1000)
    && forall i :: 0 <= i < lost ==> !Held(before[i], now - 86_400)
  }

  /** Such a log's total for the last day has grown by what the new entry counts, now and later. */
  lemma GainedSpends(before: Log, after: Log, e: Entry, now: int, cut: int)
    requires Gained(before, after, e, now) && now - 86_400 <= cut
    ensures SpentSince(after, cut)
         == SpentSince(before, cut)
          + (if cut <= e.ts && (e.status == Pending || e.status == Paid || e.status == Legacy) then e.atoms else 0)
  {
    var lost := |before| + 1 - |after|;
    SpentOne(e, cut);
    SpentAppend(before[lost..], [e], cut);
    LostIsSpent(before, lost, now, cut);
  }

  lemma LostIsSpent(before: Log, lost: nat, now: int, cut: int)
    requires lost <= |before| && now - 86_400 <= cut && forall i :: 0 <= i < lost ==> !Held(before[i], now - 86_400)
    ensures SpentSince(before[lost..], cut) == SpentSince(before, cut)
  {
    assert before == before[..lost] + before[lost..];
    SpentAppend(before[..lost], before[lost..], cut);
    forall i | 0 <= i < lost ensures !MustStay(before[i], now - DAY) {
      assert !Held(before[i], now - 86_400);
    }
    UnprotectedIsSpent(before[..lost], now - DAY, cut);
  }

  lemma PrunedGained(before: Log, e: Entry, now: int)
    ensures Gained(before, Pruned(before + [e], now), e, now)
  {
    var log, n := before + [e], Dropped(before + [e], now);
    PruneIsTransparent(log, now);
    assert log[n..] == before[n..] + [e];
    assert forall i :: 0 <= i < n ==> log[i] == before[i];
  }

  /** Judging the new entry and pruning again keeps its place at the end. */
  lemma JudgedGained(before: Log, after: Log, e: Entry, now: int, status: Status, err: string, later: int)
    requires Gained(before, after, e, now) && e.num != 0 && forall i :: 0 <= i < |before| ==> before[i].num < e.num
    ensures First(after, Numbered(e.num)) == |after| - 1
    ensures Gained(before, Pruned(Marked(after, e.num, status, err), later), e.(status := status, err := err),
                   Later(now, later))
  {
    var lost, f := |before| + 1 - |after|, e.(status := status, err := err);
    assert forall i :: 0 <= i < |after| - 1 ==> after[i] == before[lost + i];
    FirstIs(after, Numbered(e.num), |after|, |after| - 1);
    MarkedIs(after, e.num, status, err, |after| - 1);
    assert Marked(after, e.num, status, err) == before[lost..] + [f];
    PrunedGained(before[lost..], f, later);
    GainedTwice(before, lost, Pruned(before[lost..] + [f], later), f, now, later);
  }

  lemma GainedTwice(before: Log, lost: nat, after: Log, f: Entry, now: int, later: int)
    requires lost <= |before| && Gained(before[lost..], after, f, later) && (lost > 0 ==> |before| + 1 - lost >= 1000)
    requires forall i :: 0 <= i < lost ==> !Held(before[i], now - 86_400)
    ensures Gained(before, after, f, Later(now, later))
  {
    var more := |before| - lost + 1 - |after|;
    assert before[lost..][more..] == before[lost + more..];
    forall i | lost <= i < lost + more ensures !Held(before[i], later - 86_400) {
      assert before[i] == before[lost..][i - lost];
    }
  }

  /**
   * The shortfall is due, or the price when none is stated. Nothing due is an error, and nothing is noted. Above the
   * cap per call, or above what the last day leaves of the daily cap, or declined by the user, the payment is refused
   * and noted. Otherwise it goes to the rail, and its entry is paid, failed with the error, or pending, as that tells.
   */
  method Settle(book: SpendBook, s: Settings, c: Clock, bot: string, tool: string, price: int, shortfall: int,
                denial: Option<string>, rail: Rail) returns (err: Option<string>)
    requires book.Valid()
    modifies book
    ensures book.Valid()
    ensures var amount := if shortfall > 0 then shortfall else price;
            var spent := SpentSince(old(book.spend), c.checked - 86_400);
            var reason := if s.perCall <= 0 || amount > s.perCall then Some(OverCall(amount, s.perCall))
                          else if s.perDay <= 0 || spent + amount > s.perDay then
                            Some(OverDay(amount, spent, s.perDay))
                          else if s.approval then denial
                          else None;
            if amount <= 0 then
              && err == Some("bot requested a nonpositive amount")
              && book.spend == old(book.spend) && book.spendSeq == old(book.spendSeq)
            else
              && book.spendSeq == old(book.spendSeq) + 1
              && err == (if reason.Some? then reason else match rail
                         case Confirmed => None
                         case Rejected(e) => Some(e)
                         case Unknown(e) => Some(e))
              && var now := if reason.Some? || rail.Unknown? then c.entered else Later(c.entered, c.marked);
                 var status := if reason.Some? then Refused else match rail
                                 case Confirmed => Paid
                                 case Rejected(_) => Failed
                                 case Unknown(_) => Pending;
                 var text := if reason.Some? then reason.value else if rail.Rejected? then rail.err else "";
                 Gained(old(book.spend), book.spend,
                        Entry(c.entered, bot, tool, "tip", amount, status, text, book.spendSeq), now)
  {
    var amount := shortfall;
    if amount <= 0 {
      amount := price;
    }
    if amount <= 0 {
      return Some("bot requested a nonpositive amount");
    }
    var reason := Objection(book, s, c.checked, amount, denial);
    if reason.Some? {
      err := Note(book, c.entered, bot, tool, amount, reason.value);
    } else {
      err := Launch(book, c, bot, tool, amount, rail);
    }
  }

  /** Why a payment may not go to the rail: the caps bind in both modes, and approval cannot override them. */
  method Objection(book: SpendBook, s: Settings, now: int, amount: int, denial: Option<string>)
    returns (reason: Option<string>)
    ensures var spent := SpentSince(book.spend, now - 86_400);
            reason == if s.perCall <= 0 || amount > s.perCall then Some(OverCall(amount, s.perCall))
                      else if s.perDay <= 0 || spent + amount > s.perDay then Some(OverDay(amount, spent, s.perDay))
                      else if s.approval then denial
                      else None
  {
    var spent := book.SpentAfter(now - DAY);
    if s.perCall <= 0 || amount > s.perCall {
      return Some(OverCall(amount, s.perCall));
    }
    if s.perDay <= 0 || spent + amount > s.perDay {
      return Some(OverDay(amount, spent, s.perDay));
    }
    reason := if s.approval then denial else None;
  }

  /** The spend counts from launch. What the rail does not tell in time leaves it pending. */
  method Launch(book: SpendBook, c: Clock, bot: string, tool: string, amount: int, rail: Rail)
    returns (err: Option<string>)
    requires book.Valid()
    modifies book
    ensures book.Valid() && book.spendSeq == old(book.spendSeq) + 1
    ensures err == match rail case Confirmed => None case Rejected(e) => Some(e) case Unknown(e) => Some(e)
    ensures var now := if rail.Unknown? then c.entered else Later(c.entered, c.marked);
            var status := match rail case Confirmed => Paid case Rejected(_) => Failed case Unknown(_) => Pending;
            var text := if rail.Rejected? then rail.err else "";
            Gained(old(book.spend), book.spend,
                   Entry(c.entered, bot, tool, "tip", amount, status, text, book.spendSeq), now)
  {
    ghost var before := book.spend;
    var num := book.RecordSpend(c.entered, bot, tool, "tip", amount);
    ghost var e := Entry(c.entered, bot, tool, "tip", amount, Pending, "", num);
    PrunedGained(before, e, c.entered);
    match rail {
      case Confirmed =>
        JudgedGained(before, book.spend, e, c.entered, Paid, "", c.marked);
        book.MarkSpend(num, Paid, "", c.marked);
        err := None;
      case Rejected(reason) =>
        JudgedGained(before, book.spend, e, c.entered, Failed, reason, c.marked);
        book.MarkSpend(num, Failed, reason, c.marked);
        err := Some(reason);
      case Unknown(reason) =>
        err := Some(reason);
    }
  }

  /** The attempt is noted, and the agent hears the reason. */
  method Note(book: SpendBook, now: int, bot: string, tool: string, amount: int, reason: string)
    returns (err: Option<string>)
    requires book.Valid()
    modifies book
    ensures book.Valid() && err == Some(reason) && book.spendSeq == old(book.spendSeq) + 1
    ensures Gained(old(book.spend), book.spend,
                   Entry(now, bot, tool, "tip", amount, Refused, reason, book.spendSeq), now)
  {
    book.Refuse(now, bot, tool, amount, reason);
    PrunedGained(old(book.spend), Entry(now, bot, tool, "tip", amount, Refused, reason, book.spendSeq), now);
    err := Some(reason);
  }
}
