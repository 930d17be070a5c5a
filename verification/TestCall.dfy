/** One paid call of the directory to a provider (paidCall and runTest in directory/client.go). */
module TestCall {
  import opened Wrappers
  import opened ServerLedger
  import SJ = SpendJournal
  import P = Passthrough

  /** How one attempt to pay ends: confirmed, failed before the deadline, or past the deadline with an error. */
  datatype Payout = Confirmed | Refused | Unknown

  datatype Environment = Environment(
    dials: nat -> bool,
    reply: nat -> Option<P.Reply>,   // None is a transport error
    cancelled: bool,
    payout: Payout,
    waits: nat -> bool)

  datatype Answer =
    | Result | DialFailed | TransportError | Cancelled | StillUnpaid | NoAmount | OverBudget | NoEscrow | PaymentError

  const POLLS := 6

  /** What one call did with the money: nothing, or one payment handed to the rail. */
  datatype Money = NoPayment | Handed(atoms: int, payout: Payout)

  /** What the escrow keeps of a payment: everything unless the rail failed definitively. */
  function Kept(m: Money): int {
    if m.Handed? && !m.payout.Refused? then m.atoms else 0
  }

  /** With escrow the balance of uid, and no other, is down by what is kept. */
  ghost predicate Escrowed(before: Balances, after: Balances, uid: string, escrow: bool, m: Money) {
    forall other :: BalanceOf(after, other)
        == BalanceOf(before, other) - (if escrow && other == uid then Kept(m) else 0)
  }

  /** The journal shows every payment except a definitive failure. */
  function Journaled(entries: seq<SJ.Payment>, now: int, uid: string, tool: string, m: Money): seq<SJ.Payment> {
    entries + (if Kept(m) > 0 then [SJ.Payment(now, uid, tool, m.atoms)] else [])
  }

  /** Debits the escrow, journals the payment and hands it to the rail; takes both back on a definitive failure. */
  method Pay(ledger: Ledger, spend: SJ.Journal, uid: string, tool: string, amount: int, escrow: bool, now: int,
             payout: Payout)
    returns (money: Money)
    requires ledger.Valid() && spend.Valid() && amount > 0
    modifies ledger, spend
    ensures ledger.Valid() && spend.Valid()
    ensures money == if escrow && BalanceOf(old(ledger.balances), uid) < amount then NoPayment
         else Handed(amount, payout)
    ensures Escrowed(old(ledger.balances), ledger.balances, uid, escrow, money)
    ensures spend.entries == Journaled(old(spend.entries), now, uid, tool, money)
    ensures var away := money != NoPayment && !payout.Refused?;
            && (forall other :: BalanceOf(ledger.balances, other)
                             == BalanceOf(old(ledger.balances), other)
                              - (if away && escrow && other == uid then amount else 0))
            && spend.entries == old(spend.entries) + (if away then [SJ.Payment(now, uid, tool, amount)] else [])
    ensures money == NoPayment ==> ledger.balances == old(ledger.balances)
  {
    if escrow {
      var covered := ledger.Debit(uid, amount);
      if !covered {
        return NoPayment;
      }
    }
    var token := spend.Record(SJ.Payment(now, uid, tool, amount));
    if payout == Refused {
      spend.Remove(token);
      if escrow {
        ledger.Credit(uid, amount);
      }
    }
    money := Handed(amount, payout);
  }

  /** A quote is paid when it names an amount within maxAtoms which the escrow, if there is one, covers. */
  method PayQuote(ledger: Ledger, spend: SJ.Journal, uid: string, tool: string, quote: P.Reply, maxAtoms: int,
                  escrow: bool, now: int, payout: Payout)
    returns (refused: Option<Answer>, money: Money)
    requires ledger.Valid() && spend.Valid() && quote.PaymentRequired?
    modifies ledger, spend
    ensures ledger.Valid() && spend.Valid()
    ensures var amount := if quote.shortfall > 0 then quote.shortfall else quote.price;
            var covered := escrow ==> amount <= BalanceOf(old(ledger.balances), uid);
            && refused == (if amount <= 0 then Some(NoAmount)
                           else if amount > maxAtoms then Some(OverBudget)
                           else if !covered then Some(NoEscrow)
                           else if payout.Confirmed? then None
                           else Some(PaymentError))
            && money == if 0 < amount <= maxAtoms && covered then Handed(amount, payout) else NoPayment
    ensures Escrowed(old(ledger.balances), ledger.balances, uid, escrow, money)
    ensures spend.entries == Journaled(old(spend.entries), now, uid, tool, money)
    ensures money == NoPayment ==> ledger.balances == old(ledger.balances) && spend.entries == old(spend.entries)
  {
    money := NoPayment;
    var amount := quote.shortfall;
    if amount <= 0 {
      amount := quote.price;
    }
    if amount <= 0 {
      return Some(NoAmount), NoPayment;
    }
    if amount > maxAtoms {
      return Some(OverBudget), NoPayment;
    }
    money := Pay(ledger, spend, uid, tool, amount, escrow, now, payout);
    refused := if money == NoPayment then Some(NoEscrow)
               else if payout.Confirmed? then None
               else Some(PaymentError);
  }

  /** Attempts before the payment: the first call is repeated once, on a fresh session, when it fails. */
  function FirstAnswered(env: Environment): nat {
    if env.reply(0).None? && !env.cancelled then 1 else 0
  }

  /** Call i is refused again after the payment, and the pause after it is waited out. */
  predicate Again(env: Environment, f: nat, i: nat)
    requires f <= i
  {
    env.reply(i).Some? && env.reply(i).value.PaymentRequired? && env.waits(i - f)
  }

  /** The end of a call that was paid for at attempt f: up to seven more calls, a pause before each but the first. */
  ghost predicate Polled(env: Environment, f: nat, answer: Answer, calls: nat) {
    var last := calls - 1;
    && f < last <= f + 7
    && (forall i :: f < i < last ==> Again(env, f, i))
    && if env.reply(last).None? then answer == TransportError
       else if env.reply(last).value.Result? then answer == Result
       else if last == f + 7 then answer == StillUnpaid
       else answer == Cancelled && !env.waits(last - f)
  }

  /** What the environment makes of a call, and of the money, for a caller with the given balance. */
  ghost predicate Comes(env: Environment, maxAtoms: int, escrow: bool, balance: int, answer: Answer, calls: nat,
                        money: Money)
  {
    var f := FirstAnswered(env);
    if !env.dials(0) then answer == DialFailed && calls == 0 && money == NoPayment
    else if f == 1 && !env.dials(1) then answer == DialFailed && calls == 1 && money == NoPayment
    else if env.reply(f).None? then answer == TransportError && calls == f + 1 && money == NoPayment
    else if env.reply(f).value.Result? then answer == Result && calls == f + 1 && money == NoPayment
    else Quoted(env, f, maxAtoms, escrow, balance, answer, calls, money)
  }

  /** The first answer is a quote, of the shortfall or else of the price. */
  ghost predicate Quoted(env: Environment, f: nat, maxAtoms: int, escrow: bool, balance: int, answer: Answer,
                         calls: nat, money: Money)
    requires env.reply(f).Some? && env.reply(f).value.PaymentRequired?
  {
    var quote := env.reply(f).value;
    var amount := if quote.shortfall > 0 then quote.shortfall else quote.price;
    if amount <= 0 then answer == NoAmount && calls == f + 1 && money == NoPayment
    else if amount > maxAtoms then answer == OverBudget && calls == f + 1 && money == NoPayment
    else if escrow && balance < amount then answer == NoEscrow && calls == f + 1 && money == NoPayment
    else
      && money == Handed(amount, env.payout)
      && if env.payout.Confirmed? then Polled(env, f, answer, calls) else answer == PaymentError && calls == f + 1
  }

  /**
   * What the environment says decides the answer, the calls and the payment, exactly. There are at most nine remote
   * calls and one payment, within maxAtoms. With escrow, the payment was debited before it was
   * handed to the rail, and came back only on a definitive failure; the journal shows every payment except such a
   * failure.
   */
  method PaidCall(ledger: Ledger, spend: SJ.Journal, uid: string, tool: string, maxAtoms: int, escrow: bool, now: int,
                  env: Environment)
    returns (answer: Answer, paidAtoms: int, calls: nat, money: Money)
    requires ledger.Valid() && spend.Valid()
    modifies ledger, spend
    ensures ledger.Valid() && spend.Valid()
    ensures Comes(env, maxAtoms, escrow, BalanceOf(old(ledger.balances), uid), answer, calls, money)
    ensures calls <= 9 && (money.Handed? ==> 0 < money.atoms <= maxAtoms)
    ensures paidAtoms == if money.Handed? && money.payout.Confirmed? then money.atoms else 0
    ensures answer == Result || answer == StillUnpaid ==> money.Handed? ==> money.payout.Confirmed?
    ensures answer == PaymentError <==> money.Handed? && !money.payout.Confirmed?
    ensures Escrowed(old(ledger.balances), ledger.balances, uid, escrow, money)
    ensures spend.entries == Journaled(old(spend.entries), now, uid, tool, money)
  {
    paidAtoms, calls, money := 0, 0, NoPayment;
    var attempt := 0;
    if !env.dials(0) {
      answer := DialFailed;
      return;
    }
    while true
      invariant calls == attempt && paidAtoms == 0 && money == NoPayment
      invariant attempt == 0 || (attempt == 1 && FirstAnswered(env) == 1 && env.dials(1))
      invariant ledger.Valid() && spend.Valid()
      invariant ledger.balances == old(ledger.balances) && spend.entries == old(spend.entries)
      decreases 2 - attempt
    {
      calls := calls + 1;
      var res := env.reply(attempt);
      if res.None? {
        if attempt == 0 && !env.cancelled {
          if !env.dials(1) {
            answer := DialFailed;
            return;
          }
          attempt := attempt + 1;
          continue;
        }
        answer := TransportError;
        return;
      }
      if res.value.Result? {
        answer := Result;
        return;
      }
      var refused: Option<Answer>;
      refused, money := PayQuote(ledger, spend, uid, tool, res.value, maxAtoms, escrow, now, env.payout);
      if refused.Some? {
        answer := refused.value;
        return;
      }
      paidAtoms := paidAtoms + money.atoms;
      answer, calls := Repeat(env, attempt);
      return;
    }
  }

  /** The same loop after the payment: the call is repeated until the credit has landed, with pauses. */
  method Repeat(env: Environment, f: nat) returns (answer: Answer, calls: nat)
    ensures Polled(env, f, answer, calls)
  {
    var polls, attempt := 0, f + 1;
    while true
      invariant polls <= POLLS && attempt == f + 1 + polls
      invariant forall i :: f < i < attempt ==> Again(env, f, i)
      decreases POLLS - polls
    {
      calls := attempt + 1;
      var res := env.reply(attempt);
      if res.None? {
        answer := TransportError;
        return;
      }
      if res.value.Result? {
        answer := Result;
        return;
      }
      if polls < POLLS {
        polls := polls + 1;
        if env.waits(polls) {
          assert Again(env, f, attempt);
          attempt := attempt + 1;
          continue;
        }
        answer := Cancelled;
        return;
      }
      answer := StillUnpaid;
      return;
    }
  }

  /** The first answer is a quote that fits and is covered, and paying it is confirmed. */
  ghost predicate Pays(env: Environment, maxAtoms: int, balance: int, amount: int) {
    var f := FirstAnswered(env);
    && env.dials(0) && (f == 1 ==> env.dials(1)) && env.reply(f).Some? && env.reply(f).value.PaymentRequired?
    && env.payout.Confirmed? && 0 < amount <= maxAtoms && amount <= balance
    && var quote := env.reply(f).value;
       amount == if quote.shortfall > 0 then quote.shortfall else quote.price
  }

  /** Call number last brings the result: refused again until then, at most six times, and every pause waited out. */
  ghost predicate Brings(env: Environment, last: nat) {
    var f := FirstAnswered(env);
    && f < last <= f + 7 && env.reply(last).Some? && env.reply(last).value.Result?
    && forall i :: f < i < last ==> Again(env, f, i)
  }

  /** The call has a result: at once, or after its payment. */
  ghost predicate Succeeds(env: Environment, maxAtoms: int, balance: int) {
    var f := FirstAnswered(env);
    && env.dials(0) && (f == 1 ==> env.dials(1)) && env.reply(f).Some?
    && (|| env.reply(f).value.Result?
        || (exists amount, last :: Pays(env, maxAtoms, balance, amount) && Brings(env, last)))
  }

  /** That decides an escrowed call: its result, and what it pays. */
  lemma ComesTo(env: Environment, maxAtoms: int, balance: int, answer: Answer, calls: nat, money: Money)
    requires Comes(env, maxAtoms, true, balance, answer, calls, money)
    ensures answer == Result <==> Succeeds(env, maxAtoms, balance)
    ensures money.Handed? && money.payout.Confirmed? ==> Pays(env, maxAtoms, balance, money.atoms)
    ensures forall amount :: Pays(env, maxAtoms, balance, amount) ==> money == Handed(amount, Confirmed)
  {
    if money.Handed? && money.payout.Confirmed? {
      assert Pays(env, maxAtoms, balance, money.atoms);
      if answer == Result {
        assert Brings(env, calls - 1);
      } else if last :| Brings(env, last) {
        NotBrought(env, answer, calls, last);
      }
    }
  }

  lemma NotBrought(env: Environment, answer: Answer, calls: nat, last: nat)
    requires Polled(env, FirstAnswered(env), answer, calls) && Brings(env, last)
    ensures answer == Result && calls == last + 1
  {
    var f := FirstAnswered(env);
    assert last < calls - 1 ==> Again(env, f, last);
    assert calls - 1 < last ==> Again(env, f, calls - 1);
  }

  /**
   * runTest pays at most what is left of the budget, from the provider's balance. It passes exactly when the call has a
   * result that is no error; what it pays is added to the total exactly when the payment is confirmed.
   */
  method RunTest(ledger: Ledger, spend: SJ.Journal, uid: string, tool: string, budget: int, paid: int, now: int,
                 env: Environment, resultIsError: bool)
    returns (total: int, passed: bool)
    requires ledger.Valid() && spend.Valid()
    modifies ledger, spend
    ensures ledger.Valid() && spend.Valid() && paid <= total && (paid <= budget ==> total <= budget)
    ensures budget < paid ==> total == paid
    ensures var left, balance := if paid <= budget then budget - paid else 0, BalanceOf(old(ledger.balances), uid);
            && (passed <==> !resultIsError && Succeeds(env, left, balance))
            && (total != paid ==> Pays(env, left, balance, total - paid))
            && (forall amount :: Pays(env, left, balance, amount) ==> total == paid + amount)
    ensures passed ==> !resultIsError
    ensures BalanceOf(old(ledger.balances), uid) - BalanceOf(ledger.balances, uid) >= total - paid
    ensures passed ==> BalanceOf(old(ledger.balances), uid) - BalanceOf(ledger.balances, uid) == total - paid
  {
    ghost var balance := BalanceOf(ledger.balances, uid);
    var remaining := budget - paid;
    if remaining < 0 {
      remaining := 0;
    }
    var answer, paidAtoms, calls, money := PaidCall(ledger, spend, uid, tool, remaining, true, now, env);
    ComesTo(env, remaining, balance, answer, calls, money);
    total := paid + paidAtoms;
    passed := answer == Result && !resultIsError;
  }
}
