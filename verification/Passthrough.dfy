/** The bridge's relay of one tool call (passthrough in bridge/session.go): retry, pay once, poll. */
module Passthrough {
  import opened Wrappers
  import opened CallJournal

  /** What a result says: the outcome of a handler, or the server's refusal to run one. */
  datatype Body = Said(outcome: Outcome) | Refusal

  /** What CallTool returned: a result to hand on, or a parsed payment_required. */
  datatype Reply = Result(body: Body) | PaymentRequired(price: int, shortfall: int)

  datatype Event =
    | DialFailed
    | CallSent
    | CallFailed
    | Replied(reply: Reply)
    | PayDeclined                  // a cap or the user stopped the payment before it reached the rail
    | PayUnconfirmed               // handed to the rail, which failed or was not waited out
    | Settled
    | PollElapsed
    | Cancelled

  /** How the relayed call ends. */
  datatype Answer = Relayed(body: Body) | StillUnpaid | NotPaid | Failure

  datatype Client =
    | Dialing(attempt: nat, paid: bool)
    | Waiting(attempt: nat, paid: bool)
    | Settling(attempt: nat, amount: int)
    | Polling(attempt: nat)
    | Done(answer: Answer)

  const START := Dialing(0, false)
  const LAST_POLL := 6

  /** What settle pays for a quote. */
  function Amount(price: int, shortfall: int): int {
    if shortfall > 0 then shortfall else price
  }

  function AfterReply(c: Client, reply: Reply): Client
    requires c.Waiting?
  {
    if reply.Result? then Done(Relayed(reply.body))
    else if c.paid then
      if c.attempt < LAST_POLL then Polling(c.attempt) else Done(StillUnpaid)
    else if Amount(reply.price, reply.shortfall) <= 0 then Done(NotPaid)
    else Settling(c.attempt, Amount(reply.price, reply.shortfall))
  }

  function ClientStep(c: Client, e: Event): Option<Client> {
    match (c, e)
    case (Dialing(_, _), DialFailed) => Some(Done(Failure))
    case (Dialing(attempt, paid), CallSent) => Some(Waiting(attempt, paid))
    case (Waiting(attempt, paid), CallFailed) => Some(if attempt == 0 then Dialing(1, paid) else Done(Failure))
    case (Waiting(_, _), Replied(reply)) => Some(AfterReply(c, reply))
    case (Settling(_, _), PayDeclined) => Some(Done(NotPaid))
    case (Settling(_, _), PayUnconfirmed) => Some(Done(NotPaid))
    case (Settling(attempt, _), Settled) => Some(Dialing(attempt + 1, true))
    case (Polling(attempt), PollElapsed) => Some(Dialing(attempt + 1, true))
    case (Polling(_), Cancelled) => Some(Done(Failure))
    case _ => None
  }

  /** A run of the client, newest event last. */
  datatype Trace = Begin | Then(before: Trace, event: Event)

  function After(t: Trace): Option<Client> {
    match t
    case Begin => Some(START)
    case Then(before, e) => var c := After(before); if c.None? then None else ClientStep(c.value, e)
  }

  function Calls(t: Trace): nat {
    match t
    case Begin => 0
    case Then(before, e) => Calls(before) + (if e == CallSent then 1 else 0)
  }

  /** The amounts handed to the rail, in order, confirmed or not. */
  function Payments(t: Trace): seq<int> {
    match t
    case Begin => []
    case Then(before, e) =>
      if (e.Settled? || e.PayUnconfirmed?) && After(before).Some? && After(before).value.Settling?
      then Payments(before) + [After(before).value.amount] else Payments(before)
  }

  /** The attempt counter counts the remote calls, and being paid means having settled once. */
  ghost predicate Progress(c: Client, calls: nat, payments: seq<int>) {
    && |payments| <= 1
    && (forall i :: 0 <= i < |payments| ==> payments[i] > 0)
    && match c
       case Dialing(attempt, paid) =>
         calls == attempt <= LAST_POLL && (paid <==> |payments| == 1) && (!paid ==> attempt <= 1)
       case Waiting(attempt, paid) =>
         calls == attempt + 1 && attempt <= LAST_POLL && (paid <==> |payments| == 1) && (!paid ==> attempt <= 1)
       case Settling(attempt, amount) =>
         calls == attempt + 1 && attempt <= 1 && payments == [] && amount > 0
       case Polling(attempt) =>
         calls == attempt + 1 && attempt < LAST_POLL && |payments| == 1
       case Done(_) => calls <= LAST_POLL + 1
  }

  lemma {:induction false} ClientProgress(t: Trace)
    requires After(t).Some?
    ensures Progress(After(t).value, Calls(t), Payments(t))
  {
    if t.Then? {
      ClientProgress(t.before);
    }
  }

  /**
   * One agent-visible call makes at most seven remote calls and hands the rail at most one payment, of a positive
   * amount, counting the payment whose outcome is not known when the call gives up on it.
   */
  lemma AtMostSevenCallsOnePayment(t: Trace)
    requires After(t).Some?
    ensures Calls(t) <= 7 && |Payments(t)| <= 1
    ensures forall a :: a in Payments(t) ==> a > 0
  {
    ClientProgress(t);
  }

  /** A call and its quote. */
  function Asked(t: Trace): Trace {
    Then(Then(t, CallSent), Replied(PaymentRequired(5, 5)))
  }

  /** Pays on the first quote, then polls n times. */
  function Polls(n: nat): Trace {
    if n == 0 then Then(Asked(Begin), Settled) else Then(Asked(Polls(n - 1)), PollElapsed)
  }

  lemma AskedPaid(t: Trace, n: nat)
    requires After(t) == Some(Dialing(n, true))
    ensures Calls(Asked(t)) == Calls(t) + 1
    ensures After(Asked(t)) == Some(if n < LAST_POLL then Polling(n) else Done(StillUnpaid))
  {
    assert After(Then(t, CallSent)) == Some(Waiting(n, true));
  }

  lemma PollsAgain(t: Trace, n: nat)
    requires After(t) == Some(Dialing(n, true)) && n < LAST_POLL
    ensures After(Then(Asked(t), PollElapsed)) == Some(Dialing(n + 1, true))
    ensures Calls(Then(Asked(t), PollElapsed)) == Calls(t) + 1
  {
    AskedPaid(t, n);
    assert ClientStep(Polling(n), PollElapsed) == Some(Dialing(n + 1, true));
  }

  lemma FirstPays()
    ensures After(Polls(0)) == Some(Dialing(1, true)) && Calls(Polls(0)) == 1
  {
    assert After(Then(Begin, CallSent)) == Some(Waiting(0, false)) && Calls(Then(Begin, CallSent)) == 1;
    assert After(Asked(Begin)) == Some(Settling(0, 5));
  }

  lemma {:induction false} PollsRun(n: nat)
    requires n <= 5
    ensures After(Polls(n)) == Some(Dialing(n + 1, true)) && Calls(Polls(n)) == n + 1
  {
    if n == 0 {
      FirstPays();
    } else {
      PollsRun(n - 1);
      PollsAgain(Polls(n - 1), n);
    }
  }

  /** The bound of seven calls is reached: a tip that never lands is polled for to the end. */
  lemma SevenCallsHappen()
    ensures exists t :: After(t) == Some(Done(StillUnpaid)) && Calls(t) == 7
  {
    PollsRun(5);
    AskedPaid(Polls(5), 6);
    assert After(Asked(Polls(5))) == Some(Done(StillUnpaid)) && Calls(Asked(Polls(5))) == 7;
  }

  /** How an attempt to settle ends. */
  datatype Settlement = Declined | Unconfirmed | Confirmed

  /** What the world answers at each attempt. */
  datatype Environment = Environment(
    dialWorks: nat -> bool,
    reply: nat -> Option<Reply>,    // None is a transport error
    settles: nat -> Settlement,
    waitedOut: nat -> bool)

  class BotLink {
    var session: bool

    constructor ()
      ensures !session
    {
      session := false;
    }

    /** Keeps an open session; otherwise opens one if the world lets it. */
    method Dial(works: bool) returns (ok: bool)
      modifies this
      ensures ok == (old(session) || works) && session == ok
    {
      if session {
        return true;
      }
      session := works;
      ok := works;
    }

    method Reset()
      modifies this
      ensures !session
    {
      session := false;
    }
  }

  /** Whether a session is open after the run, if one was or was not before it. */
  function SessionAfter(t: Trace, open: bool): bool {
    match t
    case Begin => open
    case Then(before, e) =>
      if e == CallSent then true
      else if e == CallFailed || e == DialFailed then false
      else SessionAfter(before, open)
  }

  /** What the world answers a client that stands at c. */
  function Answered(c: Client, open: bool, env: Environment): Option<Event> {
    match c
    case Dialing(i, _) => Some(if open || env.dialWorks(i) then CallSent else DialFailed)
    case Waiting(i, _) => Some(if env.reply(i).None? then CallFailed else Replied(env.reply(i).value))
    case Settling(i, _) =>
      Some(match env.settles(i)
           case Declined => PayDeclined
           case Unconfirmed => PayUnconfirmed
           case Confirmed => Settled)
    case Polling(i) => Some(if env.waitedOut(i) then PollElapsed else Cancelled)
    case Done(_) => None
  }

  /** Every event of the run is the one the world gave at that point. */
  ghost predicate Follows(t: Trace, open: bool, env: Environment) {
    t.Then? ==>
      && Follows(t.before, open, env) && After(t.before).Some?
      && Answered(After(t.before).value, SessionAfter(t.before, open), env) == Some(t.event)
  }

  /** The client, the calls it has made, the payments it has handed over, and whether it has a session. */
  datatype Standing = Standing(client: Client, calls: nat, payments: seq<int>, session: bool)

  function Advanced(s: Standing, e: Event): Option<Standing> {
    var c := ClientStep(s.client, e);
    if c.None? then None
    else Some(Standing(c.value, s.calls + (if e == CallSent then 1 else 0),
                       if (e.Settled? || e.PayUnconfirmed?) && s.client.Settling? then s.payments + [s.client.amount]
                       else s.payments,
                       if e == CallSent then true else if e == CallFailed || e == DialFailed then false else s.session))
  }

  /** Where the run stands; None if some event is not the one the world gave. */
  function Tracked(t: Trace, open: bool, env: Environment): Option<Standing> {
    match t
    case Begin => Some(Standing(START, 0, [], open))
    case Then(before, e) =>
      var s := Tracked(before, open, env);
      if s.None? || Answered(s.value.client, s.value.session, env) != Some(e) then None else Advanced(s.value, e)
  }

  lemma {:induction false} TrackedFollows(t: Trace, open: bool, env: Environment, s: Standing)
    requires Tracked(t, open, env) == Some(s)
    ensures After(t) == Some(s.client) && Calls(t) == s.calls && Payments(t) == s.payments
    ensures Follows(t, open, env) && SessionAfter(t, open) == s.session
  {
    if t.Then? {
      TrackedFollows(t.before, open, env, Tracked(t.before, open, env).value);
    }
  }

  /** The world's answer takes the run one event further. */
  lemma Goes(t: Trace, open: bool, env: Environment, s: Standing, e: Event) returns (t': Trace, s': Standing)
    requires Tracked(t, open, env) == Some(s) && Answered(s.client, s.session, env) == Some(e)
    requires ClientStep(s.client, e).Some?
    ensures t' == Then(t, e) && Tracked(t', open, env) == Some(s') && Advanced(s, e) == Some(s')
  {
    t', s' := Then(t, e), Advanced(s, e).value;
  }

  lemma AttemptsBounded(t: Trace, open: bool, env: Environment, s: Standing)
    requires Tracked(t, open, env) == Some(s) && s.client.Dialing?
    ensures s.client.attempt <= LAST_POLL
  {
    TrackedFollows(t, open, env, s);
    ClientProgress(t);
  }

  /** The first attempt whose call is not lost in transport, or the retry of the first. */
  function First(env: Environment): nat {
    if env.reply(0).None? then 1 else 0
  }

  /** A session is open for the attempt whose reply is the first. */
  predicate Connected(env: Environment, open: bool) {
    (open || env.dialWorks(0)) && (env.reply(0).None? ==> env.dialWorks(1))
  }

  /** How a relayed call that reaches no reply, or a first reply, ends. */
  ghost predicate EndsFirst(env: Environment, open: bool, answer: Answer, calls: nat, payments: seq<int>) {
    && (!open && !env.dialWorks(0) ==> answer == Failure && calls == 0 && payments == [])
    && ((open || env.dialWorks(0)) && env.reply(0).None? ==>
          && (!env.dialWorks(1) ==> answer == Failure && calls == 1 && payments == [])
          && (env.dialWorks(1) && env.reply(1).None? ==> answer == Failure && calls == 2 && payments == []))
    && (Connected(env, open) && env.reply(First(env)).Some? ==>
          match env.reply(First(env)).value
          case Result(body) => answer == Relayed(body) && calls == First(env) + 1 && payments == []
          case PaymentRequired(price, shortfall) =>
            var due, settled := if shortfall > 0 then shortfall else price, env.settles(First(env));
            if due <= 0 || settled == Declined then answer == NotPaid && calls == First(env) + 1 && payments == []
            else if settled == Unconfirmed then answer == NotPaid && calls == First(env) + 1 && payments == [due]
            else payments == [due] && calls > First(env) + 1)
  }

  /** How one that was paid for ends. */
  ghost predicate EndsPaid(env: Environment, answer: Answer, calls: nat) {
    calls > First(env) + 1 ==>
      var last: nat := calls - 1;
      && (forall i: nat :: First(env) < i < last ==>
            env.reply(i).Some? && env.reply(i).value.PaymentRequired? && env.waitedOut(i))
      && match env.reply(last)
         case None => answer == Failure
         case Some(Result(body)) => answer == Relayed(body)
         case Some(PaymentRequired(_, _)) =>
           if last == 6 then answer == StillUnpaid else answer == Failure && !env.waitedOut(last)
  }

  /** Where the loop stands before an attempt: still unpaid, or paid after the first reply. */
  ghost predicate Stands(env: Environment, open: bool, session: bool, attempt: nat, paid: bool, payments: seq<int>) {
    && (attempt == 0 ==> session == open)
    && (0 < attempt ==> open || env.dialWorks(0))
    && (!paid ==> payments == [] && attempt <= First(env) && (attempt == 1 ==> !session))
    && (paid ==>
          && attempt > First(env) && session && Connected(env, open)
          && env.reply(First(env)).Some? && env.reply(First(env)).value.PaymentRequired?
          && payments == [Amount(env.reply(First(env)).value.price, env.reply(First(env)).value.shortfall)]
          && payments[0] > 0 && env.settles(First(env)) == Confirmed
          && forall i: nat :: First(env) < i < attempt ==>
               env.reply(i).Some? && env.reply(i).value.PaymentRequired? && env.waitedOut(i))
  }

  /** The attempt finds a session, or opens one. */
  predicate Reached(env: Environment, session: bool, attempt: nat) {
    session || env.dialWorks(attempt)
  }

  /** The session an attempt starts with. */
  function SessionBefore(open: bool, attempt: nat, paid: bool): bool {
    paid || (attempt == 0 && open)
  }

  /** An attempt has been made from a proper stand. */
  ghost predicate Sent(env: Environment, open: bool, s: Standing, attempt: nat, paid: bool) {
    var session := SessionBefore(open, attempt, paid);
    && s.calls == attempt + 1 && s.session
    && Stands(env, open, session, attempt, paid, s.payments) && Reached(env, session, attempt)
  }

  predicate IsQuote(reply: Option<Reply>) {
    reply.Some? && reply.value.PaymentRequired?
  }

  /** Where the client stands fits what the world has answered. */
  ghost predicate Fits(env: Environment, open: bool, s: Standing) {
    match s.client
    case Dialing(i, paid) => s.calls == i && Stands(env, open, s.session, i, paid, s.payments)
    case Waiting(i, paid) => Sent(env, open, s, i, paid)
    case Settling(i, amount) =>
      && Sent(env, open, s, i, false) && IsQuote(env.reply(i)) && 0 < amount
      && amount == Amount(env.reply(i).value.price, env.reply(i).value.shortfall)
    case Polling(i) => Sent(env, open, s, i, true) && IsQuote(env.reply(i)) && i < LAST_POLL
    case Done(answer) =>
      && EndsFirst(env, open, answer, s.calls, s.payments) && EndsPaid(env, answer, s.calls)
      && (answer != Failure ==> s.session)
  }

  lemma DialFits(env: Environment, open: bool, s: Standing, e: Event, s': Standing)
    requires Fits(env, open, s) && s.client.Dialing? && Answered(s.client, s.session, env) == Some(e)
    requires Advanced(s, e) == Some(s')
    ensures Fits(env, open, s')
  {
  }

  lemma LostFits(env: Environment, open: bool, s: Standing, s': Standing)
    requires Fits(env, open, s) && s.client.Waiting? && env.reply(s.client.attempt).None?
    requires Advanced(s, CallFailed) == Some(s')
    ensures Fits(env, open, s')
  {
  }

  lemma RepliedFits(env: Environment, open: bool, s: Standing, s': Standing)
    requires Fits(env, open, s) && s.client.Waiting? && env.reply(s.client.attempt).Some?
    requires s.client.attempt <= LAST_POLL && Advanced(s, Replied(env.reply(s.client.attempt).value)) == Some(s')
    ensures Fits(env, open, s')
  {
  }

  lemma SettleFits(env: Environment, open: bool, s: Standing, e: Event, s': Standing)
    requires Fits(env, open, s) && s.client.Settling? && Answered(s.client, s.session, env) == Some(e)
    requires Advanced(s, e) == Some(s')
    ensures Fits(env, open, s')
  {
  }

  lemma PollFits(env: Environment, open: bool, s: Standing, e: Event, s': Standing)
    requires Fits(env, open, s) && s.client.Polling? && Answered(s.client, s.session, env) == Some(e)
    requires Advanced(s, e) == Some(s')
    ensures Fits(env, open, s')
  {
  }

  /** A run the world answers ends as the replies say, wherever it has come to. */
  lemma {:induction false} TrackedFits(t: Trace, open: bool, env: Environment, s: Standing)
    requires Tracked(t, open, env) == Some(s)
    ensures Fits(env, open, s)
  {
    if t.Then? {
      var before := Tracked(t.before, open, env).value;
      TrackedFits(t.before, open, env, before);
      match before.client {
        case Dialing(_, _) => DialFits(env, open, before, t.event, s);
        case Waiting(i, _) =>
          TrackedFollows(t.before, open, env, before);
          ClientProgress(t.before);
          if env.reply(i).None? {
            LostFits(env, open, before, s);
          } else {
            RepliedFits(env, open, before, s);
          }
        case Settling(_, _) => SettleFits(env, open, before, t.event, s);
        case Polling(_) => PollFits(env, open, before, t.event, s);
        case Done(_) =>
      }
    }
  }

  lemma {:induction false} FollowsTracked(t: Trace, open: bool, env: Environment)
    requires After(t).Some? && Follows(t, open, env)
    ensures Tracked(t, open, env) == Some(Standing(After(t).value, Calls(t), Payments(t), SessionAfter(t, open)))
  {
    if t.Then? {
      FollowsTracked(t.before, open, env);
    }
  }

  lemma RunFits(t: Trace, open: bool, env: Environment, answer: Answer)
    requires After(t) == Some(Done(answer)) && Follows(t, open, env)
    ensures EndsFirst(env, open, answer, Calls(t), Payments(t)) && EndsPaid(env, answer, Calls(t))
  {
    FollowsTracked(t, open, env);
    TrackedFits(t, open, env, Standing(Done(answer), Calls(t), Payments(t), SessionAfter(t, open)));
  }

  /** Without a session, or with its first two calls lost, a relayed call fails unpaid. */
  lemma UnreachedFails(t: Trace, open: bool, env: Environment, answer: Answer)
    requires After(t) == Some(Done(answer)) && Follows(t, open, env)
    ensures !open && !env.dialWorks(0) ==> answer == Failure && Calls(t) == 0 && Payments(t) == []
    ensures (open || env.dialWorks(0)) && env.reply(0).None? && !env.dialWorks(1) ==>
              answer == Failure && Calls(t) == 1 && Payments(t) == []
    ensures (open || env.dialWorks(0)) && env.reply(0).None? && env.dialWorks(1) && env.reply(1).None? ==>
              answer == Failure && Calls(t) == 2 && Payments(t) == []
  {
    RunFits(t, open, env, answer);
  }

  /**
   * The first reply, to the first call or to its one retry, decides: a result is relayed as it is; a quote is paid its
   * shortfall, or else its price, exactly when that is positive and the bridge does not decline, and the call goes on
   * exactly when that payment is confirmed.
   */
  lemma FirstReplyDecides(t: Trace, open: bool, env: Environment, answer: Answer, i: nat)
    requires After(t) == Some(Done(answer)) && Follows(t, open, env) && (open || env.dialWorks(0))
    requires i == 0 || (i == 1 && env.reply(0).None? && env.dialWorks(1))
    requires env.reply(i).Some?
    ensures match env.reply(i).value
            case Result(body) => answer == Relayed(body) && Calls(t) == i + 1 && Payments(t) == []
            case PaymentRequired(price, shortfall) =>
              var due := if shortfall > 0 then shortfall else price;
              && Payments(t) == (if due > 0 && env.settles(i) != Declined then [due] else [])
              && (if due > 0 && env.settles(i) == Confirmed then Calls(t) > i + 1
                  else answer == NotPaid && Calls(t) == i + 1)
  {
    RunFits(t, open, env, answer);
  }

  /**
   * A call that was paid for is repeated as long as it is quoted again, seven calls in all, and its caller waits; the
   * last reply decides, and a result is relayed as it is.
   */
  lemma LastReplyDecides(t: Trace, open: bool, env: Environment, answer: Answer, i: nat)
    requires After(t) == Some(Done(answer)) && Follows(t, open, env) && (open || env.dialWorks(0))
    requires i == 0 || (i == 1 && env.reply(0).None? && env.dialWorks(1))
    requires env.reply(i).Some? && i + 1 < Calls(t)
    ensures var last: nat := Calls(t) - 1;
            && (forall k: nat :: i < k < last ==>
                  env.reply(k).Some? && env.reply(k).value.PaymentRequired? && env.waitedOut(k))
            && match env.reply(last)
               case None => answer == Failure
               case Some(Result(body)) => answer == Relayed(body)
               case Some(PaymentRequired(_, _)) =>
                 if last == 6 then answer == StillUnpaid else answer == Failure && !env.waitedOut(last)
  {
    RunFits(t, open, env, answer);
  }

  /**
   * The relay loop; trace is the run of the client machine it performs, each event as the world gave it, so the laws
   * above hold of what it answers, calls and pays. A result of the bot is relayed as it is, and nothing else is.
   */
  method Relay(link: BotLink, env: Environment)
    returns (answer: Answer, calls: nat, payments: seq<int>, ghost trace: Trace)
    modifies link
    ensures After(trace) == Some(Done(answer)) && Follows(trace, old(link.session), env)
    ensures calls == Calls(trace) <= 7 && payments == Payments(trace) && |payments| <= 1
    ensures link.session == SessionAfter(trace, old(link.session)) && (answer != Failure ==> link.session)
    ensures answer.Relayed? ==> 0 < calls && env.reply(calls - 1) == Some(Result(answer.body))
    ensures 0 < calls && env.reply(calls - 1).Some? && env.reply(calls - 1).value.Result? ==>
              answer == Relayed(env.reply(calls - 1).value.body)
  {
    ghost var open := link.session;
    answer, calls, payments, trace := Attempts(link, env);
    ghost var s := Standing(Done(answer), calls, payments, link.session);
    TrackedFollows(trace, open, env, s);
    TrackedFits(trace, open, env, s);
    ResultIsRelayed(env, open, s);
    AtMostSevenCallsOnePayment(trace);
  }

  lemma ResultIsRelayed(env: Environment, open: bool, s: Standing)
    requires Fits(env, open, s) && s.client.Done?
    ensures s.client.answer.Relayed? ==> 0 < s.calls && env.reply(s.calls - 1) == Some(Result(s.client.answer.body))
    ensures 0 < s.calls && env.reply(s.calls - 1).Some? && env.reply(s.calls - 1).value.Result? ==>
              s.client.answer == Relayed(env.reply(s.calls - 1).value.body)
  {
  }

  /** One remote call: dials if need be, and drops the session when the call is lost. */
  method CallBot(link: BotLink, env: Environment, attempt: nat, ghost paid: bool, ghost calls: nat,
                 ghost payments: seq<int>, ghost trace: Trace, ghost open: bool)
    returns (dialed: bool, res: Option<Reply>, ghost after: Trace)
    requires Tracked(trace, open, env) == Some(Standing(Dialing(attempt, paid), calls, payments, link.session))
    modifies link
    ensures dialed == (old(link.session) || env.dialWorks(attempt))
         && res == (if dialed then env.reply(attempt) else None)
    ensures link.session == res.Some?
    ensures !dialed ==> Tracked(after, open, env) == Some(Standing(Done(Failure), calls, payments, false))
    ensures dialed && res.None? ==>
              Tracked(after, open, env) == Some(Standing(if attempt == 0 then Dialing(1, paid) else Done(Failure),
                                                         calls + 1, payments, false))
    ensures res.Some? ==>
              Tracked(after, open, env) == Some(Standing(AfterReply(Waiting(attempt, paid), res.value), calls + 1,
                                                         payments, true))
  {
    ghost var s := Standing(Dialing(attempt, paid), calls, payments, link.session);
    dialed := link.Dial(env.dialWorks(attempt));
    if !dialed {
      after, s := Goes(trace, open, env, s, DialFailed);
      return false, None, after;
    }
    after, s := Goes(trace, open, env, s, CallSent);
    res := env.reply(attempt);
    if res.None? {
      link.Reset();
      after, s := Goes(after, open, env, s, CallFailed);
      return;
    }
    after, s := Goes(after, open, env, s, Replied(res.value));
  }

  /** Settles a quote under the bridge's policy. */
  method Settle(env: Environment, attempt: nat, amount: int, ghost calls: nat, ghost trace: Trace, ghost open: bool)
    returns (settlement: Settlement, payments: seq<int>, ghost after: Trace)
    requires Tracked(trace, open, env) == Some(Standing(Settling(attempt, amount), calls, [], true))
    ensures settlement == env.settles(attempt) && payments == (if settlement == Declined then [] else [amount])
    ensures Tracked(after, open, env)
         == Some(Standing(if settlement == Confirmed then Dialing(attempt + 1, true)
                          else Done(NotPaid), calls, payments,
                          true))
  {
    ghost var s := Standing(Settling(attempt, amount), calls, [], true);
    settlement := env.settles(attempt);
    payments := if settlement == Declined then [] else [amount];
    assert [] + [amount] == [amount];
    after, s := Goes(trace, open, env, s, match settlement
                                          case Declined => PayDeclined
                                          case Unconfirmed => PayUnconfirmed
                                          case Confirmed => Settled);
  }

  /** Waits before the next attempt of a call that is paid for. */
  method Poll(env: Environment, attempt: nat, ghost calls: nat, ghost payments: seq<int>, ghost trace: Trace,
              ghost open: bool)
    returns (waited: bool, ghost after: Trace)
    requires Tracked(trace, open, env) == Some(Standing(Polling(attempt), calls, payments, true))
    ensures waited == env.waitedOut(attempt)
    ensures Tracked(after, open, env)
         == Some(Standing(if waited then Dialing(attempt + 1, true) else Done(Failure), calls, payments, true))
  {
    waited := env.waitedOut(attempt);
    ghost var s;
    after, s := Goes(trace, open, env, Standing(Polling(attempt), calls, payments, true),
                     if waited then PollElapsed else Cancelled);
  }

  /** Its loop: one remote call an attempt. */
  method Attempts(link: BotLink, env: Environment)
    returns (answer: Answer, calls: nat, payments: seq<int>, ghost trace: Trace)
    modifies link
    ensures Tracked(trace, old(link.session), env) == Some(Standing(Done(answer), calls, payments, link.session))
  {
    var attempt, paid := 0, false;
    calls, payments := 0, [];
    ghost var open := link.session;
    trace := Begin;
    while true
      invariant Tracked(trace, open, env) == Some(Standing(Dialing(attempt, paid), calls, payments, link.session))
      invariant !paid ==> payments == []
      decreases 7 - attempt
    {
      AttemptsBounded(trace, open, env, Standing(Dialing(attempt, paid), calls, payments, link.session));
      var ok, res;
      ok, res, trace := CallBot(link, env, attempt, paid, calls, payments, trace, open);
      if !ok {
        answer := Failure;
        return;
      }
      calls := calls + 1;
      if res.None? {
        if attempt == 0 {
          attempt := attempt + 1;
          continue;
        }
        answer := Failure;
        return;
      }
      if res.value.Result? {
        answer := Relayed(res.value.body);
        return;
      }
      if paid {
        if attempt < 6 {
          var waited;
          waited, trace := Poll(env, attempt, calls, payments, trace, open);
          if waited {
            attempt := attempt + 1;
            continue;
          }
          answer := Failure;
          return;
        }
        answer := StillUnpaid;
        return;
      }
      var amount := Amount(res.value.price, res.value.shortfall);
      if amount <= 0 {
        answer := NotPaid;
        return;
      }
      var settlement;
      settlement, payments, trace := Settle(env, attempt, amount, calls, trace, open);
      if settlement != Confirmed {
        answer := NotPaid;
        return;
      }
      paid, attempt := true, attempt + 1;
    }
  }
}
