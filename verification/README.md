# Verification model of brmcp

This project models the money path and the message path of brmcp in Dafny and proves what they guarantee over whole
runs: any number of calls, payments and pipelines interleave, networks lose, delay and duplicate, and processes crash
between any two writes and start again from disk.

`dafny verify dfyconfig.toml` checks everything.

## How the model is built

Objects the program updates in place are classes with its fields (ledger, call journal, claim table, assembler, spend
log, tip matcher, fund history, store and directory service, spend journal, tip journal, router). Each method states
its new state by cases in plain terms, and where a machine follows it also as a function of the old one. Protocols
that interleave are state machines over the same functions, one locked section or one disk write a step; labels carry
what the environment decides. History variables record what the program does not keep. A run is a finite sequence of
steps from the start, and a property of runs is proved for all of them.

| area | files |
|---|---|
| serving harness | ServerLedger, CallJournal, TokenBucket, ServingHarness, Serving, ServingInvariant, ServingBooks, ServingRuns, ServingReplies, ServingRaces, ServingWalks |
| one call across the network | Passthrough, OneKey, EndToEnd, EmptyAnswers, PaidAnswers |
| message path | Decimal, Base64, Text, Wire, Reassembly, ReassemblyRuns, Router, RouterRuns |
| client bridge | RollingCap, SpendLog, Settlement, SpendRuns, TipMatcher, Tips, TipRuns, TipSettlement |
| directory | DirectoryEntry, Directory, Pipeline, PipelineRuns, ListingSafety, SpendJournal, TestCall, EscrowRuns, EscrowTips |
| provider and bot | FundHistory, FundRuns, TipJournal, TipCredits |
| shared | Wrappers, Bytes, MapSums, Search, Uids |

Times are nanoseconds in the harness and the assembler and Unix seconds elsewhere, as in the program. `Fresh` ids,
random keys and the clock are labels or parameters.

## Where the code does less than its comments say

The code is modelled as written. Each point names the lemmas that show it or say exactly when it happens.

- A crash between debit and journal entry loses the price, one between refund and completion (or between a restart's
  refund and the removal of its entry) refunds twice: `ServingRuns.ConservationOfAtoms`, `ServingRuns.CrashCost`.
- A finished call whose outcome reaches its record but not the journal for longer than its expiry is overtaken by a new
  call under its key: `ServingRuns.TimelinessIsExact` says when, `ServingRaces.OvertakenByASecondOwner` is such a run.
  Two running handlers never overlap: `ServingRuns.OneExecutionPerKey`.
- A duplicate parked on a claim that is then released answers three nils, not the refusal:
  `ServingReplies.DuplicatesHearTheOwner`; the agent can be handed that as a success:
  `EmptyAnswers.NothingRanYetAnswered`.
- An error whose text is empty turns into a success after a restart: `CallJournal.EmptyErrorTextIsLost`,
  `ServingReplies.RebuiltRecordsReplay`.
- A part repeated after completion opens a new pending message: `ReassemblyRuns.RepeatAfterCompletionReopens`.
- The base64 decoder accepts texts no encoder produces: `Base64.DecodeEncodes`.
- A late failure matched to a payment still on the rail frees room under the daily cap that the payment then uses:
  `SpendRuns.FailingALiveEntryReopens`, `SpendRuns.ReopeningBreaksTheCap`.
- A payment whose dispatch fails can swallow the outcome of an identical tip it was given, and a crash drops an outcome
  on its way to the late handler: `TipRuns.LossIsExact`.
- A refusal can reach a test payment whose own tip left while an identical tip failed; the escrow holds per payee and
  amount, not payment by payment: `EscrowTips.SettledTipsAreDebited`.
- A tip that first comes while its peer is not allowed is recorded and never earns credit:
  `TipCredits.PromptEarnsFirst`.
- A rejection, or the second section of an expiry, can take the registration of a running pipeline; the pipeline then
  writes to the next one: `PipelineRuns.StaleExactly`, `ListingSafety.RejectedDuringTest`,
  `ListingSafety.ExpiryTakesARegistration`. An approval is exposed to the same race between its check and its write.
- Removal from the directory's spend journal goes by position: `SpendJournal.TokenNamesItsEntry`.
- A session opened under a key in use breaks the router's counters: `Router.OpenAgrees`.

## Model

| member | source | states |
|---|---|---|
| `ServerLedger.CreditAdds` | server/ledger.go:74-82 | A credit raises the sum of all balances by exactly its positive amount, changes nobody else's, and ignores amounts that are not positive. |
| `ServerLedger.DebitRemoves` | server/ledger.go:84-95 | A positive debit succeeds if and only if the balance covers it, takes exactly its amount, and never overdraws. |
| `ServerLedger.RefundUndoesDebit` | server/ledger.go:74-95 | Crediting back a successful debit restores every balance. |
| `ServerLedger.Ledger.Balance` | server/ledger.go:68-72 | Reads one caller's balance, never negative. |
| `ServerLedger.Ledger.Credit` | server/ledger.go:74-82 | The stored and persisted balances become those after the credit. |
| `ServerLedger.Ledger.Debit` | server/ledger.go:84-95 | Fails exactly when the balance is short, and then changes nothing. |
| `CallJournal.ReloadRefinesMemory` | server/journal.go:85-112 | For one entry: a charged call, completed and read back before its whole-second expiry, answers duplicates as the in-memory record does if and only if the outcome fits the cap and its error, if any, has a text; larger outcomes answer the fixed refusal. What reachable journals and rebuilt records answer is ServingRuns.OutcomeStands and ServingReplies.RebuiltRecordsReplay. |
| `CallJournal.ReloadReplays` | server/journal.go:141-171 | What an entry completed with any outcome answers once it is read back, and that this is the outcome itself if and only if it fits the cap and its error text is not empty. |
| `CallJournal.EmptyErrorTextIsLost` | server/journal.go:164-166 | An error without text comes back from disk as a success without output. |
| `CallJournal.CollectionIsInvisible` | server/journal.go:174-187 | Dropping lapsed entries changes neither the open charges nor anything a later reload answers. |
| `CallJournal.Journaling.Charged` | server/journal.go:78-83 | Stores an open entry of caller and price under the key, in memory and on disk, and touches no other. |
| `CallJournal.Journaling.Complete` | server/journal.go:87-112 | Completes the key's entry with outcome and expiry, keeping the outcome only within the cap; unknown keys are ignored. |
| `CallJournal.Journaling.Remove` | server/journal.go:114-122 | Takes out exactly the key. |
| `CallJournal.Journaling.Interrupted` | server/journal.go:126-136 | Returns exactly the entries not marked done. |
| `CallJournal.Journaling.Rebuilt` | server/journal.go:149-167 | The record built for one completed entry, a new object, is closed, expires with the entry and answers what the reload specification says. |
| `CallJournal.Journaling.CompletedRecords` | server/journal.go:141-171 | Builds one closed record, a new object, for each completed entry still within its expiry, answering what the reload specification says. |
| `CallJournal.Journaling.Gc` | server/journal.go:174-187 | Removes exactly the completed entries whose expiry has passed. |
| `TokenBucket.AdmissionBound` | server/harness.go:425-445 | In any interval of T seconds one peer is admitted at most C + C*T/60 calls, whatever the others do and whatever the bucket held. |
| `TokenBucket.TokensPay` | server/harness.go:425-445 | The tokens a bucket holds plus its refill pay for every admission until the end of the run. |
| `TokenBucket.RunKeeps` | server/harness.go:425-445 | The state a run leaves is one the bound applies to again. |
| `TokenBucket.AdmitsExactly` | server/harness.go:425-445 | By arithmetic: a new caller is admitted, any other exactly when what its bucket held and limit/60 a second since make a whole token. |
| `TokenBucket.BurstAdmitted` | server/harness.go:425-445 | A caller whose bucket holds n tokens, or is new, gets its next n calls, n up to the limit, whatever others do. |
| `ServingHarness.Harness.constructor` | server/harness.go:86-125 | An empty claim table over the given ledger and journal, with 30 calls a minute unless a positive limit is configured. |
| `ServingHarness.Harness.Sweep` | server/harness.go:249-254 | Forgets exactly the records whose expiry has passed; one in progress has none and stays. |
| `ServingHarness.Harness.ClaimCall` | server/harness.go:246-264 | Reports a duplicate exactly when an unexpired record holds the key; otherwise a new, open record takes it. |
| `ServingHarness.Harness.ReleaseCall` | server/harness.go:268-273 | The key is free again, and whoever waits on the record hears three nils. |
| `ServingHarness.Harness.CompleteCall` | server/harness.go:275-284 | The record answers the outcome for thirty minutes, and the journal entry of the key, if any, is completed with the same expiry. |
| `ServingHarness.Harness.TakeToken` | server/harness.go:425-445 | A first call of a peer is admitted from a full bucket; any call takes one token if there is one, refilled at limit/60 a second up to the limit; nobody else's bucket changes. |
| `ServingHarness.Harness.Charge` | server/harness.go:391-405 | Debits the price, or leaves the ledger alone and quotes exactly what is missing. |
| `ServingHarness.Harness.Serve` | server/harness.go:329-375 | What the owner of a claim does, case by case: rate limited, else without a price, else quoted exactly what is missing, else run; it pays exactly when the handler ran without error, a call that ran fills its record and completes its journal entry, any other leaves no claim. |
| `ServingHarness.Harness.ChargeCall` | server/harness.go:351-359 | Charges and, for a keyed call, journals the charge as open; a call that cannot pay changes neither ledger nor journal. |
| `ServingHarness.Harness.Conclude` | server/harness.go:364-374 | A failed paid call is refunded its price, and a claimed one is completed in its record and in the journal. |
| `ServingHarness.Harness.HandleCall` | server/harness.go:305-375 | The whole handler, nothing beside it, decided by the prior state alone: a duplicate exactly when an unexpired record holds the key, else rate limited, else no price, else a quote of what is missing, else the handler's outcome; with every balance, claim, bucket and journal entry afterwards. |
| `ServingHarness.Harness.HandleKeyed` | server/harness.go:310-375 | The same behind a usable call key. |
| `ServingHarness.CallKeysApart` | server/harness.go:305-316 | Callers whose names have no bar never share a claim: equal keys mean equal callers and equal call keys. |
| `ServingHarness.Harness.Reconcile` | server/harness.go:136-144 | Every caller gets back exactly the open charges in its name, and no open entry is left. |
| `ServingHarness.Harness.OpenJournal` | server/harness.go:130-151 | Start-up: open charges refunded once, completed outcomes become the claim table, lapsed entries go. |
| `ServingHarness.RefundOne` | server/harness.go:136-144 | One refund moves its amount from what is owed to the caller's balance and changes no other caller's sum. |
| `ServingInvariant.StepKeepsShape` | server/harness.go:305-375 | Every step of every interleaving keeps: each active owner holds its key in the table, each open entry belongs to an owner in progress at exactly its price, each completed one retains the latest outcome executed for its key and belongs to a record that outlives it and answers that outcome, or, rebuilt after a restart, what the journal replays of it. |
| `ServingInvariant.StepKeepsFor` | server/harness.go:305-375 | The same for one key, asking claims to be timely for that key alone. |
| `ServingInvariant.StepCore` | server/harness.go:246-284 | Every step, timely or not, keeps: an owner still holding its claim is the one in the table, records and owners agree phase by phase, and identities are not reused. |
| `ServingBooks.StepBalances` | server/harness.go:351-374 | Every step, crash and reconciliation keeps the equation that accounts for all credited atoms. |
| `ServingInvariant.SweepPaper` | server/harness.go:249-257 | Sweeping table and journal at one instant drops an outcome from both or from neither. |
| `ServingRuns.RunKeeps` | server/harness.go:127-151 | The invariant holds in every run with any crashes and restarts. |
| `ServingRuns.PlayIsLinked` | server/harness.go:246-284 | In any run, timely or not, every claim, owner and waiter refers to a record that exists, so that condition of each step restricts nothing. |
| `ServingRuns.ConservationOfAtoms` | server/harness.go:351-374 | Balances, open charges, completed prices and atoms in transit add up to all credited atoms less what crashes lost plus what they repaid twice; and crashes cost nothing if and only if each avoids the three windows. |
| `ServingRuns.BooksAtRest` | server/ledger.go:74-95 | Outside the windows, balances + open charges + prices of calls completed without error = total credited. |
| `ServingRuns.CrashCost` | server/harness.go:352-358 | A crash costs nobody anything if and only if no call stands in a window. |
| `ServingRuns.CostOfCrashes` | server/harness.go:368-372 | Over a run, lost and doubly refunded atoms never shrink, and stay as they are if and only if every crash avoids the windows. |
| `ServingRuns.OneExecutionPerKey` | server/harness.go:246-284 | In every run, however late claims come and whatever crashes, no two calls under one key are between claim and record at the same time, so their handlers never overlap: a claim in progress has no expiry and is never swept. |
| `ServingRuns.OneOwnerPerKey` | server/harness.go:246-284 | With timely claims of the key, not even a finished call that is not journaled yet overlaps another call under it. |
| `ServingRuns.TimelinessIsExact` | server/harness.go:275-284 | Key by key, a claim leaves every active owner in possession of its key if and only if no outcome of that key already in a record has outlived it without reaching the journal. |
| `ServingRaces.OvertakenByASecondOwner` | server/harness.go:246-284 | A run from the first start in which a finished call, its outcome in the record and not in the journal for longer than the record lives, is overtaken by a second owner of its key whose handler starts. |
| `ServingWalks.PaidCallIsServed` | server/harness.go:305-375 | From every good state, so from every point of every run, a covered paid call of a vacant key runs once and is answered with what it returned; a success costs its price, which is earned, a failure nothing; record and journal keep the outcome for thirty minutes. |
| `ServingWalks.ShortCallIsQuoted` | server/harness.go:391-405 | From every good state, a price above the balance is quoted with exactly what is missing; nothing runs, nothing is charged and the key is vacant again. |
| `ServingWalks.DuplicateIsReplayed` | server/harness.go:317-328 | Up to thirty minutes later a duplicate hears that outcome, with no second start and no second charge; a crash and restart in between changes that only for answers above 64 KiB, errors without text and the last second. |
| `ServingWalks.InterruptedCallIsRefunded` | server/harness.go:130-151 | A crash while the handler of a paid call runs, and a restart: every balance is what it was, and the key is vacant. |
| `ServingRuns.OutcomeStands` | server/journal.go:85-171 | Until its journaled expiry a paid outcome stays what it is, across calls, crashes and restarts, with claims timely for its key: the journal keeps it as completed with that outcome, and while the server is up the key's record answers it, a rebuilt record as the journal replays it. |
| `ServingRuns.NeverTwiceBeforeExpiry` | server/harness.go:246-284 | Once a paid outcome is journaled, the handler starts again for that key only after the journaled expiry, across any crashes and restarts, with claims timely for that key alone. |
| `ServingReplies.DuplicatesHearTheOwner` | server/harness.go:317-328 | In every run a duplicate that waited on a claim of this life answers, if and only if that claim was answered, the outcome of the execution made for its record, which is what the owner answered; and three nils if the owner was refused. |
| `ServingReplies.RebuiltRecordsReplay` | server/journal.go:138-171 | In every run a duplicate answered off a record rebuilt after a restart concerns a finished execution of its key, and hears its outcome if and only if the outcome fits the cap and its error text is not empty; a success without output if only the text is missing; the fixed refusal above the cap. |
| `Passthrough.AtMostSevenCallsOnePayment` | bridge/session.go:113-172 | One agent-visible call makes at most seven remote calls and hands the rail at most one payment, of a positive amount, counting one whose outcome is not known when the call gives up on it. |
| `Passthrough.SevenCallsHappen` | bridge/session.go:149-160 | The bound of seven is reached. |
| `Passthrough.BotLink.Dial` | bridge/session.go:90-109 | Keeps an open session, else opens one if it can. |
| `Passthrough.BotLink.Reset` | bridge/session.go:137-139 | Drops the session. |
| `Passthrough.Relay` | bridge/session.go:113-172 | The retry, pay and poll loop does what the world's answers, call by call, make of it: its calls, payments and answer are those of the run that follows them, the last reply being a result exactly when that result is relayed. |
| `Passthrough.Attempts` | bridge/session.go:124-172 | The loop alone: each event of its run is the one the world gives at that point. |
| `Passthrough.CallBot` | bridge/session.go:125-141 | Dials exactly when no session is open, and returns exactly the reply the bot gave, or none when dialing or the call failed; a lost call drops the session. |
| `Passthrough.UnreachedFails` | bridge/session.go:125-141 | No session to be had, or the first call and its one retry lost: an unpaid failure after none, one or two calls. |
| `Passthrough.FirstReplyDecides` | bridge/session.go:142-163 | The first reply decides: a result is relayed as it is; a quote is paid its shortfall, or else its price, exactly when that is positive and not declined, and the call goes on exactly when the payment is confirmed. |
| `Passthrough.LastReplyDecides` | bridge/session.go:142-160 | A call that was paid for is repeated while it is quoted again and its caller waits, seven calls in all; the last reply decides, and a result is relayed as it is. |
| `EndToEnd.OneCallOneExecutionOneCharge` | bridge/session.go:113-172 | Over a losing, duplicating, delaying network: at most seven calls; at most one payment handed to the rail, confirmed or not, between one atom and a price quoted for the key; at most one handler start; and a net charge of exactly the price of that execution if it succeeded and nothing if it failed. |
| `EndToEnd.TheAgentHearsTheExecution` | bridge/session.go:142-145 | An outcome the relay hands to the agent came off a record of its key: it is what the key's one execution returned if and only if that record was answered, and three nils if and only if the claim was given up; where no claim on the key was given up it is the execution's. |
| `EndToEnd.UnseenKeyIsFresh` | server/harness.go:127-151 | Whatever a server has been through since its first start, it meets the premises of the end-to-end theorems for any key it has not seen. |
| `PaidAnswers.PaidCallGoesThrough` | bridge/session.go:113-172 | For every server a fresh call finds, every price above the caller's balance and every outcome there is a run in which the agent pays exactly what is missing and hears that outcome, after two calls and one execution; a success leaves the caller nothing, a failure the price it paid in. |
| `EmptyAnswers.NothingRanYetAnswered` | server/harness.go:268-273 | A run in which a reissue waits on a claim that is then refused, and the agent is handed an empty success although nothing ran. |
| `OneKey.StepOnce` | server/harness.go:305-375 | Every server step keeps, with no timing asked of other keys: the key's handler started at most once and its net charge is what its one execution costs. |
| `EndToEnd.StepHonest` | server/harness.go:391-405 | Quotes have a positive price and a shortfall within it, and once given stay given. |
| `Decimal.PrintReads` | wire/wire.go:110-111 | Reading a printed 64-bit decimal gives the number back. |
| `Base64.EncodeDecodes` | wire/wire.go:109 | Decoding an encoding gives the bytes back (RFC 4648 section 4). |
| `Base64.EncodedShape` | wire/wire.go:70 | An encoding uses only the alphabet the envelope admits, with padding to a multiple of four. |
| `Base64.DecodeEncodes` | wire/wire.go:176 | A text that decodes is the encoding of its bytes if and only if its leftover bits are zero: the decoder admits others. |
| `Base64.TestVectors` | wire/wire.go:109 | The test vectors of RFC 4648 section 10 for "f", "fo" and "foobar". |
| `Base64.GroupIsNumber` | wire/wire.go:109 | Four characters are the base-64 digits of the number whose base-256 digits are the three bytes. |
| `Text.SplitJoin` | wire/wire.go:126-127 | Splitting undoes joining of fields without the separator. |
| `Wire.Encode` | wire/wire.go:83-114 | Rejects an sid that is not 1 to 32 lower-case hex digits, an empty payload and one of more than 64 chunks, exactly; otherwise yields one envelope per slice. |
| `Wire.Parse` | wire/wire.go:119-182 | Reads a text as the parsing specification does, field by field, refusing what it refuses. |
| `Wire.FormatIs` | wire/wire.go:102-110 | The text of an envelope, spelled out. |
| `Wire.FormatParses` | wire/wire.go:110-182 | Parsing a printed part gives the part back. |
| `Wire.SurroundedParses` | wire/wire.go:119-124 | White space around an envelope changes nothing. |
| `Wire.UnknownFieldIsIgnored` | wire/wire.go:127-169 | A header field of another name changes nothing. |
| `Wire.LaterFieldCounts` | wire/wire.go:127-169 | Of two deadlines in one header the later one counts. |
| `Wire.EncodeParses` | wire/wire.go:83-182 | The i-th string parses to sid, mid, number i+1, the total, the deadline and the i-th slice; the slices are just enough and concatenate to the payload. |
| `Wire.ParsedIsWellFormed` | wire/wire.go:170-181 | Whatever the text, a returned part has valid ids, 1 <= number <= total <= 64 and a non-empty chunk. |
| `Reassembly.Assembler.constructor` | wire/wire.go:232-238 | Starts empty under the configured or default bounds. |
| `Reassembly.Assembler.DropLocked` | wire/wire.go:302-310 | Removes one message and keeps the three counters in agreement with the rest. |
| `Reassembly.Assembler.GcLocked` | wire/wire.go:312-319 | Removes exactly the expired and stalled messages. |
| `Reassembly.Assembler.Add` | wire/wire.go:244-300 | The counting implementation answers and changes state as the counter-free specification, and keeps counters equal to what they count and within their bounds, each pending message holding 1 to total-1 parts numbered in 1..total. |
| `Reassembly.AddedByCases` | wire/wire.go:244-262 | Add by the cause of its answer: a passed deadline; a message of one part, complete at once within the size limit; else what the next row says of the messages that are neither expired nor stalled. |
| `Reassembly.AddedPartByCases` | wire/wire.go:263-281 | One of several parts: too many messages of the peer, another part count, a repeat, or a part to store. |
| `Reassembly.ExtendedByCases` | wire/wire.go:282-300 | A part to store: beyond a bound, still incomplete, or the last one, which answers all parts in order. |
| `ReassemblyRuns.ReassembledUnderAnySchedule` | wire/wire.go:244-300 | In any order, with any repeats and other traffic, parts are answered with nothing until the last missing one, then with exactly the payload. |
| `ReassemblyRuns.SingleIsDelivered` | wire/wire.go:248-253 | A message of one part, within the limit and its deadline, is answered with its chunk at any point of any schedule, and nothing pending changes. |
| `ReassemblyRuns.RepeatAfterCompletionReopens` | wire/wire.go:259-274 | A repeat after completion opens the message afresh. |
| `ReassemblyRuns.KeyIsUnambiguous` | wire/wire.go:259 | The pending key names one peer, sid and mid. |
| `ReassemblyRuns.PayloadCrossesTheWire` | wire/wire.go:83-300 | Encode, any carriage, Parse and Add together deliver the sender's payload, of one part or several. |
| `RollingCap.NextKeeps` | bridge/payment.go:94-126 | Check-then-record with at most k payments in between keeps every window within cap + (k-1) * per-payment cap, also when the clock was read before the lock for the check or for the record. |
| `SpendLog.PruneIsTransparent` | bridge/payment.go:325-343 | Pruning keeps a suffix of at least the newest 1000, drops no pending entry and none that counts in the last day, changes no rolling total now or later, and stops at 1000 or at an entry that must stay. |
| `SpendLog.PruneOnce` | bridge/payment.go:325-343 | Pruning twice at one instant is pruning once. |
| `SpendLog.SpentOne` | bridge/payment.go:304-323 | An entry counts its atoms from its own second on, unless it failed or was refused. |
| `SpendLog.MarkedIs` | bridge/payment.go:260-271 | A mark changes status and error of the first entry with the number, and nothing else. |
| `SpendLog.ResolvedIs` | bridge/payment.go:279-302 | A late outcome closes the oldest pending entry of the amount and the payee, in whatever case: paid when settled, failed with the error if not. |
| `SpendLog.SpendBook.SpentAfter` | bridge/payment.go:314-323 | The loop sums exactly the counted entries since the cutoff. |
| `SpendLog.SpendBook.Persist` | bridge/payment.go:325-349 | The log becomes its pruned form, and the file the same without numbers. |
| `SpendLog.SpendBook.RecordSpend` | bridge/payment.go:228-240 | Appends a pending entry with the next number, then prunes. |
| `SpendLog.SpendBook.Refuse` | bridge/payment.go:245-256 | Appends a refused entry, then prunes. |
| `SpendLog.SpendBook.MarkSpend` | bridge/payment.go:260-271 | Changes exactly the first entry with the number, or nothing. |
| `SpendLog.SpendBook.ResolveSpend` | bridge/payment.go:279-302 | Closes exactly the oldest pending entry of the payee and amount, or reports that there is none. |
| `Settlement.Settle` | bridge/payment.go:85-142 | One payment by cases: nothing due, over the cap per call, over what the last day leaves of the daily cap, declined, or paid; the error returned, and the one entry the log gains, refused, paid, failed or pending as the case is. |
| `Settlement.GainedSpends` | bridge/payment.go:304-343 | With that entry the total of the last day grows by exactly what the entry counts. |
| `SpendRuns.PassesExactly` | bridge/payment.go:86-109 | A payment passes the check if and only if something is due, it is within the cap per call, and with everything recorded in the last day, pruned or not, within the daily cap. |
| `SpendRuns.LaunchIsEntered` | bridge/payment.go:124-126 | What passed goes to the rail with a pending entry of its amount. |
| `SpendRuns.OutcomeIsEntered` | bridge/payment.go:129-139 | The rail's outcome marks the payment's own entry. |
| `SpendRuns.TotalIsTrue` | bridge/payment.go:314-343 | The total read from the pruned log is the total over everything ever recorded. |
| `SpendRuns.Refines` | bridge/payment.go:85-142 | Every step of settling, marking, resolving, refusing and restarting that reopens no closed entry is a step of the abstract meter. |
| `SpendRuns.DailyCap` | bridge/payment.go:94-126 | With at most k settlements between check and record and no closed entry reopened, the spend of every 24-hour window is at most the daily cap plus k-1 per-call caps; nothing when a cap is not positive. |
| `SpendRuns.DailyCapOneAtATime` | bridge/payment.go:94-126 | With one settlement at a time the daily cap is exact. |
| `SpendRuns.PruningIsInvisible` | bridge/payment.go:308-349 | In every run the total the cap check reads is that of the last 24 hours of everything recorded. |
| `SpendRuns.LateOutcomesReopenNothing` | bridge/payment.go:273-302 | While late outcomes only reach entries whose settle has returned, every payment on the rail keeps its pending entry and nothing is reopened. |
| `SpendRuns.DailyCapWithLateOutcomes` | bridge/payment.go:94-142 | Hence the cap holds whenever late outcomes are only fed to payments that stopped waiting. |
| `SpendRuns.FailingALiveEntryReopens` | bridge/payment.go:260-302 | In every run, a late failure that lands on a live entry is undone by that payment's own success if and only if pruning has not dropped the entry. |
| `SpendRuns.NumbersAreUnique` | bridge/payment.go:228-240 | In every run each payment of the process has a number of its own. |
| `SpendRuns.ReopeningBreaksTheCap` | bridge/payment.go:137-139 | Such a run spends 20 atoms in a window under a cap of 10, one settlement at a time. |
| `FundHistory.Registrant.Total` | directory/registrant.go:315-325 | The loop sums exactly the entries since the cutoff. |
| `FundHistory.Registrant.Record` | directory/registrant.go:297-313 | Appends the entry in memory and on disk. |
| `FundHistory.TotalGrows` | directory/registrant.go:315-325 | An entry counts its atoms from its own second on. |
| `FundHistory.Registrant.AllowFund` | directory/registrant.go:224-251 | Allows exactly when the policy is enabled, names the directory or none, and the amount is within the cap per request and, with the last 30 days, the cap per month; a cap that is not positive does not restrict. |
| `FundHistory.Registrant.FundListing` | directory/registrant.go:191-212 | Exactly then, or when nothing is due, it goes on; the entry is written before the payer is asked, and nothing is written or asked otherwise. |
| `FundRuns.MonthlyCap` | directory/registrant.go:191-251 | With a monthly cap and at most k registrations between check and record, every 30-day window records at most the cap plus k-1 largest requests; with one, at most the cap; the clock is read before the lock, at the check and at the record. |
| `FundRuns.Refines` | directory/registrant.go:191-251 | Every step of a registration that goes on is a step of the abstract meter or leaves it alone. |
| `FundRuns.RecordedFirst` | directory/registrant.go:197-206 | Crashes included, recorded atoms are at least those handed to the payer, and every entry obeyed the policy. |
| `TipMatcher.Matcher.Expect` | bridge/tipmatcher.go:37-43 | Appends a new waiter that has heard nothing. |
| `TipMatcher.Matcher.Resolve` | bridge/tipmatcher.go:49-60 | The oldest match hears the result and leaves the list; nobody else is touched. |
| `TipMatcher.Matcher.Cancel` | bridge/tipmatcher.go:66-75 | Takes out exactly that waiter, if it waits. |
| `TipMatcher.VerdictIs` | bridge/tippayer.go:94-104 | A completed tip has settled; another one has failed with the attempt's error or the fixed text, unless it is retried. |
| `TipMatcher.TipPayer.Progress` | bridge/tippayer.go:94-113 | A completed tip is heard as settled, a dead one as failed with the attempt's error or the fixed text, by the oldest match, or else by the late handler when it is of whole atoms; a retried one by nobody. |
| `TipMatcher.TipPayer.Expire` | bridge/tippayer.go:73-82 | The wait ends, and an outcome that came in the same instant goes to the late handler. |
| `Tips.NextKeeps` | bridge/tippayer.go:57-113 | Every step keeps waiters, result boxes, what is on its way to the late handler and the fates of all events in agreement, a dispatch that errs after its tip left included. |
| `TipRuns.FirstComeFirstServed` | bridge/tipmatcher.go:49-60 | No payment is given two events, and events of one payee and amount go to payments in the order these began. |
| `TipRuns.EveryEventArrives` | bridge/tippayer.go:67-113 | With no payment open and nothing on its way, every terminal event of whole atoms was returned by a payment, handed to the late handler, or lost, and exactly those of other amounts were ignored. |
| `TipRuns.LossIsExact` | bridge/tippayer.go:63-111 | A step loses an event exactly when it crashes while a payment holds the event or the event is on its way to the late handler, or errs in the dispatch of the payment already given it. |
| `TipRuns.HandedOverOnce` | bridge/tippayer.go:67-111 | In every run an event is handed over at most once, by a payment that returns with it or by one call of the late handler, and exactly when its fate says so. |
| `TipRuns.NothingLost` | bridge/tippayer.go:57-113 | Without crashes and dispatch failures no event is lost. |
| `TipRuns.SuccessIsSettled` | bridge/tippayer.go:68-72 | Pay returns success only after a completed event for its payee and amount, given to it alone. |
| `TipSettlement.SettledTipsAreRecorded` | bridge/payment.go:129-139 | For each payee and amount, pending and paid entries, counting pruned ones, are at least the tips that left less those that failed, and never fewer than the settled ones. |
| `TipSettlement.NextKeeps` | bridge/payment.go:260-302 | Every step of the bridge and the payer together keeps that account for every payee and amount. |
| `Directory.Store.Get` | directory/store.go:142-147 | Reads the stored or the zero value. |
| `Directory.Store.Put` | directory/store.go:149-154 | Stores one value and changes no other. |
| `Directory.Store.Mutate` | directory/store.go:159-168 | Applies the change to the stored or zero value, or leaves everything alone when it declines. |
| `Directory.Store.Delete` | directory/store.go:170-178 | Removes exactly the key. |
| `DirectoryEntry.WithDefaults` | directory/service.go:93-113 | Each of fee, expiry days and budget ceiling comes out as set when positive, and as 100000 atoms, 30 days and 10000000 atoms otherwise. |
| `Directory.Service.Register` | directory/pipeline.go:39-55 | A running verification keeps its registration; any other entry gets a new one, field by field: awaiting funding, the terms and the fee frozen, no key, nothing paid, a renewal exactly when the provider is listed; the listing and the note stay. |
| `Directory.Service.PokeFunding` | directory/pipeline.go:145-170 | The registration moves on exactly when it awaits funding and the balance covers fee and budget, and then the fee, and nothing else, leaves the balance. |
| `Directory.Service.Spawn` | directory/service.go:363-383 | A pipeline starts exactly when the service is started and not closed and none runs for the provider. |
| `Directory.Service.PipelineEnds` | directory/service.go:374-380 | A pipeline that ends lets another one start for its provider, and no other. |
| `Directory.Service.Park` | directory/pipeline.go:258-274 | Moves the registration, if any, to review as failed. |
| `Directory.Service.RunPipeline` | directory/pipeline.go:175-255 | Alone: failures park, interruption leaves the state to resume with its key, a passed renewal is listed with the date of the first approval kept, a passed first registration awaits review. |
| `Directory.Service.Promote` | directory/pipeline.go:278-307 | Lists a registration whose outcome is ok and clears it, or changes nothing. |
| `Directory.Service.Approve` | directory/pipeline.go:311-317 | Lists exactly a parked registration whose outcome is ok. |
| `Directory.Service.Reject` | directory/pipeline.go:321-332 | Discards any registration, noting a reason that is not empty; the listing stays. |
| `Directory.Service.SpotCheck` | directory/admin.go:326-359 | Exactly for a live listing without a registration whose balance covers the budget: a test of the listed terms, free, with a call key, as a renewal. |
| `Directory.Service.Expire` | directory/pipeline.go:372-396 | A lapsed listing goes, with the whole entry unless a registration remains. |
| `Directory.Service.CreditTip` | directory/service.go:290-299 | A positive tip is credited to its sender, and moves the sender's registration on, taking the fee, when it completes the funding. |
| `PipelineRuns.StepKeeps` | directory/pipeline.go:175-332 | Every step keeps: dates, call keys, fees and terms in order, and the pipeline attached to the registration it read unless that one was taken away. |
| `PipelineRuns.AlwaysInOrder` | directory/pipeline.go:145-170 | In every run: a registration under test has a call key, a listing expires after it was verified, and fees left the balance once per registration that moved on, at the frozen amount, except what a crash between debit and move took. |
| `PipelineRuns.TermsAreFrozen` | directory/pipeline.go:44-53 | Between any two points of a run a registration keeps its terms, fee and kind, and a listing that came of it shows those terms. |
| `PipelineRuns.OrphanedExactly` | directory/pipeline.go:321-332 | A pipeline loses its registration exactly by a rejection, a deletion or a publication that takes it. |
| `PipelineRuns.StaleExactly` | directory/pipeline.go:195-243 | A pipeline's write lands on a registration it did not read if and only if its own was taken away and another one made since. |
| `PipelineRuns.NothingTakenNothingStale` | directory/pipeline.go:195-243 | If nobody takes a registration from a running pipeline and approvals meet what the administrator saw, no write goes astray. |
| `ListingSafety.OnlyTestedAreListed` | directory/pipeline.go:278-317 | Then every publication is of a registration whose own test the pipeline ran and saw passed, and which an administrator saw parked and approved unless the provider was listed when it registered; the listing shows the frozen terms, approved <= verified < expires; recorded payments stay within the budget. |
| `ListingSafety.RenewalsWereListed` | directory/pipeline.go:46-53 | In every run, whatever goes astray, a registration or publication marked as a renewal is of a provider that was listed when the registration was made. |
| `ListingSafety.NotesAreTrue` | directory/pipeline.go:227-317 | In every run, a registration noted as passed had its test run and passed, and an approval was of a registration an administrator saw parked. |
| `ListingSafety.RenewalSkipsReview` | directory/pipeline.go:227-307 | From every point of every run at which a provider is listed and nothing is under way, it can renew: it pays fee and budget, its test passes, and the pipeline lists the new terms for another period with no administrator, keeping the date of approval. |
| `ListingSafety.KeyIsKept` | directory/pipeline.go:191-206 | Between any two points of a run in which no write goes astray, a registration keeps the call key it had. |
| `ListingSafety.RejectedDuringTest` | directory/pipeline.go:227-243 | A run from the start, for any policy and terms: a registration is rejected during its test, the result lands on a new, unfunded one, and an approval lists that. |
| `ListingSafety.ExpiryTakesARegistration` | directory/pipeline.go:372-381 | A run from the start: between the two sections of an expiry the provider registers and pays, and loses both. |
| `SpendJournal.Journal.Record` | directory/client.go:78-83 | Appends an entry and returns its position. |
| `SpendJournal.Journal.Remove` | directory/client.go:86-97 | Removes exactly what is at the position; later entries move up by one. |
| `SpendJournal.TokenNamesItsEntry` | directory/client.go:78-92 | A token still names its own entry if and only if no entry at or before it has been removed since. |
| `SpendJournal.RemovalIsOwn` | directory/client.go:86-97 | Undisturbed, removal by token finds the entry that was recorded. |
| `SpendJournal.SecondFailureHidesAThird` | directory/client.go:86-92 | Two failures in order of recording hide the entry of a third payment. |
| `TestCall.PaidCall` | directory/client.go:168-258 | What dialing, replies, payment and pauses give decides the answer, the number of calls and the payment, case by case: at most nine calls, one payment within the limit; the escrow debit precedes it and returns only on a definitive failure; the journal shows every payment but such failures. |
| `TestCall.PayQuote` | directory/client.go:218-256 | A quote is paid its shortfall, or else its price, exactly when that is positive, within the limit and covered by the escrow. |
| `TestCall.Repeat` | directory/client.go:204-217 | After the payment the call is repeated, seven times at most and with pauses, until a result or an error comes. |
| `TestCall.Pay` | directory/client.go:228-254 | Debits the escrow before it journals and hands over the payment, and takes both back on a definitive failure only. |
| `TestCall.RunTest` | directory/client.go:263-293 | Passes if and only if the call has a result, at once or after a confirmed payment within the budget left, and it is no error; adds to the total exactly a confirmed payment, so it never passes the budget and covers what the escrow lost when the test passes. |
| `EscrowRuns.TipsAreEscrowed` | directory/client.go:228-253 | With outcomes that reach their own payment, across any crashes: test tips that left or still may are covered by debits not refunded, and those by the provider's credits less its other charges. |
| `EscrowRuns.StrandedExactly` | directory/client.go:228-250 | Escrow is stranded if and only if a crash falls between debit and hand-over or between failure and refund. |
| `EscrowRuns.EscrowAtRest` | directory/client.go:228-253 | Without such crashes, what the escrow lost is exactly what is on the rail or left it. |
| `EscrowTips.TipsAreFunded` | directory/client.go:228-253 | Over the payer's oldest-first matching, whatever crashes and restarts: however tips are weighed by payee and amount, those that reached the rail less those that failed are covered by debits not refunded and payments without escrow. |
| `EscrowTips.SettledTipsAreDebited` | directory/client.go:228-253 | For each amount, the tips that settled toward the provider are at most its debits of that amount not refunded and the payments of that amount made to it without escrow, even when a refusal reaches a payment whose own tip left. |
| `EscrowTips.EscrowCoversTips` | directory/client.go:228-253 | In atoms, the tips that left less the failed ones are covered by test debits not refunded and payments without escrow; and those debits never exceed what was credited to the provider less its other charges. |
| `TipJournal.Journal.constructor` | server/tipjournal.go:32-48 | Reading the file rebuilds the set from the list, whatever the file holds; the list of a file the journal wrote has no repeats and at most 1000 ids. |
| `TipJournal.Journal.Seen` | server/tipjournal.go:51-55 | Answers whether the id is in the list. |
| `TipJournal.Journal.Record` | server/tipjournal.go:58-85 | Appends a new id and keeps the newest 1000, exactly; set and list stay equal and without repeats. |
| `TipCredits.ReceiveTip` | server/bot.go:143-161 | A tip of an allowed peer that the journal does not hold is credited its atoms in thousands, rounded down, and nobody else's balance changes; every tip is recorded once. |
| `TipCredits.OncePerTip` | server/bot.go:139-161 | However the allowed peers change, every peer's credit is the sum of the whole atoms of the distinct tips it sent while allowed and not in the journal, if and only if no credited tip came again while its peer was allowed and the journal did not hold it; otherwise it is more. |
| `TipCredits.PromptNeverRepeats` | server/tipjournal.go:58-72 | That holds when no crash falls between credit and record and no tip is redelivered after 1000 newer ones were recorded. |
| `TipCredits.PromptEarnsFirst` | server/bot.go:143-161 | In a prompt run exactly the tips whose peer was allowed when they first came earn credit; a later permission earns nothing. |
| `TipCredits.CrashCreditsTwice` | server/tipjournal.go:19-24 | A crash between credit and record credits that tip, and no other, a second time. |
| `Router.OpenAgrees` | transport.go:240-242 | Opening a session keeps the counters right if and only if its key is not in use. |
| `Router.CloseAgrees` | transport.go:228-239 | Closing by key keeps the counters right. |
| `Router.LiveIsCount` | transport.go:216-243 | What the counters are proved equal to is the number of the peer's sessions in the table. |
| `Router.Switchboard.Deliver` | transport.go:163-185 | A message finds its session; without one it opens one exactly when sessions are accepted and the peer's count is below a positive limit, and is dropped otherwise; table and counters afterwards. |
| `Router.Switchboard.Dial` | transport.go:207-214 | Opens a session under a fresh id unless the router is closed. |
| `Router.Switchboard.CloseConn` | transport.go:321-329 | The first close takes the session out once; later ones do nothing. |
| `Router.Switchboard.Close` | transport.go:246-261 | Alone: no session and no count is left, every connection is done. |
| `Router.Switchboard.CloseAll` | transport.go:249-259 | The loop over the sessions found leaves none in the table and each of them done. |
| `RouterRuns.CountersAgree` | transport.go:216-243 | In every interleaving peers[p] is the number of p's sessions in the table, and inbound ones never exceed a positive limit. |
| `RouterRuns.FreePlaceIsGiven` | transport.go:163-185 | In every interleaving, a message opens a session if and only if the router is open and accepts sessions, none has its key, and the peer has fewer sessions than a positive limit. |
| `RouterRuns.NothingSurvivesClose` | transport.go:246-261 | A Close that waited for every session it found leaves an empty table. |
| `RouterRuns.KeysApart` | transport.go:163-163 | A session key names one peer and one session id. |

## Left out

- File formats and file errors: each persist is one atomic, successful write of a value; JSON and mkdir/rename are not modelled, so error returns of Credit, Record and persist that only a failing disk produces are absent.
- Integer width: sums of atoms, byte counts and `len + chunkSize - 1` in Encode are unbounded integers, so int64 overflow is not modelled.
- Text encoding: PM bodies and uids are sequences of characters; UTF-8 decoding of invalid bytes is not modelled, and EqualFold is case folding of ASCII letters, which covers hex uids.
- Floating point: TokenBucket uses exact reals in place of float64.
- Calls without a usable key: the serving machine covers keyed calls; the handler method covers both.
- The rail: it is modelled by its contract that an error before the deadline means no money moved; late handlers set to nil, which drop outcomes, are not modelled.
- Redelivered tip-progress events: each terminal event is fed once; a host that feeds one twice after a crash could close two entries for one failure.
- Waiting for approval: awaitApproval, the pending queue and its listing only delay or drop a payment between check and record, which the machine allows at any time; Settlement.Settle takes the user's decision as a parameter.
- Settlement.Settle: one payment with nothing beside it; overlapping ones are in SpendRuns.
- MCP SDK, HTTP handler, bearer token, settings, allowlists, reconnect loops, command mains, signing, snapshots, search, tags, leads and the admin log: plumbing or easy filters.
- Conn.Read, Conn.Write and inbox overflow: an overflow is a close of the session, which may happen at any time.
- Router.Switchboard.Dial: the session id is fresh by its precondition, as random ids are; RouterRuns has the interleavings.
- Reassembly.Assembler.Add: it takes parts numbered within their total, as Parse returns them.
- ServingHarness.Harness.HandleCall: the handler's outcome has no tool result, and no output beside an error, as the handler builds it.
- TipJournal.Journal.Record: it takes a journal whose list has no repeats and at most 1000 ids, as it leaves it itself; a file edited by hand is only read back.
- ServingHarness.Harness.OpenJournal: the claim table is empty, as the constructor leaves it.
- EndToEnd.OneCallOneExecutionOneCharge: requests of the key that arrive after its outcome expired, and crashes during the call, are outside it; ServingRuns covers crashes.
- Directory.Service.Register: the test budget is positive and within the ceiling, as validation leaves it.
- Router.Switchboard.CloseConn: an open connection is in its router's table, as the router made it.
- CallJournal.ReloadRefinesMemory: outcomes are their encoded bytes, which are never empty.
- Harness.servers: the lazily built per-caller MCP servers hold no state of their own.
- validateRegister and normalizeTags: only the test budget's range enters the model; descriptions and tags are opaque text.
- Directory.Service methods: each takes its sections in one go; the races between sections are in Pipeline.
- Pipeline: it follows one provider; other providers' entries are independent because every store operation touches one key.
- Payments of an interrupted test: runTest's PaidAtoms is lost when a shutdown interrupts it, so the budget bounds what the registration records, not what several interrupted runs paid together; EscrowRuns bounds the latter by the provider's credits.
- EscrowRuns.EscrowAtRest: the rail's answer reaches the payment it is about, so the account is exact; EscrowTips drops that, covers payments without escrow too, and bounds.
- Snapshot purchases: PaidCall covers calls without escrow, and EscrowTips counts their payments; what they buy is not modelled.
- Termination of waits and fairness: only safety is stated.
- Aliasing of stored records: entries, messages and outcomes are values, so sharing of Go pointers between readers is not modelled.
