# Verified model of the account submission core

This project models the part of `quant_platform_kit` that decides whether, and how often, an order reaches a
broker: the account submission journal, its writers and its sessions. Around it stand the execution command
store, the arithmetic and the loops that feed admission decisions, and two independent algorithms, linked
artifact download and trading-day arithmetic. `dafny verify dfyconfig.toml` checks everything.

## How the journal is modelled

- `Journal` is the reducer. `Fold` reads a sequence of events and stops at the first event that is not
  acceptable; `Replay` is the value of `read_state`, or None where it raises. The reading loop and the
  evidence loop are methods proved equal to these functions.
- `Writers` holds one decision function per writer: configuration, state read and arguments in, event data or
  refusal out. `CapitalEnvelope` and `RiskBudget` are the arithmetic those decisions call.
- `JournalLaws`, `SnapshotLaws`, `Replayability` and `RiskAccounting` prove what every accepted journal
  satisfies: the attempt automaton, freezing, the hash chain, watermarks, evidence, replayability and reserved
  risk. `WrittenJournals` says what it means that every event of a journal was decided by a writer; `SharedOrder`,
  `CoverLost`, `LateOpen` and `ReusedSource` are concrete journals of that kind that show why four conditions are
  needed.
- `LastWord`, `JournalFacts` and `Readable` describe readers without reducing anything: what the events of a journal
  last said of an attempt, a reservation or the account, and which journals can be read at all. `Answers` and
  `DispatchAnswers` say in the same terms exactly when each writer writes, what it writes, and when dispatch calls the
  broker. These conditions can be checked by a caller before the call, and they do not mention the functions they
  characterise.
- `Protocol` is the concurrent system: any number of sessions over one journal, with stale reads, create
  conflicts, confirmation reads, the writer guard, lost guards and crashes. `Run` executes any list of
  actions, so a statement about `Run(account, actions)` is a statement about every interleaving. `Safety` has
  those statements, and `CallHistory` says what the steps of one call owe to the steps before them.
- `WrittenRuns` shows that every journal of the protocol was decided event by event by writers, and carries what
  holds of decisions over to runs.
- `Sessions` is the session object with its mutable fields. Every writer is a method proved against the pure
  decision, with what other sessions create at each point of the call as explicit arguments. Four refinement lemmas
  prove that calls without such interference are sequences of protocol steps: any write and its confirmation, opening
  the breaker, a dispatch up to the broker call, and a dispatch with its outcome.

## Findings

- **Negative cash.** The recorder checks the sign of balance, equity and flow but not of cash, while the reader
  rejects negative cash (`account_risk_budget.py:26-27` against `execution_state.py:1070`). A snapshot with
  negative cash is therefore created and makes the journal unreadable for good;
  `NegativeCashMakesTheJournalUnreadable` is the input.
- **OPEN behind a binding.** `reserve` checks the breaker on its first read. When it binds the domain it reads again
  and does not repeat that check (`execution_state.py:1586-1587` against `1604-1634`). If a snapshot, a reservation of
  the same order and OPEN arrive in between, it creates a new-risk preparation behind OPEN, which every reader
  rejects. `BindingReserveMayGrantOrEndTheJournal` is the input; without OPEN the same call returns a grant.
- `WriterEventReplaysExactly` and `JournalIsReadableExactly` prove that these two are the only ways in which a
  journal becomes unreadable.
- **Shared orders.** Committed risk can grow during reconciliation when a brake reduction reuses the digest of a
  finished order. `ReconcilingASharedOrderRaisesCommitted` is a journal every event of which a writer decided;
  `ReconcileRaisesExactly` says exactly when a reconciliation raises committed risk or reserved leveraged exposure;
  `QuietRunNeverRaisesCommitted` proves the bound with one attempt per order.
- **Lost cover.** The same sharing can take the cover of a live order away. Reconciling a brake reduction rewrites the
  one reservation of its digest, by the reduction's own fills and fee (`execution_state.py:1151-1156`), also while
  another order with that digest is pending or UNKNOWN, although an UNKNOWN order is documented to stay reserved
  (`execution_state.py:1485`). `ReconcilingASharedOrderStripsCover` is a journal every event of which a writer decided:
  an unfilled order that can lose 8 is left with 5.5 reserved, or with nothing if the reduction was cancelled.
  `ReconcileKeepsCoverExactly` says when one reconciliation leaves an order of the same digest covered;
  `ReservationCoversOpenLoss` proves for every journal that an open order is covered unless another attempt of its
  digest was reconciled that was terminal or had more filled, which cannot happen with one attempt per order.
- **Reused source.** A prepared reduction is tied to its snapshot by the snapshot's source alone
  (`execution_state.py:1685-1686`), where other orders are also tied by its time (`1684`), and a newer snapshot may name
  the source of an older one. `ReusedSourceLetsOutdatedReductionOut` is a written journal on which a sale of two units
  is let out while the current snapshot shows one. `ReductionSnapshotIsUnchanged` proves that the snapshot is the one
  the reduction was prepared on exactly when no later snapshot has its source, and
  `DispatchedReductionSellsHeldPosition` what that condition gives.

## Assumptions of the model

- A digest is injective: event and order digests are constructors over the digested content. Attempt ids and
  fences are fresh: the protocol draws each attempt id once.
- Creating a sequence number and writing its content is one atomic step. In the local store they are two calls
  (`execution_state.py:1240-1248`), and a crash between them leaves an empty file that no reader accepts.
- Numbers are `real`, so finiteness is a matter of type, rounding does not exist and `math.isclose` is equality.
  Times are integers. Names that are only compared are numbers.
- A listing returns the journal at one instant; a stale read is a prefix of the later journal. A writer that has
  read `seen` events creates sequence number `seen + 1`.
- The process-wide account mutex and the writer guard are one lock. A session that notices it lost the lock
  fails (`Abort`); a lock that is lost without the session noticing is not modelled.
- Validation of the account domain (policy, broker identity, environment, activity) is one fact per session,
  `domainVerified`, and one per dispatch, `verifiedNow`.

## Model

| member | source | states |
|---|---|---|
| Journal.ReadState | src/quant_platform_kit/common/execution_state.py:1010-1224 | the reading loop returns the reduction of the whole journal, or nothing as soon as one event is not acceptable |
| Journal.ValidatePendingOrderEvidence | src/quant_platform_kit/common/pending_order_evidence.py:24-81 | the loop with its two seen-sets and its running total accepts exactly the evidence whose orders are pairwise distinct, agree with the journal and fit the aggregate |
| Journal.FoldStaysUnreadable | src/quant_platform_kit/common/execution_state.py:1024-1039 | a journal with one unacceptable event stays unreadable whatever is appended |
| JournalLaws.ApplyKeepsCoherence | src/quant_platform_kit/common/execution_state.py:1040-1223 | every accepted event keeps the state coherent and moves attempts, reservations, watermarks, binding and breaker forward only |
| JournalLaws.FoldEvolves | src/quant_platform_kit/common/execution_state.py:1010-1224 | the state of a longer journal evolves from the state of every prefix, and a readable journal has readable prefixes |
| JournalLaws.AttemptAutomaton | src/quant_platform_kit/common/execution_state.py:992-1220 | at most one attempt is PREPARED; certainty only advances; UNKNOWN and TERMINAL absorb; fills grow within the quantity; a known broker order never changes; pending implies a broker order; terminal Filled means fully filled |
| JournalLaws.UnknownFreezesAccount | src/quant_platform_kit/common/execution_state.py:1169-1207 | once an attempt is UNKNOWN no attempt is ever added, it never changes, the reservation only it uses keeps every amount, and a reservation it shares changes only on account of another attempt |
| JournalLaws.ReservationChangeNeedsCoveringSnapshot | src/quant_platform_kit/common/execution_state.py:1130-1157 | any change of a reservation between two journals is a reconciliation event of a pending or terminal attempt of its order, against a strictly newer snapshot from another source that covers exactly the attempt's fills and fees |
| JournalLaws.BreakerStateIsBreakerEvent | src/quant_platform_kit/common/execution_state.py:1043-1056 | the latch is open exactly when the journal holds an OPEN event |
| JournalLaws.NoNewRiskAfterOpen | src/quant_platform_kit/common/execution_state.py:1162-1163 | in an accepted journal OPEN occurs at most once and no new-risk preparation follows it |
| JournalLaws.AcceptedJournalIsChained | src/quant_platform_kit/common/execution_state.py:1024-1039 | an accepted journal is gapless and every event names its predecessor's digest |
| JournalLaws.HeadIdentifiesJournal | src/quant_platform_kit/common/execution_state.py:1035-1039 | two accepted journals with the same head digest are the same journal |
| JournalLaws.AttemptOrigin | src/quant_platform_kit/common/execution_state.py:1158-1185 | every attempt stands in the journal as the preparation event at its generation, admitted on the journal before it |
| JournalLaws.ReservationBacksOneAttempt | src/quant_platform_kit/common/execution_state.py:1176-1180 | among attempts prepared on a bound account other than reductions, no two share a reservation |
| JournalLaws.WatermarkClosedForms | src/quant_platform_kit/common/execution_state.py:1088-1097 | peak is the maximum of equity plus later cash flows, protected equity the maximum equity, equity <= protected <= peak, and valuation times strictly increase |
| SnapshotLaws.EvidenceStaysSound | src/quant_platform_kit/common/pending_order_evidence.py:45-81 | in every later journal each listed order names an attempt with that broker order whose open quantity is at most the evidence's, with a reservation reconciled that far; attempts and broker orders are distinct and exposures sum within the aggregate |
| SnapshotLaws.ReductionOnlySellsHeldPosition | src/quant_platform_kit/common/execution_state.py:1527-1577 | a reduction is a sell of at most the recorded position on an account past its brake, with a current snapshot, no open order, and every earlier attempt terminal and covered |
| SnapshotLaws.StepAlignedExactly | src/quant_platform_kit/common/execution_state.py:1442-1444 | the step test accepts exactly the quantities within one part in a thousand million of a whole number of steps |
| Replayability.WriterEventReplaysExactly | src/quant_platform_kit/common/execution_state.py:1226-1797 | an event decided on a state is accepted on top of it if and only if it is neither a snapshot with negative cash nor a new-risk preparation behind OPEN, and the latter comes only from a reserve call that bound the domain itself |
| Replayability.BreakerEventReplays | src/quant_platform_kit/common/execution_state.py:1260-1293 | the facts kept when a peak or drawdown is unusable still prove the breach to the reader |
| Replayability.PreparationReplays | src/quant_platform_kit/common/execution_state.py:1604-1634 | a decided preparation is admissible exactly when it does not bring new risk behind OPEN |
| Replayability.ReductionReplays | src/quant_platform_kit/common/execution_state.py:1527-1577 | a decided reduction is always admissible to the reader |
| Replayability.ObservationEventReplays | src/quant_platform_kit/common/execution_state.py:1745-1797 | whatever the broker reports, the observation built from it is admissible |
| Replayability.InvalidReportBecomesUnknown | src/quant_platform_kit/common/execution_state.py:1758-1795 | an unusable report on an open attempt is persisted as UNKNOWN and keeps the fills and broker order already known |
| Replayability.NegativeCashMakesTheJournalUnreadable | src/quant_platform_kit/common/execution_state.py:1295-1375 | a concrete snapshot the recorder accepts, after which no continuation of the journal can be read |
| LastWord.AttemptsAreLastWords | src/quant_platform_kit/common/execution_state.py:1158-1220 | an attempt exists exactly when its preparation event does, with that event's generation, digest and snapshot, and its certainty, fills, broker order and reception time are those of the last observation event that names it |
| LastWord.ReservationsAreLastWords | src/quant_platform_kit/common/execution_state.py:1107-1157 | a reservation has the facts of its reservation event, is whole until an attempt of its order is reconciled, and is reconciled as far as the last such event says |
| LastWord.AccountIsItsLastWord | src/quant_platform_kit/common/execution_state.py:1010-1106 | binding, snapshot, position risk and latch are what the journal last said of them, and generation and head are its length and its last digest |
| JournalFacts.EvidenceOrderExactly | src/quant_platform_kit/common/pending_order_evidence.py:59-79 | an item is sound exactly when it names the digest of the last observation event of a working attempt, received by the watermark, with that event's broker order, the units it left open, and a reservation reconciled to its fills |
| JournalFacts.CertaintyExactly | src/quant_platform_kit/common/execution_state.py:992-1008 | facts are terminal exactly when their fills make sense and the order is dead, or filled to the quantity under a known broker order; pending exactly when it is acknowledged or partly filled under one; unknown otherwise |
| JournalFacts.EnvelopeBrakesExactly | src/quant_platform_kit/risk/capital_risk_envelope.py:131-276 | the brake trips exactly when equity is at or below 85, 90, 92.5 or 95 percent of its peak by size of the account; leverage shares and approvals by the same sizes |
| JournalFacts.EnvelopeExactly | src/quant_platform_kit/risk/capital_risk_envelope.py:131-276 | for any equity and any stated drawdown: unusable facts fail closed without tripping the brake, and brake, new risk, leverage share and approval follow the size of the account |
| Readable.ReadableExactly | src/quant_platform_kit/common/execution_state.py:1010-1224 | a journal can be read exactly when every event is linked to its predecessor and is sound behind the events before it, for each of the seven kinds, said of events only |
| Answers.BindAnswersExactly | src/quant_platform_kit/common/execution_state.py:1579-1606 | a reserve call binds exactly on an unbound account, for a verified domain and an order that fits, and new risk only before OPEN; it writes that domain's binding |
| Answers.ReserveAnswersExactly | src/quant_platform_kit/common/execution_state.py:1579-1638 | reserve prepares exactly when the order fits, every attempt is settled, the intent has not submitted it, and on a bound account the unused reservation names the current snapshot; new risk needs no OPEN on the first read only; the event carries the order's and the session's facts |
| Answers.ReserveNeedsWholeReservation | src/quant_platform_kit/common/execution_state.py:1609-1623 | a session with a domain is granted nothing without a whole reservation against the current snapshot that covers the loss of the whole order and its fee and that only settled reductions share |
| Answers.ReductionAnswersExactly | src/quant_platform_kit/common/execution_state.py:1527-1577 | a reduction is prepared exactly as a sale of at most the held position, past the brake, on a current snapshot without open orders, with every attempt over, its fills covered and the intent new; it stores the snapshot's source |
| Answers.RecordAnswersExactly | src/quant_platform_kit/common/execution_state.py:1295-1375 | a snapshot is recorded exactly when it is complete, current, newer, nowhere negative and of this account, with fitting evidence; every recorded fact is the supplied one, and the watermarks follow from the supplied equity and cash flow |
| Answers.RiskAnswersExactly | src/quant_platform_kit/common/execution_state.py:1377-1482 | risk is reserved exactly when the account is settled, the snapshot agrees and is current, equity is above the brake whatever the product, exposure and leverage fit, some affordable whole number of steps contains the quantity, the policy is the domain's, and budget, floor and total hold; the event says what was requested |
| Answers.BrakeStopsNewRisk | src/quant_platform_kit/common/execution_state.py:1413-1417 | no journal allows both a risk reservation and a brake reduction |
| Answers.ReconcileAnswersExactly | src/quant_platform_kit/common/execution_state.py:1484-1525 | a reconciliation is written exactly when the reader would take it and the session speaks for the domain |
| Answers.OpenAnswersExactly | src/quant_platform_kit/common/execution_state.py:1260-1293 | OPEN is written exactly once, when a usable drawdown or else the fall from a usable peak reaches the brake, with exactly the usable facts |
| Answers.ReportIsHeard | src/quant_platform_kit/common/execution_state.py:1745-1797 | every report on an open attempt is recorded except a repetition of the last word; a consistent report is recorded fact by fact and classified by its facts, any other keeps what was known and becomes UNKNOWN |
| Answers.FinalWordStays | src/quant_platform_kit/common/execution_state.py:1776-1780 | nothing is recorded for an attempt whose last word is final |
| Answers.ReportSettlesExactly | src/quant_platform_kit/common/execution_state.py:992-1008 | recording a report leaves the account free for submissions exactly when the report is consistent and says over or working and every other attempt is settled; otherwise the attempt is UNKNOWN for good |
| RiskAccounting.WritersAdmit | src/quant_platform_kit/common/execution_state.py:1439-1444 | every decided event carries the quantity its order digest binds, and a reservation covers losing the whole order plus its fee |
| RiskAccounting.WorkingRiskShrinks | src/quant_platform_kit/common/execution_state.py:1151-1156 | more fills and more fees never leave more reserved, and the amounts stay between zero and what was reserved |
| RiskAccounting.WorkingRiskCoversUnfilled | src/quant_platform_kit/common/execution_state.py:1154 | what a working order keeps reserved covers the modeled loss of every unit not yet filled |
| RiskAccounting.ReservationCoversOpenLoss | src/quant_platform_kit/common/execution_state.py:1107-1157 | at every reachable state remaining amounts lie within what was reserved; each attempt that is not terminal has its unfilled units covered, whatever other attempts share the order, unless an earlier event reconciled another attempt of the order that was terminal or had more filled; an attempt alone on its order stays covered until it is itself reconciled as terminal |
| RiskAccounting.ReconcileKeepsCoverExactly | src/quant_platform_kit/common/execution_state.py:1151-1156 | in facts known before the call, a reconciliation leaves an attempt of the same order covered exactly when, for a terminal reconciled attempt, it has no open loss, and for a pending one, the share of amount and fee kept is enough for its open units |
| CoverLost.ReconcilingASharedOrderStripsCover | src/quant_platform_kit/common/execution_state.py:1484-1525 | concrete readable journals, every event decided by a writer, whose last event reconciles a reduction and leaves a live unfilled order of the same digest, pending or UNKNOWN, with less reserved than it can lose |
| RiskAccounting.WorkingUntilReleased | src/quant_platform_kit/common/execution_state.py:1151-1157 | a reservation is exactly the working formula unless the journal holds a reconciliation of a terminal attempt of its order |
| RiskAccounting.FreshReservationIsWhole | src/quant_platform_kit/common/execution_state.py:1611-1617 | a reservation that names the current snapshot is one from which nothing has been released |
| RiskAccounting.ReservationKeepsLimits | src/quant_platform_kit/common/execution_state.py:1426-1482 | after an admitted reservation everything committed is within the policy's total, leaves floor and cost buffer, respects the per-trade fraction, and leveraged exposure stays under the envelope's cap |
| RiskAccounting.LeveragedAdmissionIsRestricted | src/quant_platform_kit/common/execution_state.py:1413-1438 | a leveraged reservation is admitted only before the brake, with highest equity up to a million, and with approval from fifty thousand on |
| RiskAccounting.ReconcileRaisesExactly | src/quant_platform_kit/common/execution_state.py:1151-1157 | a reconciliation raises committed risk exactly when the attempt is pending, nothing remains reserved and open units with a loss or an unspent part of the fee are left; likewise for reserved leveraged exposure; either needs a terminal attempt of the same order |
| RiskAccounting.QuietRunNeverRaisesCommitted | src/quant_platform_kit/common/execution_state.py:1130-1157 | whatever is prepared, observed or reconciled before the next equity observation or reservation, committed risk and reserved leveraged exposure do not grow when every order has one attempt |
| RiskAccounting.ReservedRunStaysWithinLimits | src/quant_platform_kit/common/execution_state.py:1426-1482 | from an admitted reservation on, such runs stay within the limits it was admitted under |
| SharedOrder.ReconcilingASharedOrderRaisesCommitted | src/quant_platform_kit/common/execution_state.py:1130-1180 | a concrete readable journal, every event decided by a writer, whose last event reconciles a reduction of a finished order and raises committed risk from nothing to the whole reservation |
| LateOpen.BindingReserveMayGrantOrEndTheJournal | src/quant_platform_kit/common/execution_state.py:1579-1638 | a reserve call on an empty journal that returns a grant when a snapshot and a reservation arrive between binding and second read, and ends every reading of the journal when OPEN arrives too |
| Protocol.NextKeepsInv | src/quant_platform_kit/common/execution_state.py:834-1797 | every step of every session keeps the protocol invariant: sound journal, backed grants, exclusive guard, consumed grants, distinct broker calls |
| Protocol.RunKeepsInv | src/quant_platform_kit/common/execution_state.py:834-1797 | the invariant holds after every list of actions |
| Safety.BrokerIsCalledAtMostOnce | src/quant_platform_kit/common/execution_state.py:1640-1743 | over every interleaving the broker is called at most once per attempt and per intent and order, by the session that created the attempt |
| Safety.NoNewRiskCallAfterOpen | src/quant_platform_kit/common/execution_state.py:1689-1712 | no call for a new-risk attempt happens while the journal holds OPEN |
| Safety.RunExtends | src/quant_platform_kit/common/execution_state.py:1226-1258 | journal, authorship and broker calls are append-only along every run |
| Safety.GrantsStayInEveryLaterJournal | src/quant_platform_kit/common/execution_state.py:1634-1650 | every grant names a preparation present in all later journals, with the same generation, fence, digest, intent and order, created by the granted session |
| Safety.StaleCreateLoses | src/quant_platform_kit/common/execution_state.py:1250-1257 | over every continuation of a run, a session whose create was decided on a stale prefix stays failed and adds no event, no broker call and no grant |
| Safety.OneWinnerPerSequenceNumber | src/quant_platform_kit/common/execution_state.py:1234-1251 | over every run, of two creates for the same sequence number at most one extends the journal |
| Safety.FreshCreateWins | src/quant_platform_kit/common/execution_state.py:1226-1258 | a create decided on the whole journal gets the next number, links to the last event, and is not yet a grant |
| Safety.FailedSessionIsSilent | src/quant_platform_kit/common/execution_state.py:1255-1257 | over every continuation a failed session stays failed, is outside any call, creates no event, calls no broker and gets no grant |
| Safety.JournalIsReadableExactly | src/quant_platform_kit/common/execution_state.py:1010-1258 | the journal of any run is readable exactly when it holds no snapshot with negative cash and no new-risk preparation behind OPEN |
| Safety.UnknownFreezesEveryContinuation | src/quant_platform_kit/common/execution_state.py:1169-1207 | from an UNKNOWN on, over every continuation, no attempt is prepared, the reservation only it uses stays, a shared one changes only on account of another attempt, and at most one more broker call happens, for the attempt already prepared |
| Safety.EveryRunCoversOpenLoss | src/quant_platform_kit/common/execution_state.py:1107-1157 | in every journal the protocol can produce each open attempt's unfilled units are covered, unless another attempt of its order was reconciled that was terminal or had more filled |
| Safety.OrphanBlocksAccount | src/quant_platform_kit/common/execution_state.py:836-842 | once the session that prepared an attempt has crashed or failed outside any call, over every continuation the attempt stays PREPARED, no attempt is added and the broker is never called again |
| Safety.BoundCallsAreReservedOnce | src/quant_platform_kit/common/execution_state.py:1609-1623 | every broker call of a bound account that is not a reduction is backed by a reservation for its full loss and fee that no other such attempt uses |
| Safety.UndisturbedSessionSubmits | src/quant_platform_kit/common/execution_state.py:1579-1743 | whenever the journal allows an order to be reserved, an undisturbed reserve and dispatch ends with exactly one broker call, without a domain as well as on a bound account with a current snapshot |
| Safety.UndisturbedReductionSubmits | src/quant_platform_kit/common/execution_state.py:1527-1743 | whenever the journal allows a brake reduction, undisturbed reserving and dispatching on the unchanged snapshot ends with exactly one broker call |
| Safety.DispatchSucceeds | src/quant_platform_kit/common/execution_state.py:1652-1712 | a grant that is in order is carried through the guard to one broker call |
| CallHistory.SecondHalfFollowsBinding | src/quant_platform_kit/common/execution_state.py:1586-1606 | over every run, a step that prepares after binding is taken only by the session that bound the domain in the same call, for the same order and kind of risk, on a read that includes the binding |
| CallHistory.OnlyOwnerRecords | src/quant_platform_kit/common/execution_state.py:1640-1650 | over every interleaving, each observation in the journal is by the session that prepared the attempt and has consumed its grant |
| CallHistory.SpentGrantIsNeverCalled | src/quant_platform_kit/common/execution_state.py:1709-1721 | a grant that was consumed while its call was lost to the guard, a failure or a crash is never handed to the broker on any continuation |
| CallHistory.LosingTheGuardSpends | src/quant_platform_kit/common/execution_state.py:1709-1712 | losing the guard, failing or crashing between consuming the grant and the broker call leaves it consumed and uncalled |
| CallHistory.AbortedSessionIsSilent | src/quant_platform_kit/common/execution_state.py:940-957 | a session that notices a lost guard inside any call fails and is silent on every continuation |
| CallHistory.AloneSubmits | src/quant_platform_kit/common/execution_state.py:1579-1743 | from the empty journal, a session without a domain opens, reserves, confirms and dispatches, and the broker is called once |
| Sessions.AccountJournal.Create | src/quant_platform_kit/common/execution_state.py:1235-1251 | a create succeeds exactly on the next free sequence number and then only appends |
| Sessions.SumReservations | src/quant_platform_kit/common/execution_state.py:1436-1466 | the loops over the reservations compute remaining risk and remaining leveraged exposure |
| Sessions.AccountSubmissionSession.Append | src/quant_platform_kit/common/execution_state.py:1226-1258 | create and confirmation read: done, conflict or unconfirmed, and the session has failed in the last two |
| Sessions.AccountSubmissionSession.Reserve | src/quant_platform_kit/common/execution_state.py:1579-1638 | a grant exactly after a fresh confirmed create; on an unbound journal the call binds the domain first and goes on with what its second read shows, after any arrivals |
| Sessions.AccountSubmissionSession.ReserveReduction | src/quant_platform_kit/common/execution_state.py:1527-1577 | the same for an account-brake reduction |
| Sessions.AccountSubmissionSession.RecordAccountEquity | src/quant_platform_kit/common/execution_state.py:1295-1375 | journal, failure and result after recording a snapshot, for any interference |
| Sessions.AccountSubmissionSession.ReserveAccountRisk | src/quant_platform_kit/common/execution_state.py:1377-1482 | journal, failure and result after reserving risk, with the sums computed by the loop |
| Sessions.AccountSubmissionSession.ReconcileAccountRisk | src/quant_platform_kit/common/execution_state.py:1484-1525 | journal, failure and result after a reconciliation |
| Sessions.AccountSubmissionSession.RecordCircuitBreakerOpen | src/quant_platform_kit/common/execution_state.py:1260-1293 | OPEN is created only inside the guard; without the guard the session fails |
| Sessions.AccountSubmissionSession.RecordObservation | src/quant_platform_kit/common/execution_state.py:1745-1797 | only an owned and consumed grant is observed, repeating the last observation writes nothing, and the call returns exactly when a usable report was persisted or repeated |
| Sessions.AccountSubmissionSession.Dispatch | src/quant_platform_kit/common/execution_state.py:1652-1743 | the broker is called exactly when the early read and the guarded read both allow it; the grant is consumed with the call; the outcome is appended to whatever other writers created meanwhile, and may lose its sequence number to them |
| Sessions.BindingLeavesNothingReserved | src/quant_platform_kit/common/execution_state.py:1604-1615 | if nothing is appended between the binding and the second read, the reserve call that binds an account grants nothing |
| Sessions.WriterMethodIsTwoSteps | src/quant_platform_kit/common/execution_state.py:1226-1258 | a write without interference, wherever its session stands in its call, is a write step and its confirmation, with the same journal, grants, phase and failure |
| Sessions.ConfirmedExactly | src/quant_platform_kit/common/execution_state.py:1250-1257 | the confirmation read finds the created event at the head exactly when nothing landed behind it and the reader accepts it |
| Sessions.BreakerMethodIsThreeSteps | src/quant_platform_kit/common/execution_state.py:1260-1293 | opening the breaker is entering the guard, a write and its confirmation, after which the guard is free |
| Sessions.DispatchMethodIsFourSteps | src/quant_platform_kit/common/execution_state.py:1689-1712 | an undisturbed dispatch is four protocol steps that call the broker exactly when the method does, and otherwise change nothing |
| Sessions.OutcomeIsTwoSteps | src/quant_platform_kit/common/execution_state.py:1721-1737 | recording the outcome of a call just made, whatever the broker reported, always succeeds undisturbed: a write step and its confirmation, which earn no grant |
| Sessions.DispatchWithOutcomeIsSixSteps | src/quant_platform_kit/common/execution_state.py:1689-1743 | an undisturbed dispatch with its outcome is six protocol steps that end with one broker call, the persisted outcome, the grant used and the session healthy and out of the guard |
| Sessions.DispatchedReservationIsWhole | src/quant_platform_kit/common/execution_state.py:1667-1688 | a bound session dispatches an order other than a reduction only while its whole loss plus fee is still reserved against the current, unexpired snapshot of the first read |
| Sessions.GuardedReservationIsWhole | src/quant_platform_kit/common/execution_state.py:1689-1708 | at the read inside the guard the reservation is still whole, unless another attempt of the order was reconciled after the first read |
| DispatchAnswers.DispatchAnswersExactly | src/quant_platform_kit/common/execution_state.py:1652-1708 | the broker is called exactly when both journals read still hold the grant's unobserved preparation and no OPEN against it, and the first shows the account bound, current, and on the snapshot the submission was prepared on |
| DispatchAnswers.DispatchedReductionIsCurrent | src/quant_platform_kit/common/execution_state.py:1667-1688 | a reduction goes out only on a current snapshot without open orders from the source stored in its preparation event |
| DispatchAnswers.NewerSnapshotEndsReduction | src/quant_platform_kit/common/execution_state.py:1685-1688 | once a snapshot of another source is recorded, a reduction is not dispatched on any later journal until its own source is recorded again |
| DispatchAnswers.NewerSnapshotKeepsReductionOut | src/quant_platform_kit/common/execution_state.py:1667-1688 | in the protocol, entering dispatch for such a reduction changes nothing |
| DispatchAnswers.ReductionSnapshotIsUnchanged | src/quant_platform_kit/common/execution_state.py:1685-1688 | the snapshot a reduction goes out on is the one it was prepared on exactly when no later snapshot has the same source |
| ReusedSource.ReusedSourceLetsOutdatedReductionOut | src/quant_platform_kit/common/execution_state.py:1685-1688 | a journal decided by writers on which a reduction of two units is let out while the current snapshot shows one unit |
| WrittenRuns.RunIsByWriters | src/quant_platform_kit/common/execution_state.py:1226-1258 | every event of every run is what some writer decided on the journal before it |
| WrittenRuns.ReductionCallsSellHeldPosition | src/quant_platform_kit/common/execution_state.py:1527-1577 | over every interleaving, a reduction that reaches the broker was prepared as a sale of at most the position then shown, past the brake |
| WrittenRuns.DispatchedReductionSellsHeldPosition | src/quant_platform_kit/common/execution_state.py:1527-1688 | on written journals a reduction goes out as a sale of at most the position shown at that moment, past the brake, unless its snapshot's source was used again |
| WrittenRuns.WatermarksOfCalls | src/quant_platform_kit/common/execution_state.py:1329-1336 | current, peak and protected equity are the last supplied equity, the largest supplied equity plus all cash supplied later, and the largest supplied equity |
| CapitalEnvelope.HardBrakeExactly | src/quant_platform_kit/risk/account_new_risk_gate.py:136-267 | the gate trips exactly when some usable drawdown fact reaches the brake of the account's band |
| CapitalEnvelope.BandsTightenWithEquity | src/quant_platform_kit/risk/capital_risk_envelope.py:131-276 | a larger account never gets a deeper brake, a larger leverage weight or a waiver of approval |
| CapitalEnvelope.ReductionKeepsEveryFillBetweenPositionAndZero | src/quant_platform_kit/risk/account_new_risk_gate.py:298-319 | the test holds exactly for an order against a known position, on the opposite side, beside pending orders on its own side, when every partial fill of order and pending quantity stays between the position and zero |
| RiskBudget.BudgetAdmitsExactly | src/quant_platform_kit/common/account_risk_budget.py:11-29 | an amount fits the budget exactly when it respects the fraction and leaves floor, reserved risk and costs untouched |
| RiskBudget.QuantityIsLargestAffordable | src/quant_platform_kit/common/account_risk_budget.py:32-43 | the quantity is a whole number of steps, and the largest whose loss plus fee fits the budget |
| RiskBudget.AdmittedQuantityIsCovered | src/quant_platform_kit/common/execution_state.py:1439-1444 | an admitted quantity loses at most the reserved amount, fee included |
| CommandStore.ReadEvents | src/quant_platform_kit/common/execution_commands.py:376-392 | the reading loop accepts exactly the gapless paths through the transition table |
| CommandStore.EveryRunIsAPath | src/quant_platform_kit/common/execution_commands.py:376-437 | over every concurrent run the stored history is a gapless path from QUEUED |
| CommandStore.EveryPathIsARun | src/quant_platform_kit/common/execution_commands.py:376-437 | every gapless path through the table is the history of some run, so runs produce exactly the paths |
| CommandStore.EndedExactly | src/quant_platform_kit/common/execution_commands.py:47-104 | a history has ended exactly when no operation of any worker can add to it |
| CommandStore.PathShape | src/quant_platform_kit/common/execution_commands.py:55-104 | CLAIMED only first, SUBMITTED only second, nothing after a terminal state, FILLED only after a claim and a submission or reconciliation |
| CommandStore.ClaimIsExactlyOnce | src/quant_platform_kit/common/execution_commands.py:394-437 | over any concurrent run at most one claim call returns an event, and that event is the first of the history |
| CommandStore.CreatedEventsStay | src/quant_platform_kit/common/execution_commands.py:410-437 | histories and handed-out claims are append-only |
| CommandStore.DueClaimOnFreshCommandSucceeds | src/quant_platform_kit/common/execution_commands.py:394-408 | on the effective date an undisturbed claim succeeds exactly while the history is empty |
| CommandStore.ExecutionCommandStore.Enqueue | src/quant_platform_kit/common/execution_commands.py:341-345 | a command is created once, with an empty history; a repeat changes nothing |
| CommandStore.ExecutionCommandStore.AppendEvent | src/quant_platform_kit/common/execution_commands.py:410-437 | one history changes, by the event the read allowed, and the store stays valid |
| CommandStore.ExecutionCommandStore.ClaimDue | src/quant_platform_kit/common/execution_commands.py:394-408 | a claim happens only on the effective date and only from QUEUED |
| CommandStore.ExecutionCommandStore.ListUnresolved | src/quant_platform_kit/common/execution_commands.py:356-370 | exactly the commands whose history has not ended, strictly ordered by date and id |
| CommandStore.ExecutionCommandStore.BuildRecoveryReport | src/quant_platform_kit/common/execution_commands.py:514-531 | exactly the unresolved commands due by the date, in order, with their state and age |
| PositionSizing.RiskBudgetedTargetWeights | src/quant_platform_kit/position_sizing.py:123-208 | a result is the active vector times the largest factor up to one that keeps the loss budget, the exposure cap and every nominal cap; it is empty exactly for rejected or inactive input |
| PositionSizing.CheckInput | src/quant_platform_kit/position_sizing.py:140-186 | the validation loops accept exactly fresh, mandated, complete input within its ranges |
| PositionSizing.SizingStaysWithinMandate | src/quant_platform_kit/position_sizing.py:188-208 | whatever was asked for, a result models at most one percent loss, at most one half effective exposure, and no product beyond its nominal cap |
| PositionSizing.ValidateReduceOnlyNormalization | src/quant_platform_kit/position_sizing.py:211-275 | the validation loops accept exactly the transitions toward cash |
| PositionSizing.SizingResultIsValidReduction | src/quant_platform_kit/position_sizing.py:188-275 | a sizing result is a valid reduction of its raw vector exactly when that vector exceeds the available exposure by more than the tolerance |
| Kelly.StableMeanIsMean | src/quant_platform_kit/position_sizing.py:394-399 | scaling before summing computes the mean |
| Kelly.ScaleIsLargest | src/quant_platform_kit/position_sizing.py:394-399 | the scale is the largest magnitude, so every scaled term is at most one |
| Kelly.OneSidedKelly | src/quant_platform_kit/position_sizing.py:402-445 | without a loss the fraction is the whole stake, without a win it is nothing, and undecided trades count for nothing |
| Kelly.HalfAndPosition | src/quant_platform_kit/position_sizing.py:436-445 | the legacy position is half the fraction, cut off at a tenth |
| Kelly.KellyClosedForm | src/quant_platform_kit/position_sizing.py:402-445 | with both sides present the fraction is the win rate times the share of the gains that losses did not take back |
| Kelly.KellyIsSignTest | src/quant_platform_kit/position_sizing.py:402-445 | the fraction is positive exactly when the trades made money in total, and then it is below the win rate |
| Kelly.ReadyExactly | src/quant_platform_kit/position_sizing.py:448-531 | the recommendation is ready exactly when constraints, samples of both signs and drawdown are in range and the sum of returns is positive; it is the fractional share or a cap, whichever is smallest |
| Kelly.ParkedForFirstReason | src/quant_platform_kit/position_sizing.py:482-521 | a parked recommendation names a gate that does fail, and a missing edge only when all gates hold and the trades lost in total |
| Kelly.CapitalReadyExactly | src/quant_platform_kit/position_sizing.py:534-664 | the capital form is ready exactly when its facts are in range and the sign test passes; it loses exactly the fractional share, or less when a cap cuts it off; full Kelly is refused by name |
| Kelly.StatisticsArePermutationInvariant | src/quant_platform_kit/position_sizing.py:420-431 | counts and sums of wins and losses do not depend on the order of the trades |
| Kelly.RecommendationsArePermutationInvariant | src/quant_platform_kit/position_sizing.py:402-664 | neither do the estimate and the two recommendations |
| ExecutionFills.Accumulate | src/quant_platform_kit/common/execution_fills.py:73-123 | the state is the per-key maximum of prior marks and incoming quantities, delta its total increase, a decrease is reported exactly when some leg fell below what was known, degraded keys are listed once |
| ExecutionFills.KeyIdentifiesLeg | src/quant_platform_kit/common/execution_fills.py:92-109 | two legs are counted as one exactly when they share the order and the execution, or lack an execution and share their other identifying fields |
| ExecutionFills.HighWaterIsUnique | src/quant_platform_kit/common/execution_fills.py:111-116 | prior marks and legs determine the resulting state |
| ExecutionFills.OrderDoesNotMatter | src/quant_platform_kit/common/execution_fills.py:90-116 | the state depends on which legs arrive, not on their order or repetition |
| ExecutionFills.BatchesCompose | src/quant_platform_kit/common/execution_fills.py:84-116 | two batches one after the other give the state of both together, and the deltas add |
| ExecutionFills.ReplayAddsNothing | src/quant_platform_kit/common/execution_fills.py:111-116 | replaying accumulated input changes nothing and counts nothing |
| ExecutionFills.DeltaIsNonNegative | src/quant_platform_kit/common/execution_fills.py:111-116 | what is counted is never negative |
| ArtifactTree.Materializer.Materialize | src/quant_platform_kit/common/market_signal_artifacts.py:116-146 | the recursion over the shared dictionary terminates on cyclic links, visits only reachable objects and closes over their links |
| ArtifactTree.MaterializeTree | src/quant_platform_kit/common/market_signal_artifacts.py:29-70 | success exactly when every reachable object exists and parses; then the visited set is the reachable set, each object downloaded once |
| TradingCalendar.NextTradingDay | src/quant_platform_kit/common/cn_equity_calendar.py:102-126 | the search terminates for every finite holiday set at the first later day that is neither Saturday, Sunday nor holiday |
| TradingCalendar.AddTradingDays | src/quant_platform_kit/common/cn_equity_calendar.py:129-144 | the loop adds that many trading days; a negative count is an error |
| TradingCalendar.AddComposes | src/quant_platform_kit/common/cn_equity_calendar.py:129-144 | adding in two portions is adding once |
| TradingCalendar.AddCountsExactly | src/quant_platform_kit/common/cn_equity_calendar.py:129-144 | adding n > 0 days lands on a trading day with exactly n trading days after the start, and it is the only such date |
| TradingCalendar.CountIdentifiesTradingDay | src/quant_platform_kit/common/cn_equity_calendar.py:129-144 | the count determines the trading day |
| TradingCalendar.IterTradingDays | src/quant_platform_kit/common/cn_equity_calendar.py:147-160 | the iterator yields exactly the trading days of the closed interval, in order |
| TradingCalendar.IteratorYieldsTheAddedDays | src/quant_platform_kit/common/cn_equity_calendar.py:129-160 | iterating over the interval up to the n-th added day yields the n added days in order |

## Left out

- JSON text, SHA-256, object-store and file I/O, inode checks, process fork and token files: replaced by the assumptions above.
- Parsing and normalising text, numbers and times, including the limits on identity text and digests.
- Account-domain validation, broker identity and policy activity: one abstract fact each, so what makes a domain valid is not modelled.
- Floating-point rounding, NaN and infinities; `Fraction(str(...))` in the step test becomes exact division.
- A writer guard that is lost between its last confirmation and the broker call without the session noticing.
- Sessions.AccountSubmissionSession.Dispatch: a guard lost after the broker call is only in the protocol (`Abort` from `Outcome`), not in the method, and the exception for an uncertain acknowledged result is not a result value.
- Sessions.WriterMethodIsTwoSteps: stated for calls without interference between create and confirmation; interference is covered by the protocol's own confirmation step and by the methods' arguments.
- Freshness of a reservation at the read inside the guard: the code repeats only the certainty and breaker checks there, so it is not promised.
- Session configuration text (owner, profile, release) is carried but its syntax is not checked.
- Event fields of the command store beyond command, sequence, states and worker, the identity hash of a command, and listing by date.
- ArtifactTree.MaterializeTree: an object that is missing and one that does not parse are both absent from the link graph, and which links an object has is given; URI resolution and JSON traversal are not modelled.
- Limits of the calendar type: dates are unbounded integers, so running past the last representable date does not occur; month-end search is left out as an easy variant.
- `risk_budgeted_target_weight` for single products, realized-volatility scaling and the multi-account view: branch tables that would add only easy members.
- The marker store, ledgers, watchdog, notifications, cloud providers and platform adapters.
