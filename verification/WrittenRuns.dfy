/** Every journal that the protocol produces was written by writers, so what holds of their decisions holds of runs. */
module WrittenRuns {
  import opened Prelude
  import opened Journal
  import opened JournalLaws
  import opened Writers
  import opened RiskAccounting
  import opened WrittenJournals
  import opened Protocol
  import opened Safety
  import opened Sessions
  import opened DispatchAnswers
  import opened LastWord
  import opened JournalFacts
  import opened Readable
  import opened Answers

  // ----- Runs write what writers decide -----

  lemma DecidedByStays(account: Id, log: seq<Event>, e: Event, i: nat, entry: Entry)
    requires i < |log| && DecidedBy(account, log, i, entry)
    ensures DecidedBy(account, log + [e], i, entry)
  {
    assert (log + [e])[..i] == log[..i] && (log + [e])[i] == log[i];
  }

  /** One more event by one more entry. */
  lemma ByWritersNext(account: Id, log: seq<Event>, entries: seq<Entry>, e: Event, entry: Entry)
    requires ByWriters(account, log, entries) && DecidedBy(account, log + [e], |log|, entry)
    ensures ByWriters(account, log + [e], entries + [entry])
  {
    hide DecidedBy;
    forall i | 0 <= i < |log + [e]|
      ensures DecidedBy(account, log + [e], i, (entries + [entry])[i])
    {
      if i < |log| {
        DecidedByStays(account, log, e, i, entries[i]);
      }
    }
  }

  lemma GrowthIsWritten(w: World, a: Action)
    requires Inv(w) && Next(w, a).log != w.log
    ensures a.Write? && a.sid in w.sessions && |Next(w, a).log| == |w.log| + 1
    ensures w.log == Next(w, a).log[..|w.log|]
    ensures DecidedBy(w.account, Next(w, a).log, |w.log|, Entry(w.sessions[a.sid].config, a.call))
  {
    GrowthIsDecided(w, a);
    SessionSeesAccount(w, a.sid);
    WriterIsAbleToSeeLog(w, a.sid, a.call);
    hide Inv, Fold, Decide;
    assert w.log[..|w.log|] == w.log;
    assert Next(w, a).log[..|w.log|] == w.log;
  }

  /** The journal of every run was decided event by event by writers, on the journal before it. */
  lemma {:induction false} RunIsByWriters(account: Id, actions: seq<Action>) returns (entries: seq<Entry>)
    ensures ByWriters(account, Run(account, actions).log, entries)
    decreases |actions|
  {
    entries := [];
    if actions != [] {
      var shorter, a := actions[..|actions| - 1], actions[|actions| - 1];
      entries := RunIsByWriters(account, shorter);
      var w := Run(account, shorter);
      RunKeepsInv(account, shorter);
      hide Inv, Next, DecidedBy, ByWriters;
      if Next(w, a).log != w.log {
        GrowthIsWritten(w, a);
        var log := Next(w, a).log;
        assert log == w.log + [log[|w.log|]];
        ByWritersNext(account, w.log, entries, log[|w.log|], Entry(w.sessions[a.sid].config, a.call));
        entries := entries + [Entry(w.sessions[a.sid].config, a.call)];
      }
    }
  }


  // ----- Reductions -----

  /** A session could have been allowed this reduction on this journal. */
  ghost predicate ReductionAllowedOn(account: Id, log: seq<Event>, p: Preparation) {
    exists c: Config :: c.account == account && p.purpose.Reduction? && MayReduce(c, log, p.order.order, true)
        && SnapshotIn(log).value.source == p.purpose.source && p.quantity == p.order.order.quantity
  }

  lemma ReductionWasAllowed(account: Id, log: seq<Event>, i: nat, entry: Entry)
    requires i < |log| && DecidedBy(account, log, i, entry)
    requires log[i].data.Prepared? && log[i].data.preparation.purpose.Reduction?
    ensures ReductionAllowedOn(account, log[..i], log[i].data.preparation)
  {
    var s := Fold(account, log[..i]).state;
    OnlyReductionsReduce(entry.config, s, entry.call);
    var call := entry.call;
    ReductionAnswersExactly(entry.config, log[..i], call.order, call.hardBrake, call.attempt, call.fence);
    hide Decide, Fold, MayReduce;
    assert MayReduce(entry.config, log[..i], call.order, true);
  }

  lemma OnlyReductionsReduce(c: Config, s: State, call: Call)
    requires Decide(c, s, call).Some?
    requires Decide(c, s, call).value.Prepared? && Decide(c, s, call).value.preparation.purpose.Reduction?
    ensures call.ReserveReduction? && call.hardBrake
  {
  }

  /**
   * Over every interleaving, a reduction that reaches the broker was prepared as a sale of no more than the snapshot
   * then current showed as held, past the brake, with no order open and every earlier attempt over and covered.
   */
  lemma ReductionCallsSellHeldPosition(account: Id, actions: seq<Action>, i: nat)
    requires i < |Run(account, actions).submissions|
    requires
      var w := Run(account, actions);
      w.submissions[i].attempt in StateOf(w).attempts
      && StateOf(w).attempts[w.submissions[i].attempt].preparation.purpose.Reduction?
    ensures
      var w := Run(account, actions);
      var x := StateOf(w).attempts[w.submissions[i].attempt];
      && 1 <= x.generation <= |w.log| && w.log[x.generation - 1].data == Prepared(x.preparation)
      && ReductionAllowedOn(account, BeforeAttempt(w.log, x), x.preparation)
  {
    var entries := RunIsByWriters(account, actions);
    RunKeepsInv(account, actions);
    var w := Run(account, actions);
    hide Run, Fold, DecidedBy, ReductionAllowedOn;
    var id := w.submissions[i].attempt;
    AttemptOrigin(account, w.log, id);
    var g := StateOf(w).attempts[id].generation;
    assert DecidedBy(account, w.log, g - 1, entries[g - 1]);
    ReductionWasAllowed(account, w.log, g - 1, entries[g - 1]);
  }

  /**
   * On a journal written by writers, a reduction goes out as a sale of no more than the snapshot current at that
   * moment shows as held, on an account that is past its brake by it, if its snapshot's source was not used again.
   */
  lemma DispatchedReductionSellsHeldPosition(s: Session, early: seq<Event>, current: seq<Event>, g: Grant,
                                             order: Order, now: Time, verifiedNow: bool, entries: seq<Entry>)
    requires ByWriters(s.config.account, early, entries)
    requires DispatchGranted(s, early, current, g, order, now, verifiedNow) && s.config.domain.Some?
    requires Fold(s.config.account, early).state.attempts[g.attempt].preparation.purpose.Reduction?
    requires 1 <= g.generation <= |early|
    requires
      var source := Fold(s.config.account, early).state.attempts[g.attempt].preparation.purpose.source;
      NoSnapshotFrom(early, g.generation - 1, source)
    ensures
      && SnapshotIn(early).Some?
      && var q := SnapshotIn(early).value;
      && order.side == Sell && order.symbol in q.positions && 0.0 < order.quantity <= q.positions[order.symbol]
      && FallenToBrake(q.equity, q.peak, q.protectedEquity) && q.openOrdersEmpty && q.valuationAt <= now < q.validUntil
  {
    var account := s.config.account;
    var x := Fold(account, early).state.attempts[g.attempt];
    DispatchAnswersExactly(s, early, current, g, order, now, verifiedNow);
    DispatchedReductionIsCurrent(s, early, current, g, order, now, verifiedNow);
    AttemptOrigin(account, early, g.attempt);
    AttemptAnswers(account, early, g.attempt);
    AccountIsItsLastWord(account, early);
    hide Fold, DispatchGranted, DecidedBy, FallenToBrake;
    var n := g.generation - 1;
    assert x.generation == g.generation && x.preparation.order.order == order;
    assert DecidedBy(account, early, n, entries[n]);
    ReductionWasAllowed(account, early, n, entries[n]);
    ReductionSnapshotIsUnchanged(s, early, current, g, order, now, verifiedNow);
  }

  // ----- Watermarks over the calls -----

  /** What one recording call supplied. */
  datatype Supplied = Supplied(equity: real, cashFlow: real)

  /** The equities and cash flows that the recording calls supplied, oldest first. */
  function SuppliedBy(entries: seq<Entry>): seq<Supplied> {
    if entries == [] then []
    else
      var before := SuppliedBy(entries[..|entries| - 1]);
      match entries[|entries| - 1].call
      case RecordEquity(n, cashFlow, _) => before + [Supplied(n.equity, cashFlow)]
      case _ => before
  }

  /** Cash that flowed in with the calls from position `i` on. */
  function FlowsFrom(calls: seq<Supplied>, i: nat): real
    requires i <= |calls|
    decreases |calls| - i
  {
    if i == |calls| then 0.0 else calls[i].cashFlow + FlowsFrom(calls, i + 1)
  }

  lemma OnlyRecordingsRecord(c: Config, s: State, call: Call)
    requires Decide(c, s, call).Some?
    ensures Decide(c, s, call).value.EquityObserved? <==> call.RecordEquity?
  {
  }

  /** The journal's snapshots carry the supplied equities and flows. */
  lemma {:induction false} HistoryIsSupplied(account: Id, log: seq<Event>, entries: seq<Entry>)
    requires ByWriters(account, log, entries)
    ensures
      var h, calls := EquityHistory(log), SuppliedBy(entries);
      && |h| == |calls|
      && forall i :: 0 <= i < |h| ==> h[i].equity == calls[i].equity && h[i].cashFlow == calls[i].cashFlow
    decreases |log|
  {
    if log != [] {
      var n := |log| - 1;
      assert DecidedBy(account, log, n, entries[n]);
      ByWritersBefore(account, log, entries);
      HistoryIsSupplied(account, log[..n], entries[..n]);
      var c, call := entries[n].config, entries[n].call;
      OnlyRecordingsRecord(c, Fold(account, log[..n]).state, call);
      if call.RecordEquity? {
        RecordAnswersExactly(c, log[..n], call.snapshot, call.cashFlow, call.baseline);
      }
      hide Decide, Fold, Answers.MayRecord, FollowsSnapshot, ByWriters;
    }
  }

  lemma ByWritersBefore(account: Id, log: seq<Event>, entries: seq<Entry>)
    requires log != [] && ByWriters(account, log, entries)
    ensures ByWriters(account, log[..|log| - 1], entries[..|log| - 1])
  {
    var n := |log| - 1;
    forall i | 0 <= i < n
      ensures DecidedBy(account, log[..n], i, entries[..n][i])
    {
      assert DecidedBy(account, log, i, entries[i]);
      assert log[..n][..i] == log[..i];
    }
  }

  lemma {:induction false} FlowsAgree(h: seq<Equity>, calls: seq<Supplied>, i: nat)
    requires i < |h| == |calls| && forall k :: 0 <= k < |h| ==> h[k].cashFlow == calls[k].cashFlow
    ensures LaterFlows(h, i) == FlowsFrom(calls, i + 1)
    decreases |h|
  {
    var n := |h| - 1;
    if i < n {
      FlowsAgree(h[..n], calls[..n], i);
      FlowsOfLonger(calls[..n], calls[n], i + 1);
      assert calls[..n] + [calls[n]] == calls;
    }
  }

  lemma {:induction false} FlowsOfLonger(calls: seq<Supplied>, more: Supplied, i: nat)
    requires i <= |calls|
    ensures FlowsFrom(calls + [more], i) == FlowsFrom(calls, i) + more.cashFlow
    decreases |calls| - i
  {
    if i < |calls| {
      FlowsOfLonger(calls, more, i + 1);
    }
  }

  /** The largest equity that any call supplied, credited with the cash that came in with later calls. */
  ghost predicate IsPeakOfCalls(calls: seq<Supplied>, peak: real) {
    && (forall i {:trigger calls[i]} :: 0 <= i < |calls| ==> calls[i].equity + FlowsFrom(calls, i + 1) <= peak)
    && (exists i :: 0 <= i < |calls| && calls[i].equity + FlowsFrom(calls, i + 1) == peak)
  }

  ghost predicate IsTopOfCalls(calls: seq<Supplied>, top: real) {
    && (forall i {:trigger calls[i]} :: 0 <= i < |calls| ==> calls[i].equity <= top)
    && (exists i :: 0 <= i < |calls| && calls[i].equity == top)
  }

  lemma PeakOfHistory(h: seq<Equity>, calls: seq<Supplied>, peak: real, top: real)
    requires |h| == |calls|
    requires forall k :: 0 <= k < |h| ==> h[k].equity == calls[k].equity && h[k].cashFlow == calls[k].cashFlow
    requires IsFlowAdjustedPeak(h, peak) && IsHighestEquity(h, top)
    ensures IsPeakOfCalls(calls, peak) && IsTopOfCalls(calls, top)
  {
    hide LaterFlows, FlowsFrom;
    forall i | 0 <= i < |h|
      ensures h[i].equity + LaterFlows(h, i) == calls[i].equity + FlowsFrom(calls, i + 1)
    {
      FlowsAgree(h, calls, i);
    }
    var p :| 0 <= p < |h| && h[p].equity + LaterFlows(h, p) == peak;
    var t :| 0 <= t < |h| && h[t].equity == top;
    assert calls[p].equity + FlowsFrom(calls, p + 1) == peak && calls[t].equity == top;
  }

  /**
   * The watermarks of a journal written by writers, over what the recording calls supplied: the current equity is
   * the last one supplied, the peak is the largest supplied equity plus all cash supplied later, and the protected
   * equity is the largest supplied.
   */
  lemma WatermarksOfCalls(account: Id, log: seq<Event>, entries: seq<Entry>)
    requires ByWriters(account, log, entries) && Fold(account, log).readable
    ensures
      var q, calls := Fold(account, log).state.equity, SuppliedBy(entries);
      && (q.None? <==> calls == [])
      && (q.Some? ==>
            && q.value.equity == calls[|calls| - 1].equity && q.value.cashFlow == calls[|calls| - 1].cashFlow
            && IsPeakOfCalls(calls, q.value.peak) && IsTopOfCalls(calls, q.value.protectedEquity))
  {
    hide Fold, IsPeakOfCalls, IsTopOfCalls, IsFlowAdjustedPeak, IsHighestEquity, ByWriters;
    HistoryIsSupplied(account, log, entries);
    WatermarkClosedForms(account, log);
    var q := Fold(account, log).state.equity;
    if q.Some? {
      PeakOfHistory(EquityHistory(log), SuppliedBy(entries), q.value.peak, q.value.protectedEquity);
    }
  }
}
