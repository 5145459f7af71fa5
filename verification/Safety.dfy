/** Safety of every run of the protocol: statements over all interleavings. */
module Safety {
  import opened Prelude
  import opened Journal
  import opened JournalLaws
  import opened Writers
  import opened Replayability
  import opened RiskAccounting
  import opened Protocol
  import opened LastWord
  import opened JournalFacts
  import opened Answers

  // ----- At most one broker call -----

  /**
   * Over every interleaving the broker is called at most once per attempt and at most once per intent and
   * order, always by the session whose create put the attempt in the journal.
   */
  lemma BrokerIsCalledAtMostOnce(account: Id, actions: seq<Action>, i: nat, j: nat)
    requires i < |Run(account, actions).submissions| && j < |Run(account, actions).submissions| && i != j
    ensures
      var w := Run(account, actions);
      var one, two := w.submissions[i], w.submissions[j];
      && one.attempt in StateOf(w).attempts && two.attempt in StateOf(w).attempts
      && var a, b := StateOf(w).attempts[one.attempt], StateOf(w).attempts[two.attempt];
      && one.attempt != two.attempt
      && !(a.preparation.intent == b.preparation.intent && a.preparation.order == b.preparation.order)
      && AuthorOf(w, a) == Some(one.session)
  {
    var w := Run(account, actions);
    RunKeepsInv(account, actions);
    assert SubmissionOk(w, i) && SubmissionOk(w, j);
    FoldIsCoherent(account, w.log);
    assert Compatible(StateOf(w).attempts[w.submissions[i].attempt], StateOf(w).attempts[w.submissions[j].attempt]);
  }

  // ----- The breaker -----

  /**
   * The breaker linearizes against broker calls: no call for a new-risk attempt ever happens while the
   * journal holds OPEN, wherever in the run the two were issued.
   */
  lemma NoNewRiskCallAfterOpen(account: Id, actions: seq<Action>, i: nat)
    requires i < |Run(account, actions).submissions|
    ensures
      var w := Run(account, actions);
      var b := w.submissions[i];
      && b.at <= |w.log| && b.attempt in StateOf(w).attempts
      && (StateOf(w).attempts[b.attempt].preparation.purpose.NewRisk? ==>
            forall k :: 0 <= k < b.at ==> !w.log[k].data.BreakerOpened?)
  {
    RunKeepsInv(account, actions);
    assert SubmissionOk(Run(account, actions), i);
  }

  // ----- The journal only grows -----

  lemma NextExtends(w: World, a: Action)
    ensures w.log <= Next(w, a).log && w.authors <= Next(w, a).authors && w.submissions <= Next(w, a).submissions
    ensures Next(w, a).account == w.account
  {
  }

  lemma {:induction false} RunExtends(account: Id, actions: seq<Action>, longer: seq<Action>)
    requires actions <= longer
    ensures
      var w, w' := Run(account, actions), Run(account, longer);
      w.log <= w'.log && w.authors <= w'.authors && w.submissions <= w'.submissions
    decreases |longer|
  {
    if |actions| == |longer| {
      assert actions == longer;
    } else {
      RunExtends(account, actions, longer[..|longer| - 1]);
      NextExtends(Run(account, longer[..|longer| - 1]), longer[|longer| - 1]);
    }
  }

  /**
   * Agreement: whatever any session was ever granted stays in every later journal, as the preparation event
   * that this session created, with the same generation, fence and digest.
   */
  lemma GrantsStayInEveryLaterJournal(account: Id, actions: seq<Action>, longer: seq<Action>, sid: Sid, attempt: Id)
    requires actions <= longer
    requires sid in Run(account, actions).sessions && attempt in Run(account, actions).sessions[sid].issued
    ensures
      var g := Run(account, actions).sessions[sid].issued[attempt];
      var w' := Run(account, longer);
      && g.attempt == attempt && attempt in StateOf(w').attempts
      && var a := StateOf(w').attempts[attempt];
      && a.generation == g.generation && a.digest == g.digest && a.preparation.fence == g.fence
      && a.preparation.intent == g.intent && a.preparation.order == g.order
      && AuthorOf(w', a) == Some(sid)
  {
    hide Run, Inv, Fold;
    var w, w' := Run(account, actions), Run(account, longer);
    RunKeepsInv(account, actions);
    RunKeepsInv(account, longer);
    RunExtends(account, actions, longer);
    SessionInOrder(w, sid);
    FoldEvolves(account, w.log, w'.log);
    GrantStaysBacked(w, w', sid, w.sessions[sid].issued[attempt]);
  }

  lemma GrantStaysBacked(w: World, w': World, sid: Sid, g: Grant)
    requires w.authors <= w'.authors && Evolves(StateOf(w), StateOf(w')) && Backed(w, sid, g)
    ensures Backed(w', sid, g)
  {
    hide Fold;
    assert Advances(StateOf(w).attempts[g.attempt], StateOf(w').attempts[g.attempt]);
  }

  // ----- Losers -----

  /** The session has failed and is not inside any call, or its process is gone. */
  predicate IsOut(w: World, sid: Sid) {
    && sid in w.sessions && w.sessions[sid].failed
    && (w.sessions[sid].phase.Idle? || w.sessions[sid].phase.Crashed?)
  }

  /** From `w` to `w'` the session created nothing, called no broker and got no grant. */
  ghost predicate SilentBetween(w: World, w': World, sid: Sid) {
    && w.authors <= w'.authors && w.submissions <= w'.submissions
    && (forall i :: |w.authors| <= i < |w'.authors| ==> w'.authors[i] != sid)
    && (forall i :: |w.submissions| <= i < |w'.submissions| ==> w'.submissions[i].session != sid)
    && sid in w.sessions && sid in w'.sessions && w'.sessions[sid].issued == w.sessions[sid].issued
  }

  lemma FailingLeaves(w: World, a: Action, sid: Sid)
    requires sid in w.sessions && w.sessions[sid].failed ==> IsOut(w, sid)
    ensures sid in Next(w, a).sessions && Next(w, a).sessions[sid].failed ==> IsOut(Next(w, a), sid)
  {
    hide Fold, Decide;
  }

  /** A session that has failed is never left in the middle of a call. */
  lemma {:induction false} FailedIsOut(account: Id, actions: seq<Action>, sid: Sid)
    ensures var w := Run(account, actions);
            sid in w.sessions && w.sessions[sid].failed ==> IsOut(w, sid)
    decreases |actions|
  {
    hide Next, IsOut;
    if actions != [] {
      FailedIsOut(account, actions[..|actions| - 1], sid);
      FailingLeaves(Run(account, actions[..|actions| - 1]), actions[|actions| - 1], sid);
    }
  }

  lemma OutStaysOut(w: World, a: Action, sid: Sid)
    requires IsOut(w, sid)
    ensures IsOut(Next(w, a), sid) && SilentBetween(w, Next(w, a), sid)
  {
    hide Fold, Decide;
  }

  /**
   * A failed session is out for good: over every continuation it stays failed, no later event is its own, no
   * later broker call is its own, and it never gets another grant.
   */
  lemma {:induction false} FailedSessionIsSilent(account: Id, actions: seq<Action>, longer: seq<Action>, sid: Sid)
    requires actions <= longer && sid in Run(account, actions).sessions && Run(account, actions).sessions[sid].failed
    ensures IsOut(Run(account, longer), sid) && SilentBetween(Run(account, actions), Run(account, longer), sid)
    decreases |longer|
  {
    FailedIsOut(account, actions, sid);
    hide Next, IsOut;
    if |actions| == |longer| {
      assert actions == longer;
    } else {
      var shorter := longer[..|longer| - 1];
      FailedSessionIsSilent(account, actions, shorter, sid);
      OutStaysOut(Run(account, shorter), longer[|longer| - 1], sid);
    }
  }

  /** The create finds its sequence number taken: nothing is added and the session fails. */
  lemma StaleCreateFails(w: World, sid: Sid, seen: nat, call: Call)
    requires WriteEnabled(w, sid, seen, call) && seen < |w.log|
    requires Decide(w.sessions[sid].config, Fold(w.account, w.log[..seen]).state, call).Some?
    ensures var w' := Next(w, Write(sid, seen, call));
            && IsOut(w', sid) && SilentBetween(w, w', sid) && w'.log == w.log
  {
    hide Fold, Decide;
  }

  /**
   * A loser never gets a grant: once a session's create was decided on a prefix that others have extended, that
   * create and every continuation of the run add no event, no broker call and no grant of that session.
   */
  lemma StaleCreateLoses(account: Id, actions: seq<Action>, longer: seq<Action>, sid: Sid, seen: nat, call: Call)
    requires var w := Run(account, actions);
             && WriteEnabled(w, sid, seen, call) && seen < |w.log|
             && Decide(w.sessions[sid].config, Fold(w.account, w.log[..seen]).state, call).Some?
    requires actions + [Write(sid, seen, call)] <= longer
    ensures IsOut(Run(account, longer), sid) && SilentBetween(Run(account, actions), Run(account, longer), sid)
  {
    var lost := actions + [Write(sid, seen, call)];
    assert lost[..|actions|] == actions;
    StaleCreateFails(Run(account, actions), sid, seen, call);
    assert Run(account, lost) == Next(Run(account, actions), Write(sid, seen, call));
    hide Run, Next;
    FailedSessionIsSilent(account, lost, longer, sid);
  }

  /** The only step that extends the journal is a create decided on the whole of it. */
  lemma GrowthIsFreshCreate(w: World, a: Action)
    ensures |Next(w, a).log| > |w.log| ==> a.Write? && a.seen == |w.log| && |Next(w, a).log| == |w.log| + 1
  {
    hide Fold, Decide;
  }

  /** The k-th action of the run extends the journal. */
  ghost predicate Extends(account: Id, actions: seq<Action>, k: nat)
    requires k < |actions|
  {
    |Run(account, actions[..k]).log| < |Run(account, actions[..k + 1]).log|
  }

  /**
   * Over every run each sequence number has one winner: of two creates decided after reading the same number of
   * events, whatever happens before, between and after them, at most one extends the journal.
   */
  lemma OneWinnerPerSequenceNumber(account: Id, actions: seq<Action>, i: nat, j: nat)
    requires i < j < |actions| && actions[i].Write? && actions[j].Write? && actions[i].seen == actions[j].seen
    ensures !(Extends(account, actions, i) && Extends(account, actions, j))
  {
    hide Next;
    RunSplitsAt(account, actions, i);
    RunSplitsAt(account, actions, j);
    GrowthIsFreshCreate(Run(account, actions[..i]), actions[i]);
    GrowthIsFreshCreate(Run(account, actions[..j]), actions[j]);
    RunExtends(account, actions[..i + 1], actions[..j]);
  }

  lemma RunSplitsAt(account: Id, actions: seq<Action>, k: nat)
    requires k < |actions|
    ensures Run(account, actions[..k + 1]) == Next(Run(account, actions[..k]), actions[k])
  {
    assert actions[..k + 1][..k] == actions[..k];
  }

  /** A create on the whole journal always gets the next sequence number; confirmation alone turns it into a grant. */
  lemma FreshCreateWins(w: World, sid: Sid, call: Call)
    requires Inv(w) && WriteEnabled(w, sid, |w.log|, call)
    requires Decide(w.sessions[sid].config, StateOf(w), call).Some?
    ensures
      var w' := Next(w, Write(sid, |w.log|, call));
      && |w'.log| == |w.log| + 1
      && var e := w'.log[|w.log|];
      && w'.log == w.log + [e] && w'.authors == w.authors + [sid]
      && e.sequence == |w.log| + 1 && e.previous == Tip(w.log)
      && w'.sessions[sid].issued == w.sessions[sid].issued
  {
    hide Decide, Evolves;
    assert w.log[..|w.log|] == w.log;
    AcceptedJournalIsChained(w.account, w.log);
  }

  // ----- Readability -----

  /** Event `i` prepares new risk although the journal before it already holds OPEN. */
  ghost predicate NewRiskAfterOpen(log: seq<Event>, i: nat)
    requires i < |log|
  {
    && log[i].data.Prepared? && log[i].data.preparation.purpose.NewRisk?
    && exists j :: 0 <= j < i && log[j].data.BreakerOpened?
  }

  /** None of the two kinds of event that no reader accepts. */
  ghost predicate ReadableEvent(log: seq<Event>, i: nat)
    requires i < |log|
  {
    !NegativeCash(log[i].data) && !NewRiskAfterOpen(log, i)
  }

  /**
   * No run makes the journal unreadable except by a snapshot with negative cash or by a new-risk preparation
   * behind OPEN: the journal of any run is readable exactly when it holds neither.
   */
  lemma JournalIsReadableExactly(account: Id, actions: seq<Action>)
    ensures
      var log := Run(account, actions).log;
      Replay(account, log).Some? <==> forall i :: 0 <= i < |log| ==> ReadableEvent(log, i)
  {
    hide Run, Inv, JournalSound;
    RunKeepsInv(account, actions);
    SoundIsReadableExactly(account, Run(account, actions).log);
  }

  lemma NegativeCashIsRejected(s: State, account: Id, e: Event)
    requires NegativeCash(e.data)
    ensures Apply(s, account, e).None?
  {
  }

  lemma AcceptedEventIsReadable(account: Id, log: seq<Event>, i: nat)
    requires Fold(account, log).readable && i < |log|
    ensures ReadableEvent(log, i)
  {
    hide Apply, NegativeCash;
    var before := log[..i + 1];
    FoldEvolves(account, before, log);
    assert before[..i] == log[..i] && before[i] == log[i];
    if NegativeCash(log[i].data) {
      NegativeCashIsRejected(Fold(account, log[..i]).state, account, log[i]);
    }
    if NewRiskAfterOpen(log, i) {
      var j :| 0 <= j < i && log[j].data.BreakerOpened?;
      JournalLaws.NoNewRiskAfterOpen(account, log, j, i);
    }
  }

  lemma UnreadableEndIsNotReadable(account: Id, log: seq<Event>)
    requires log != [] && EndsUnreadable(account, log)
    ensures !ReadableEvent(log, |log| - 1)
  {
    var n := |log| - 1;
    if LateNewRisk(Fold(account, log[..n]).state, log[n].data) {
      BreakerStateIsBreakerEvent(account, log[..n]);
      var j :| 0 <= j < n && log[..n][j].data.BreakerOpened?;
      assert log[j].data.BreakerOpened?;
    }
  }

  lemma SoundIsReadableExactly(account: Id, log: seq<Event>)
    requires JournalSound(account, log)
    ensures Replay(account, log).Some? <==> forall i :: 0 <= i < |log| ==> ReadableEvent(log, i)
  {
    hide Fold, ReadableEvent, EndsUnreadable;
    if Replay(account, log).Some? {
      forall i | 0 <= i < |log|
        ensures ReadableEvent(log, i)
      {
        AcceptedEventIsReadable(account, log, i);
      }
    } else {
      UnreadableEndIsNotReadable(account, log);
    }
  }

  // ----- UNKNOWN -----

  /** An attempt that could still be handed to the broker. */
  ghost predicate InFlight(w: World, a: Id) {
    a in StateOf(w).attempts && StateOf(w).attempts[a].certainty == PREPARED && !HandedOver(w, a)
  }

  /** Broker calls already made plus calls that the journal's prepared attempts could still lead to. */
  ghost function CallBudget(w: World): nat {
    |w.submissions| + if exists a :: InFlight(w, a) then 1 else 0
  }

  lemma SubmitSpendsBudget(w: World, sid: Sid)
    requires Inv(w) && sid in w.sessions && w.sessions[sid].phase.Marked?
    ensures CallBudget(NextSubmit(w, sid)) <= CallBudget(w)
  {
    var w' := NextSubmit(w, sid);
    var g := w.sessions[sid].phase.grant;
    assert SessionOk(w, sid);
    assert InFlight(w, g.attempt);
    assert w'.submissions[|w.submissions|].attempt == g.attempt;
    FoldIsCoherent(w.account, w.log);
    forall a
      ensures !InFlight(w', a)
    {
      if a != g.attempt && a in StateOf(w).attempts {
        assert Compatible(StateOf(w).attempts[a], StateOf(w).attempts[g.attempt]);
      }
    }
  }

  lemma OnlySubmitSubmits(w: World, a: Action)
    ensures Next(w, a).submissions != w.submissions ==>
              a.Submit? && a.sid in w.sessions && w.sessions[a.sid].phase.Marked? && Next(w, a) == NextSubmit(w, a.sid)
  {
    hide Fold, Decide;
  }

  lemma UnknownStays(s: State, t: State)
    requires Evolves(s, t) && HasUnknown(s)
    ensures HasUnknown(t) && t.attempts.Keys == s.attempts.Keys
  {
    var u :| u in s.attempts && s.attempts[u].certainty == UNKNOWN;
    assert Advances(s.attempts[u], t.attempts[u]);
  }

  /** With no attempt added, what is prepared and not handed over later was so before. */
  lemma InFlightWasBefore(w: World, w': World, b: Id)
    requires Evolves(StateOf(w), StateOf(w')) && StateOf(w').attempts.Keys == StateOf(w).attempts.Keys
    requires w.submissions <= w'.submissions && InFlight(w', b)
    ensures InFlight(w, b)
  {
    hide Fold;
    assert b in StateOf(w').attempts.Keys;
    assert Advances(StateOf(w).attempts[b], StateOf(w').attempts[b]);
    forall i | 0 <= i < |w.submissions|
      ensures w.submissions[i].attempt != b
    {
      assert w'.submissions[i] == w.submissions[i];
    }
  }

  lemma FrozenStepKeepsBudget(w: World, a: Action)
    requires Inv(w) && HasUnknown(StateOf(w))
    ensures CallBudget(Next(w, a)) <= CallBudget(w)
    ensures HasUnknown(StateOf(Next(w, a)))
  {
    hide Fold, Next, Inv, Evolves, HasUnknown, InFlight;
    var w' := Next(w, a);
    NextExtends(w, a);
    OnlySubmitSubmits(w, a);
    FoldEvolves(w.account, w.log, w'.log);
    UnknownStays(StateOf(w), StateOf(w'));
    if w'.submissions != w.submissions {
      SubmitSpendsBudget(w, a.sid);
    } else {
      forall b | InFlight(w', b)
        ensures InFlight(w, b)
      {
        InFlightWasBefore(w, w', b);
      }
    }
  }

  lemma {:induction false} FrozenRunKeepsBudget(account: Id, actions: seq<Action>, longer: seq<Action>)
    requires actions <= longer && HasUnknown(StateOf(Run(account, actions)))
    ensures HasUnknown(StateOf(Run(account, longer)))
    ensures CallBudget(Run(account, longer)) <= CallBudget(Run(account, actions))
    decreases |longer|
  {
    if |actions| == |longer| {
      assert actions == longer;
    } else {
      var shorter := longer[..|longer| - 1];
      FrozenRunKeepsBudget(account, actions, shorter);
      RunKeepsInv(account, shorter);
      FrozenStepKeepsBudget(Run(account, shorter), longer[|longer| - 1]);
    }
  }

  /** In a frozen account an attempt in flight later was in flight before. */
  lemma InFlightWasInFlight(account: Id, actions: seq<Action>, longer: seq<Action>, b: Id)
    requires actions <= longer && HasUnknown(StateOf(Run(account, actions)))
    requires InFlight(Run(account, longer), b)
    ensures InFlight(Run(account, actions), b)
  {
    var w, w' := Run(account, actions), Run(account, longer);
    hide Run, Fold, Evolves, HasUnknown, InFlight, Inv;
    RunKeepsInv(account, actions);
    RunKeepsInv(account, longer);
    RunExtends(account, actions, longer);
    FoldEvolves(account, w.log, w'.log);
    UnknownStays(StateOf(w), StateOf(w'));
    InFlightWasBefore(w, w', b);
  }

  lemma SubmittedWasInFlight(w: World, sid: Sid)
    requires Inv(w) && sid in w.sessions && w.sessions[sid].phase.Marked?
    ensures
      var b := Submission(sid, w.sessions[sid].phase.grant.attempt, |w.log|);
      NextSubmit(w, sid).submissions == w.submissions + [b]
    ensures InFlight(w, w.sessions[sid].phase.grant.attempt)
  {
    SessionInOrder(w, sid);
    hide Inv, Fold;
  }

  lemma {:induction false} LateCallsWereInFlight(account: Id, actions: seq<Action>, longer: seq<Action>, i: nat)
    requires actions <= longer && HasUnknown(StateOf(Run(account, actions)))
    requires |Run(account, actions).submissions| <= i < |Run(account, longer).submissions|
    ensures InFlight(Run(account, actions), Run(account, longer).submissions[i].attempt)
    decreases |longer|
  {
    assert |actions| < |longer| by {
      assert |actions| == |longer| ==> actions == longer;
    }
    var shorter, a := longer[..|longer| - 1], longer[|longer| - 1];
    var v, w' := Run(account, shorter), Run(account, longer);
    hide Next, Inv, InFlight, HasUnknown;
    NextExtends(v, a);
    RunKeepsInv(account, shorter);
    if i < |v.submissions| {
      LateCallsWereInFlight(account, actions, shorter, i);
    } else {
      OnlySubmitSubmits(v, a);
      SubmittedWasInFlight(v, a.sid);
      hide Run, Next, InFlight;
      InFlightWasInFlight(account, actions, shorter, w'.submissions[i].attempt);
    }
  }

  /**
   * UNKNOWN freezes the account over every continuation: no attempt is ever prepared again, the UNKNOWN attempt and
   * the reservation only it uses never change, a reservation it shares changes only on account of another attempt,
   * and at most one more broker call can happen, which is for the attempt that was already prepared.
   */
  lemma UnknownFreezesEveryContinuation(account: Id, actions: seq<Action>, longer: seq<Action>, a: Id)
    requires actions <= longer
    requires a in StateOf(Run(account, actions)).attempts
    requires StateOf(Run(account, actions)).attempts[a].certainty == UNKNOWN
    ensures
      var w, w' := Run(account, actions), Run(account, longer);
      var s, t := StateOf(w), StateOf(w');
      var order := s.attempts[a].preparation.order;
      && t.attempts.Keys == s.attempts.Keys && t.attempts[a] == s.attempts[a]
      && (order in s.reservations && OnlyAttemptForOrder(s, a) ==>
          order in t.reservations && t.reservations[order] == s.reservations[order])
      && (order in s.reservations ==>
            && order in t.reservations
            && (t.reservations[order] != s.reservations[order] ==> exists b :: b != a && MayTouch(s, t, b, order)))
      && |w'.submissions| <= |w.submissions| + 1
      && (forall i :: |w.submissions| <= i < |w'.submissions| ==> InFlight(w, w'.submissions[i].attempt))
  {
    RunKeepsInv(account, actions);
    RunKeepsInv(account, longer);
    RunExtends(account, actions, longer);
    UnknownFreezesAccount(account, Run(account, actions).log, Run(account, longer).log, a);
    FrozenRunKeepsBudget(account, actions, longer);
    forall i | |Run(account, actions).submissions| <= i < |Run(account, longer).submissions|
      ensures InFlight(Run(account, actions), Run(account, longer).submissions[i].attempt)
    {
      LateCallsWereInFlight(account, actions, longer, i);
    }
  }

  // ----- PREPARED after a crash -----

  /** The session can do nothing any more: its process is gone, or it has failed outside any call. */
  predicate IsGone(w: World, sid: Sid) {
    sid in w.sessions && (w.sessions[sid].phase.Crashed? || IsOut(w, sid))
  }

  /** The attempt is prepared and the session that prepared it is gone. */
  ghost predicate IsOrphan(w: World, a: Id, sid: Sid) {
    && a in StateOf(w).attempts && StateOf(w).attempts[a].certainty == PREPARED
    && AuthorOf(w, StateOf(w).attempts[a]) == Some(sid) && IsGone(w, sid)
  }

  lemma GoneStaysGone(w: World, a: Action, sid: Sid)
    requires IsGone(w, sid)
    ensures IsGone(Next(w, a), sid)
    ensures a.sid == sid ==> Next(w, a).log == w.log && Next(w, a).authors == w.authors
    ensures a.sid == sid ==> Next(w, a).submissions == w.submissions
  {
    hide Fold, Decide;
  }

  lemma UnresolvedAddsNothing(s: State, account: Id, e: Event, a: Id)
    requires a in s.attempts && Unresolved(s.attempts[a].certainty) && Apply(s, account, e).Some?
    ensures Apply(s, account, e).value.attempts.Keys == s.attempts.Keys
  {
  }

  lemma CreateKeepsOthersAttempt(w: World, sid: Sid, call: Call, a: Id, owner: Sid)
    requires Inv(w) && WriteEnabled(w, sid, |w.log|, call) && sid != owner && a in StateOf(w).attempts
    requires AuthorOf(w, StateOf(w).attempts[a]) == Some(owner)
    requires Decide(w.sessions[sid].config, StateOf(w), call).Some?
    ensures
      var w' := Next(w, Write(sid, |w.log|, call));
      a in StateOf(w').attempts && StateOf(w').attempts[a] == StateOf(w).attempts[a]
  {
    CreatedWorld(w, sid, call);
    hide Next, Decide, Inv, WriteEnabled, Fold, Evolves;
  }

  lemma CreateAddsNoAttempt(w: World, sid: Sid, call: Call, a: Id)
    requires Inv(w) && WriteEnabled(w, sid, |w.log|, call)
    requires a in StateOf(w).attempts && StateOf(w).attempts[a].certainty == PREPARED
    requires Decide(w.sessions[sid].config, StateOf(w), call).Some?
    ensures StateOf(Next(w, Write(sid, |w.log|, call))).attempts.Keys == StateOf(w).attempts.Keys
  {
    FreshCreateWins(w, sid, call);
    CreatedWorld(w, sid, call);
    WriterIsAbleToSeeLog(w, sid, call);
    hide Next, Decide, Inv, WriteEnabled, Apply, Fold, StepOf;
    var e := Next(w, Write(sid, |w.log|, call)).log[|w.log|];
    AppendFolds(w.account, w.log, e);
    if Apply(StateOf(w), w.account, e).Some? {
      UnresolvedAddsNothing(StateOf(w), w.account, e, a);
    }
  }

  /** A create by another session leaves the orphan prepared and adds no attempt. */
  lemma CreateKeepsOrphan(w: World, sid: Sid, call: Call, a: Id, owner: Sid)
    requires Inv(w) && WriteEnabled(w, sid, |w.log|, call) && sid != owner && IsOrphan(w, a, owner)
    requires Decide(w.sessions[sid].config, StateOf(w), call).Some?
    ensures
      var w' := Next(w, Write(sid, |w.log|, call));
      && a in StateOf(w').attempts && StateOf(w').attempts[a] == StateOf(w).attempts[a]
      && StateOf(w').attempts.Keys == StateOf(w).attempts.Keys && AuthorOf(w', StateOf(w).attempts[a]) == Some(owner)
  {
    CreateKeepsOthersAttempt(w, sid, call, a, owner);
    CreateAddsNoAttempt(w, sid, call, a);
    FreshCreateWins(w, sid, call);
    hide Next, Decide, Inv, WriteEnabled, Fold, IsGone;
  }

  lemma WriterIsAbleToSeeLog(w: World, sid: Sid, call: Call)
    requires Inv(w) && WriteEnabled(w, sid, |w.log|, call)
    ensures Fold(w.account, w.log).readable
  {
    WriterIsAbleToSee(w, sid, call);
  }

  lemma CreatedWorld(w: World, sid: Sid, call: Call)
    requires Inv(w) && WriteEnabled(w, sid, |w.log|, call)
    requires Decide(w.sessions[sid].config, StateOf(w), call).Some?
    ensures StepOf(w, Next(w, Write(sid, |w.log|, call)), sid)
    ensures Next(w, Write(sid, |w.log|, call)).account == w.account
  {
    var w' := Next(w, Write(sid, |w.log|, call));
    assert w.log[..|w.log|] == w.log;
    WriterIsAbleToSee(w, sid, call);
    hide Decide, Fold, Inv, StepOf;
    assert w' == NextWrite(w, sid, |w.log|, call);
    CreatedIsStep(w, sid, call, w');
  }

  /** The broker can only be called for an attempt of the calling session, and only one attempt is prepared. */
  lemma NobodySubmitsBesideOrphan(w: World, a: Id, owner: Sid, sid: Sid)
    requires Inv(w) && IsOrphan(w, a, owner) && sid in w.sessions
    ensures !w.sessions[sid].phase.Marked?
  {
    if w.sessions[sid].phase.Marked? {
      MarkedIsPrepared(w, sid);
      FoldIsCoherent(w.account, w.log);
      OnePrepared(StateOf(w), a, w.sessions[sid].phase.grant.attempt);
    }
  }

  lemma MarkedIsPrepared(w: World, sid: Sid)
    requires Inv(w) && sid in w.sessions && w.sessions[sid].phase.Marked?
    ensures
      var id := w.sessions[sid].phase.grant.attempt;
      && id in StateOf(w).attempts && StateOf(w).attempts[id].certainty == PREPARED
      && AuthorOf(w, StateOf(w).attempts[id]) == Some(sid)
  {
    SessionInOrder(w, sid);
    hide Fold, Inv;
    assert Backed(w, sid, w.sessions[sid].issued[w.sessions[sid].phase.grant.attempt]);
  }

  lemma OnePrepared(s: State, a: Id, b: Id)
    requires StateCoherent(s) && a in s.attempts && b in s.attempts
    requires s.attempts[a].certainty == PREPARED && s.attempts[b].certainty == PREPARED
    ensures a == b
  {
    assert a != b ==> Compatible(s.attempts[a], s.attempts[b]);
  }

  lemma OrphanStays(w: World, a: Action, id: Id, owner: Sid)
    requires Inv(w) && IsOrphan(w, id, owner)
    ensures IsOrphan(Next(w, a), id, owner)
    ensures StateOf(Next(w, a)).attempts.Keys == StateOf(w).attempts.Keys
    ensures Next(w, a).submissions == w.submissions
  {
    var w' := Next(w, a);
    hide Fold, Inv, Next, Decide, IsGone;
    GoneStaysGone(w, a, owner);
    OnlySubmitSubmits(w, a);
    NextExtends(w, a);
    GrowthIsFreshCreate(w, a);
    if a.Submit? && a.sid in w.sessions {
      NobodySubmitsBesideOrphan(w, id, owner, a.sid);
    }
    if w'.log != w.log {
      GrowthIsDecided(w, a);
      CreateKeepsOrphan(w, a.sid, a.call, id, owner);
    } else {
      SameLogSameAuthors(w, a);
    }
  }

  lemma GrowthIsDecided(w: World, a: Action)
    requires Next(w, a).log != w.log
    ensures a.Write? && a.seen == |w.log| && WriteEnabled(w, a.sid, |w.log|, a.call)
    ensures Decide(w.sessions[a.sid].config, StateOf(w), a.call).Some?
  {
    hide Fold, Decide;
    assert w.log[..|w.log|] == w.log;
  }

  lemma SameLogSameAuthors(w: World, a: Action)
    requires Next(w, a).log == w.log
    ensures Next(w, a).authors == w.authors
  {
    hide Fold, Decide;
  }

  /**
   * PREPARED remains blocking after a crash: once the session that prepared an attempt is gone, then over every
   * continuation the attempt stays prepared, no attempt is added and the broker is never called again, neither for
   * this attempt nor for any other.
   */
  lemma {:induction false} OrphanBlocksAccount(account: Id, actions: seq<Action>, longer: seq<Action>,
                                               a: Id, owner: Sid)
    requires actions <= longer && IsOrphan(Run(account, actions), a, owner)
    ensures
      var w, w' := Run(account, actions), Run(account, longer);
      && IsOrphan(w', a, owner) && w'.submissions == w.submissions
      && StateOf(w').attempts.Keys == StateOf(w).attempts.Keys
    decreases |longer|
  {
    hide Next, IsOrphan, StateOf, Inv;
    if |actions| == |longer| {
      assert actions == longer;
    } else {
      var shorter := longer[..|longer| - 1];
      OrphanBlocksAccount(account, actions, shorter, a, owner);
      RunKeepsInv(account, shorter);
      OrphanStays(Run(account, shorter), longer[|longer| - 1], a, owner);
    }
  }

  // ----- Risk on every run -----

  /** Reservations cover the open loss in every journal the protocol can produce. */
  lemma EveryRunCoversOpenLoss(account: Id, actions: seq<Action>, k: OrderDigest)
    requires k in StateOf(Run(account, actions)).reservations
    ensures
      var w := Run(account, actions);
      var s, r := StateOf(w), StateOf(w).reservations[k];
      && 0.0 <= r.remaining <= r.facts.amount
      && 0.0 <= r.remaining3x <= r.facts.reserved3x
      && (forall a :: a in s.attempts && s.attempts[a].preparation.order == k ==>
            CoveredOrOvertaken(w.account, w.log, k, a))
      && (forall a :: OnlyAttemptForOrder(s, a) && s.attempts[a].preparation.order == k ==>
            !Overtaken(w.account, w.log, k, a, s.attempts[a].filled))
  {
    hide Run, CoveredOrOvertaken, Overtaken, OnlyAttemptForOrder, Fold, Inv;
    RunKeepsInv(account, actions);
    RunIsAdmitted(account, actions);
    ReservationCoversOpenLoss(account, Run(account, actions).log, k);
  }

  lemma RunIsAdmitted(account: Id, actions: seq<Action>)
    ensures AdmittedJournal(Run(account, actions).log)
  {
    RunKeepsInv(account, actions);
  }

  /** The attempt's reservation covers losing the whole order plus its fee, and backs no other such attempt. */
  ghost predicate BackedByOwnReservation(account: Id, log: seq<Event>, id: Id)
    requires id in Fold(account, log).state.attempts
  {
    var s := Fold(account, log).state;
    var order := s.attempts[id].preparation.order;
    && order in s.reservations
    && var f := s.reservations[order].facts;
    && f.quantity == s.attempts[id].preparation.quantity && f.quantity * f.lossPerUnit + f.fee <= f.amount
    && forall b :: b in s.attempts && b != id && s.attempts[b].preparation.order == order ==>
         !PreparedAgainstReservation(account, log, s.attempts[b])
  }

  lemma SubmissionInOrder(w: World, i: nat)
    requires Inv(w) && i < |w.submissions|
    ensures SubmissionOk(w, i) && AdmittedJournal(w.log)
  {
  }

  /**
   * Every broker call of a bound account is backed by risk reserved for it alone: if the account was bound when
   * the attempt was prepared and the order is not a brake reduction, its reservation covers losing the whole
   * order plus its fee, and no other such attempt, handed over or not, uses the same reservation.
   */
  lemma BoundCallsAreReservedOnce(account: Id, actions: seq<Action>, i: nat)
    requires i < |Run(account, actions).submissions|
    ensures
      var w := Run(account, actions);
      var id := w.submissions[i].attempt;
      && id in StateOf(w).attempts
      && HasOrigin(w.account, w.log, StateOf(w).attempts[id])
      && (PreparedAgainstReservation(w.account, w.log, StateOf(w).attempts[id]) ==>
          BackedByOwnReservation(w.account, w.log, id))
  {
    hide Run, Inv, Fold, PreparedAgainstReservation, BackedByOwnReservation, HasOrigin;
    RunKeepsInv(account, actions);
    var w := Run(account, actions);
    SubmissionInOrder(w, i);
    AttemptIsReservedOnce(account, w.log, w.submissions[i].attempt);
  }

  lemma AttemptIsReservedOnce(account: Id, log: seq<Event>, id: Id)
    requires AdmittedJournal(log) && id in Fold(account, log).state.attempts
    ensures HasOrigin(account, log, Fold(account, log).state.attempts[id])
    ensures PreparedAgainstReservation(account, log, Fold(account, log).state.attempts[id]) ==>
        BackedByOwnReservation(account, log, id)
  {
    hide Fold, PreparedAgainstReservation, HasOrigin;
    var s := Fold(account, log).state;
    AttemptOrigin(account, log, id);
    JournalStaysAccounted(account, log);
    if PreparedAgainstReservation(account, log, s.attempts[id]) {
      ReservationOfAttempt(account, log, id);
      assert ReservationAccounted(s, s.attempts[id].preparation.order);
      forall b | b in s.attempts && s.attempts[b].preparation.order == s.attempts[id].preparation.order
                 && PreparedAgainstReservation(account, log, s.attempts[b])
        ensures b == id
      {
        ReservationBacksOneAttempt(account, log, id, b);
      }
    }
  }

  // ----- The protocol is not stuck -----

  /** A session with a domain has verified it, and the account's snapshot is current. */
  predicate VerifiedAt(c: Config, log: seq<Event>, now: Time, verifiedNow: bool) {
    c.domain.Some? ==>
      && verifiedNow && SnapshotIn(log).Some?
      && SnapshotIn(log).value.valuationAt <= now < SnapshotIn(log).value.validUntil
  }

  ghost predicate ReadyToReserve(w: World, sid: Sid, attempt: Id) {
    && Inv(w) && Fold(w.account, w.log).readable && w.guard.None? && attempt !in w.minted
    && sid in w.sessions && !w.sessions[sid].failed && w.sessions[sid].phase.Idle?
  }

  /** Reserving with this call, confirming, and dispatching, all without interference. */
  ghost function Reserved(w: World, sid: Sid, call: Call): World {
    Next(Next(w, Write(sid, |w.log|, call)), Confirm(sid))
  }

  ghost function Dispatched(w: World, sid: Sid, attempt: Id, order: Order, now: Time, verifiedNow: bool): World {
    var entered := Next(w, EnterDispatch(sid, |w.log|, attempt, order, now, verifiedNow));
    Next(Next(Next(entered, Authorize(sid)), Mark(sid)), Submit(sid))
  }

  /** Exactly one event and one broker call have been added, for the attempt just prepared. */
  ghost predicate CalledOnce(w: World, w': World, sid: Sid, attempt: Id) {
    && |w'.log| == |w.log| + 1 && w'.submissions == w.submissions + [Submission(sid, attempt, |w.log| + 1)]
    && sid in w'.sessions && w'.sessions[sid].phase.Outcome? && w'.guard == Some(sid)
  }

  /**
   * An undisturbed session gets its order through, on an account without a domain as on a bound one: whenever the
   * journal allows the order to be reserved, reserving, confirming and dispatching ends with exactly one broker
   * call, for the attempt just prepared.
   */
  lemma UndisturbedSessionSubmits(w: World, sid: Sid, order: Order, newRisk: bool, attempt: Id, fence: Id, now: Time,
                                  verifiedNow: bool)
    requires ReadyToReserve(w, sid, attempt)
    requires MayReserve(w.sessions[sid].config, w.log, order) && !(newRisk && OpenIn(w.log))
    requires VerifiedAt(w.sessions[sid].config, w.log, now, verifiedNow)
    ensures
      var reserved := Reserved(w, sid, ReserveOrder(order, newRisk, attempt, fence));
      CalledOnce(w, Dispatched(reserved, sid, attempt, order, now, verifiedNow), sid, attempt)
  {
    var c, call := w.sessions[sid].config, ReserveOrder(order, newRisk, attempt, fence);
    SessionSeesAccount(w, sid);
    ReserveAnswersExactly(c, w.log, order, newRisk, attempt, fence);
    var p := Decide(c, StateOf(w), call).value.preparation;
    ReserveGoesOut(w, c, p, now, verifiedNow);
    hide Reserved, Dispatched, Inv, Fold, MayReserve, Decide, VerifiedAt;
    PreparedSubmits(w, sid, call, p, now, verifiedNow);
  }

  /**
   * An undisturbed brake reduction gets through as well: whenever the journal allows it, reserving, confirming and
   * dispatching it on the unchanged snapshot ends with exactly one broker call.
   */
  lemma UndisturbedReductionSubmits(w: World, sid: Sid, order: Order, attempt: Id, fence: Id, now: Time,
                                    verifiedNow: bool)
    requires ReadyToReserve(w, sid, attempt)
    requires MayReduce(w.sessions[sid].config, w.log, order, true)
    requires VerifiedAt(w.sessions[sid].config, w.log, now, verifiedNow)
    ensures
      var reserved := Reserved(w, sid, Call.ReserveReduction(order, true, attempt, fence));
      CalledOnce(w, Dispatched(reserved, sid, attempt, order, now, verifiedNow), sid, attempt)
  {
    var c, call := w.sessions[sid].config, Call.ReserveReduction(order, true, attempt, fence);
    SessionSeesAccount(w, sid);
    ReductionAnswersExactly(c, w.log, order, true, attempt, fence);
    var p := Decide(c, StateOf(w), call).value.preparation;
    ReductionGoesOut(w, c, p, order, now, verifiedNow);
    hide Reserved, Dispatched, Inv, Fold, MayReduce, Decide, VerifiedAt;
    PreparedSubmits(w, sid, call, p, now, verifiedNow);
  }

  lemma SessionSeesAccount(w: World, sid: Sid)
    requires Inv(w) && sid in w.sessions
    ensures w.sessions[sid].config.account == w.account
  {
    SessionInOrder(w, sid);
  }

  /** A new attempt as dispatch will find it. */
  function NewAttempt(s: State, e: Event): Attempt
    requires e.data.Prepared?
  {
    Attempt(e.data.preparation, e.sequence, e.digest, PREPARED, None, 0.0, s.equity, None, None, None)
  }

  /** The preparation is one that dispatch will let out on the unchanged account. */
  predicate GoesOut(c: Config, s: State, p: Preparation, now: Time, verifiedNow: bool) {
    && !(p.purpose.NewRisk? && s.breakerOpen)
    && DispatchFactsCurrent(c, s, NewAttempt(s, Seal(s, c.account, Prepared(p))), now, verifiedNow)
  }

  lemma ReserveGoesOut(w: World, c: Config, p: Preparation, now: Time, verifiedNow: bool)
    requires Fold(w.account, w.log).readable && c.account == w.account && MayReserve(c, w.log, p.order.order)
    requires VerifiedAt(c, w.log, now, verifiedNow)
    requires !p.purpose.Reduction? && !(p.purpose.NewRisk? && OpenIn(w.log))
    ensures GoesOut(c, StateOf(w), p, now, verifiedNow)
  {
    AccountAnswers(c, w.log);
    ReservationsAgree(w.account, w.log, p.order);
    hide Fold, OpenIn, AllSettled, SubmittedIn, RiskUsedIn, SnapshotIn;
  }

  lemma ReductionGoesOut(w: World, c: Config, p: Preparation, order: Order, now: Time, verifiedNow: bool)
    requires Fold(w.account, w.log).readable && c.account == w.account && MayReduce(c, w.log, order, true)
    requires VerifiedAt(c, w.log, now, verifiedNow)
    requires p.purpose == Reduction(SnapshotIn(w.log).value.source)
    ensures GoesOut(c, StateOf(w), p, now, verifiedNow)
  {
    AccountAnswers(c, w.log);
    SnapshotIsSound(w.account, w.log);
    hide Fold, OpenIn, SubmittedIn, SnapshotIn, AllOver, AllFillsCovered;
  }

  predicate ReadyToDispatch(w: World, sid: Sid, order: Order, attempt: Id, now: Time, verifiedNow: bool) {
    && Fold(w.account, w.log).readable && w.guard.None? && sid in w.sessions
    && var s := w.sessions[sid];
    && s.phase.Idle? && !s.failed
    && attempt in s.issued && attempt !in s.used
    && var g := s.issued[attempt];
    && g.attempt == attempt && g.order == OrderDigest(order) && order.account == w.account && Owns(s, StateOf(w), g)
    && MayDispatch(StateOf(w).attempts[attempt], StateOf(w))
    && DispatchFactsCurrent(s.config, StateOf(w), StateOf(w).attempts[attempt], now, verifiedNow)
  }

  /** A grant that is in order is carried through the guard to exactly one broker call. */
  lemma DispatchSucceeds(w: World, sid: Sid, order: Order, attempt: Id, now: Time, verifiedNow: bool)
    requires ReadyToDispatch(w, sid, order, attempt, now, verifiedNow)
    ensures
      var entered := Next(w, EnterDispatch(sid, |w.log|, attempt, order, now, verifiedNow));
      var called := Next(Next(Next(entered, Authorize(sid)), Mark(sid)), Submit(sid));
      && called.log == w.log && called.submissions == w.submissions + [Submission(sid, attempt, |w.log|)]
      && sid in called.sessions && called.sessions[sid].phase.Outcome? && called.guard == Some(sid)
  {
    hide Fold;
    assert w.log[..|w.log|] == w.log;
    var g := w.sessions[sid].issued[attempt];
    var entered := Next(w, EnterDispatch(sid, |w.log|, attempt, order, now, verifiedNow));
    assert entered == With(w, sid, w.sessions[sid].(phase := Holding(g))).(guard := Some(sid));
    var authorized := Next(entered, Authorize(sid));
    assert authorized == With(entered, sid, entered.sessions[sid].(phase := Authorized(g)));
    var marked := Next(authorized, Mark(sid));
    assert marked.sessions[sid].phase == Marked(g);
  }

  lemma ConfirmIsNext(w: World, sid: Sid)
    requires sid in w.sessions && w.sessions[sid].phase.Confirming?
    ensures Next(w, Confirm(sid)) == NextConfirm(w, sid)
  {
  }

  lemma PreparationIsFolded(w: World, p: Preparation)
    requires Fold(w.account, w.log).readable && PreparationAllowed(StateOf(w), p)
    ensures
      var s := StateOf(w);
      var e := Seal(s, w.account, Prepared(p));
      var f := Fold(w.account, w.log + [e]);
      && f.readable && f.state.generation == e.sequence && f.state.head == e.digest
      && f.state.breakerOpen == s.breakerOpen && f.state.binding == s.binding
      && f.state.reservations == s.reservations && f.state.equity == s.equity
      && p.attempt in f.state.attempts
      && f.state.attempts[p.attempt]
          == Attempt(p, e.sequence, e.digest, PREPARED, None, 0.0, s.equity, None, None, None)
  {
    AppendFolds(w.account, w.log, Seal(StateOf(w), w.account, Prepared(p)));
  }

  lemma ConfirmGrants(created: World, w: World, sid: Sid, p: Preparation, now: Time, verifiedNow: bool)
    requires sid in w.sessions && w.guard.None? && PreparationAllowed(StateOf(w), p)
    requires Fold(w.account, w.log).readable
    requires
      var drawn, e := w.(minted := w.minted + {p.attempt}), Seal(StateOf(w), w.account, Prepared(p));
      created == Created(drawn, sid, e, None)
    requires GoesOut(w.sessions[sid].config, StateOf(w), p, now, verifiedNow)
    requires !w.sessions[sid].failed && w.sessions[sid].config.account == w.account
    requires p.order.order.account == w.account && p.attempt !in w.sessions[sid].used
    ensures sid in created.sessions && created.sessions[sid].phase.Confirming?
    ensures ReadyToDispatch(NextConfirm(created, sid), sid, p.order.order, p.attempt, now, verifiedNow)
    ensures NextConfirm(created, sid).log == created.log && NextConfirm(created, sid).submissions == w.submissions
  {
    PreparationIsFolded(w, p);
    hide Fold, PreparationAllowed;
  }

  /** The call prepares exactly this on the journal that the session sees. */
  ghost predicate DecidesOn(c: Config, s: State, call: Call, p: Preparation) {
    && (call.ReserveOrder? || call.ReserveReduction?) && call.attempt == p.attempt
    && Decide(c, s, call) == Some(Prepared(p))
  }

  /** A decided preparation that may go out is created, confirmed, and dispatched to one broker call. */
  lemma PreparedSubmits(w: World, sid: Sid, call: Call, p: Preparation, now: Time, verifiedNow: bool)
    requires ReadyToReserve(w, sid, p.attempt) && DecidesOn(w.sessions[sid].config, StateOf(w), call, p)
    requires GoesOut(w.sessions[sid].config, StateOf(w), p, now, verifiedNow)
    requires p.order.order.account == w.account
    ensures CalledOnce(w, Dispatched(Reserved(w, sid, call), sid, p.attempt, p.order.order, now, verifiedNow), sid,
                       p.attempt)
  {
    hide Next, Inv, Fold, StateOf, Owns, GoesOut, DecidesOn;
    PreparedSucceeds(w, sid, call, p, now, verifiedNow);
    DispatchSucceeds(Reserved(w, sid, call), sid, p.order.order, p.attempt, now, verifiedNow);
  }

  lemma PreparedIsAllowed(w: World, sid: Sid, call: Call, p: Preparation)
    requires ReadyToReserve(w, sid, p.attempt) && DecidesOn(w.sessions[sid].config, StateOf(w), call, p)
    requires !(p.purpose.NewRisk? && StateOf(w).breakerOpen)
    ensures PreparationAllowed(StateOf(w), p) && w.sessions[sid].config.account == w.account
    ensures p.attempt !in w.sessions[sid].used
  {
    var c, s := w.sessions[sid].config, StateOf(w);
    SessionInOrder(w, sid);
    FoldIsCoherent(w.account, w.log);
    assert p.attempt !in s.attempts.Keys;
    WriterEventReplaysExactly(c, s, call);
    hide Decide, Fold, Inv, StateCoherent, PreparationAllowed;
  }

  lemma PreparedSucceeds(w: World, sid: Sid, call: Call, p: Preparation, now: Time, verifiedNow: bool)
    requires ReadyToReserve(w, sid, p.attempt) && DecidesOn(w.sessions[sid].config, StateOf(w), call, p)
    requires GoesOut(w.sessions[sid].config, StateOf(w), p, now, verifiedNow)
    requires p.order.order.account == w.account
    ensures
      var r := Reserved(w, sid, call);
      && |r.log| == |w.log| + 1 && r.submissions == w.submissions
      && ReadyToDispatch(r, sid, p.order.order, p.attempt, now, verifiedNow)
  {
    PreparedIsAllowed(w, sid, call, p);
    assert w.log[..|w.log|] == w.log;
    var created := Next(w, Write(sid, |w.log|, call));
    hide Decide, PreparationAllowed, GoesOut, Fold;
    var drawn, e := w.(minted := w.minted + {p.attempt}), Seal(StateOf(w), w.account, Prepared(p));
    assert created == Created(drawn, sid, e, None);
    hide Next;
    ConfirmGrants(created, w, sid, p, now, verifiedNow);
    assert Next(created, Confirm(sid)) == NextConfirm(created, sid) by { ConfirmIsNext(created, sid); }
  }
}
