/** What the steps of one call owe to the steps before it, over whole runs. */
module CallHistory {
  import opened Prelude
  import opened Journal
  import opened JournalLaws
  import opened Writers
  import opened Protocol
  import opened Safety
  import opened JournalFacts
  import opened LastWord
  import opened Answers

  // ----- The second half of a binding reserve -----

  /** Action `j` bound the domain for this session's reserve call, as the n-th event of the journal. */
  ghost predicate BindsAt(account: Id, actions: seq<Action>, j: nat, sid: Sid, p: Pending, n: nat)
    requires j < |actions|
  {
    var log := Run(account, actions[..j + 1]).log;
    && actions[j].Write? && actions[j].sid == sid && actions[j].call == Bind(p.order, p.newRisk)
    && |Run(account, actions[..j]).log| == n - 1 && |log| == n > 0 && log[n - 1].data.DomainBound?
  }

  ghost predicate BoundBefore(account: Id, actions: seq<Action>, sid: Sid, p: Pending, n: nat) {
    exists j :: 0 <= j < |actions| && BindsAt(account, actions, j, sid, p, n)
  }

  lemma BoundBeforeStays(account: Id, actions: seq<Action>, a: Action, sid: Sid, p: Pending, n: nat)
    requires BoundBefore(account, actions, sid, p, n)
    ensures BoundBefore(account, actions + [a], sid, p, n)
  {
    var j :| 0 <= j < |actions| && BindsAt(account, actions, j, sid, p, n);
    var longer := actions + [a];
    assert longer[..j] == actions[..j] && longer[..j + 1] == actions[..j + 1] && longer[j] == actions[j];
    assert BindsAt(account, longer, j, sid, p, n);
  }

  /** The reserve call that the session is in the middle of, if it has bound the domain. */
  function Resumes(phase: Phase): Option<(Pending, nat)> {
    match phase
    case Confirming(n, _, _, Some(p)) => Some((p, n))
    case Rereading(n, p) => Some((p, n))
    case _ => None
  }

  function PhaseOf(w: World, sid: Sid): Phase {
    if sid in w.sessions then w.sessions[sid].phase else Idle
  }

  lemma ResumingIsNew(w: World, a: Action, sid: Sid)
    requires Resumes(PhaseOf(Next(w, a), sid)).Some?
    requires Resumes(PhaseOf(Next(w, a), sid)) != Resumes(PhaseOf(w, sid))
    ensures a.Write? && a.sid == sid && sid in w.sessions && |Next(w, a).log| == |w.log| + 1
    ensures
      var (p, n) := Resumes(PhaseOf(Next(w, a), sid)).value;
      a.call == Bind(p.order, p.newRisk) && n == Next(w, a).log[|w.log|].sequence
  {
    hide Fold, Decide;
  }

  /** A session comes to be in the middle of a binding reserve only by binding. */
  lemma OnlyBindingResumes(w: World, a: Action, sid: Sid)
    requires Inv(w) && Resumes(PhaseOf(Next(w, a), sid)).Some?
    requires Resumes(PhaseOf(Next(w, a), sid)) != Resumes(PhaseOf(w, sid))
    ensures
      var (p, n) := Resumes(PhaseOf(Next(w, a), sid)).value;
      && a.Write? && a.sid == sid && a.call == Bind(p.order, p.newRisk)
      && |w.log| == n - 1 && |Next(w, a).log| == n && Next(w, a).log[n - 1].data.DomainBound?
  {
    ResumingIsNew(w, a, sid);
    hide Next, Fold, Inv, Resumes, Decide;
    GrowthIsDecided(w, a);
    FreshCreateWins(w, a.sid, a.call);
    OnlyBindBinds(w.sessions[a.sid].config, StateOf(w), a.call);
    CreatedSaysDecision(w, a.sid, a.call);
  }

  /** The event that a fresh create adds carries the decision. */
  lemma CreatedSaysDecision(w: World, sid: Sid, call: Call)
    requires WriteEnabled(w, sid, |w.log|, call)
    requires Decide(w.sessions[sid].config, StateOf(w), call).Some?
    ensures
      var w' := Next(w, Write(sid, |w.log|, call));
      && |w'.log| == |w.log| + 1
      && w'.log[|w.log|].data == Decide(w.sessions[sid].config, StateOf(w), call).value
      && w'.sessions.Keys == w.sessions.Keys && w'.sessions[sid].used == w.sessions[sid].used
  {
    hide Decide, Fold;
    assert w.log[..|w.log|] == w.log;
  }

  lemma OnlyBindBinds(c: Config, s: State, call: Call)
    requires Decide(c, s, call).Some?
    ensures call.Bind? <==> Decide(c, s, call).value.DomainBound?
  {
  }

  lemma BoundNow(account: Id, actions: seq<Action>, a: Action, sid: Sid, p: Pending, n: nat)
    requires a.Write? && a.sid == sid && a.call == Bind(p.order, p.newRisk)
    requires
      var w := Run(account, actions);
      |w.log| == n - 1 && |Next(w, a).log| == n && Next(w, a).log[n - 1].data.DomainBound?
    ensures BoundBefore(account, actions + [a], sid, p, n)
  {
    hide Next;
    var j, longer := |actions|, actions + [a];
    assert longer[..j] == actions && longer[..j + 1] == longer && longer[j] == a;
    assert BindsAt(account, longer, j, sid, p, n);
  }

  lemma {:induction false} ResumesAfterBinding(account: Id, actions: seq<Action>, sid: Sid)
    ensures
      var r := Resumes(PhaseOf(Run(account, actions), sid));
      r.Some? ==> BoundBefore(account, actions, sid, r.value.0, r.value.1)
    decreases |actions|
  {
    hide Next, Inv, BoundBefore;
    if actions != [] {
      var shorter, a := actions[..|actions| - 1], actions[|actions| - 1];
      assert actions == shorter + [a];
      ResumesAfterBinding(account, shorter, sid);
      RunKeepsInv(account, shorter);
      var w := Run(account, shorter);
      assert Run(account, actions) == Next(w, a);
      hide Run;
      var r := Resumes(PhaseOf(Next(w, a), sid));
      hide Resumes;
      if r.Some? && r == Resumes(PhaseOf(w, sid)) {
        BoundBeforeStays(account, shorter, a, sid, r.value.0, r.value.1);
      } else if r.Some? {
        OnlyBindingResumes(w, a, sid);
        BoundNow(account, shorter, a, sid, r.value.0, r.value.1);
      }
    } else {
      assert Run(account, actions) == Start(account);
    }
  }

  lemma GoingOnNeedsBinding(w: World, sid: Sid, seen: nat, call: Call)
    requires Next(w, Write(sid, seen, call)) != w && call.ReserveAfterBind?
    ensures
      var r := Resumes(PhaseOf(w, sid));
      r.Some? && r.value.0 == Pending(call.order, call.newRisk) && r.value.1 <= seen
  {
    hide Fold, Decide;
  }

  /**
   * The second half of a reserve call follows its first half: over every run, a step that prepares after binding is
   * taken only by the session that bound the domain in the same call, for the same order and the same kind of risk,
   * on a read that includes the binding.
   */
  lemma SecondHalfFollowsBinding(account: Id, actions: seq<Action>, sid: Sid, seen: nat, call: Call)
    requires call.ReserveAfterBind?
    requires Next(Run(account, actions), Write(sid, seen, call)) != Run(account, actions)
    ensures exists n: nat :: n <= seen && BoundBefore(account, actions, sid, Pending(call.order, call.newRisk), n)
  {
    GoingOnNeedsBinding(Run(account, actions), sid, seen, call);
    ResumesAfterBinding(account, actions, sid);
  }

  // ----- Observations -----

  /** Event `i` is an observation by the session that prepared the attempt and has consumed its grant. */
  ghost predicate RecordedByOwner(w: World, i: nat)
    requires i < |w.log|
  {
    w.log[i].data.Observed? ==>
      && w.log[i].data.attempt in StateOf(w).attempts && i < |w.authors| && w.authors[i] in w.sessions
      && AuthorOf(w, StateOf(w).attempts[w.log[i].data.attempt]) == Some(w.authors[i])
      && w.log[i].data.attempt in w.sessions[w.authors[i]].used
  }

  lemma UsedStays(w: World, a: Action, sid: Sid)
    requires sid in w.sessions
    ensures sid in Next(w, a).sessions && w.sessions[sid].used <= Next(w, a).sessions[sid].used
  {
    hide Fold, Decide;
  }

  lemma OwnerStays(w: World, a: Action, i: nat)
    requires i < |w.log| && RecordedByOwner(w, i)
    ensures w.log <= Next(w, a).log && RecordedByOwner(Next(w, a), i)
  {
    NextExtends(w, a);
    hide Next, Fold, Inv;
    if w.log[i].data.Observed? {
      var w' := Next(w, a);
      UsedStays(w, a, w.authors[i]);
      FoldEvolves(w.account, w.log, w'.log);
      assert Advances(StateOf(w).attempts[w.log[i].data.attempt], StateOf(w').attempts[w.log[i].data.attempt]);
    }
  }

  lemma OnlyRecordingObserves(c: Config, s: State, call: Call)
    requires Decide(c, s, call).Some? && Decide(c, s, call).value.Observed?
    ensures call.RecordObservation? && call.observed == Decide(c, s, call).value.attempt
  {
  }

  /** Who may observe: the session whose create prepared the attempt, after consuming the grant. */
  lemma ObserverOwns(w: World, sid: Sid, call: Call)
    requires Inv(w) && WriteEnabled(w, sid, |w.log|, call) && call.RecordObservation?
    ensures
      && call.observed in StateOf(w).attempts && call.observed in w.sessions[sid].used
      && AuthorOf(w, StateOf(w).attempts[call.observed]) == Some(sid)
    ensures w.sessions[sid].phase.Outcome? ==> call.observed == w.sessions[sid].phase.grant.attempt
  {
    SessionInOrder(w, sid);
    hide Inv, Fold;
    assert w.log[..|w.log|] == w.log;
    assert Backed(w, sid, w.sessions[sid].issued[call.observed]);
  }

  lemma NewObservationIsOwners(w: World, a: Action)
    requires Inv(w) && Next(w, a).log != w.log
    ensures |Next(w, a).log| == |w.log| + 1 && RecordedByOwner(Next(w, a), |w.log|)
  {
    GrowthIsDecided(w, a);
    FreshCreateWins(w, a.sid, a.call);
    CreatedSaysDecision(w, a.sid, a.call);
    NextExtends(w, a);
    hide Next, Fold, Inv, Decide, WriteEnabled;
    var w' := Next(w, a);
    if w'.log[|w.log|].data.Observed? {
      OnlyRecordingObserves(w.sessions[a.sid].config, StateOf(w), a.call);
      ObserverOwns(w, a.sid, a.call);
      FoldEvolves(w.account, w.log, w'.log);
      assert Advances(StateOf(w).attempts[a.call.observed], StateOf(w').attempts[a.call.observed]);
    }
  }

  /**
   * Over every interleaving, an observation stands in the journal only by the session that prepared the attempt and
   * has consumed its grant: nobody else reports what became of an order.
   */
  lemma {:induction false} OnlyOwnerRecords(account: Id, actions: seq<Action>, i: nat)
    requires i < |Run(account, actions).log|
    ensures RecordedByOwner(Run(account, actions), i)
    decreases |actions|
  {
    hide Next, Inv, RecordedByOwner, Fold;
    if actions != [] {
      var shorter, a := actions[..|actions| - 1], actions[|actions| - 1];
      RunKeepsInv(account, shorter);
      var w := Run(account, shorter);
      assert Run(account, actions) == Next(w, a);
      hide Run;
      NextExtends(w, a);
      if i < |w.log| {
        OnlyOwnerRecords(account, shorter, i);
        OwnerStays(w, a, i);
      } else {
        NewObservationIsOwners(w, a);
      }
    }
  }

  // ----- Consumed grants -----

  /** The session has consumed the grant without calling the broker, and is past the point where it would. */
  predicate Spent(w: World, sid: Sid, id: Id) {
    && sid in w.sessions && id in w.sessions[sid].used && id in w.sessions[sid].issued && !HandedOver(w, id)
    && !(w.sessions[sid].phase.Marked? && w.sessions[sid].phase.grant.attempt == id)
  }

  /** Losing the guard after the grant was consumed, a failure or a crash at that point spend the grant. */
  lemma LosingTheGuardSpends(w: World, sid: Sid, a: Action)
    requires Inv(w) && sid in w.sessions && w.sessions[sid].phase.Marked?
    requires a == SkipSubmit(sid) || a == Abort(sid) || a == Crash(sid)
    ensures Spent(Next(w, a), sid, w.sessions[sid].phase.grant.attempt)
  {
    SessionInOrder(w, sid);
    hide Inv, Fold, Decide;
  }

  /** Only its owner could still call the broker for a spent grant. */
  lemma OnlyOwnerIsMarked(w: World, sid: Sid, t: Sid, id: Id)
    requires Inv(w) && Spent(w, sid, id) && t in w.sessions && w.sessions[t].phase.Marked?
    ensures w.sessions[t].phase.grant.attempt != id
  {
    SessionInOrder(w, sid);
    SessionInOrder(w, t);
    hide Inv, Fold;
    assert Backed(w, sid, w.sessions[sid].issued[id]);
    var g := w.sessions[t].phase.grant;
    assert Backed(w, t, w.sessions[t].issued[g.attempt]);
  }

  lemma SpentStays(w: World, a: Action, sid: Sid, id: Id)
    requires Inv(w) && Spent(w, sid, id)
    ensures Spent(Next(w, a), sid, id)
  {
    SessionInOrder(w, sid);
    if a.Submit? && a.sid in w.sessions && w.sessions[a.sid].phase.Marked? {
      OnlyOwnerIsMarked(w, sid, a.sid, id);
    }
    NewCallIsMarked(w, a);
    UsedStays(w, a, sid);
    IssuedStays(w, a, sid, id);
    NotMarkedAgain(w, a, sid, id);
    hide Next, Inv, Fold;
  }

  lemma NewCallIsMarked(w: World, a: Action)
    ensures Next(w, a).submissions == w.submissions
            || (a.Submit? && a.sid in w.sessions && w.sessions[a.sid].phase.Marked?
                && Next(w, a).submissions
                   == w.submissions + [Submission(a.sid, w.sessions[a.sid].phase.grant.attempt, |w.log|)])
  {
    hide Fold, Decide;
  }

  lemma IssuedStays(w: World, a: Action, sid: Sid, id: Id)
    requires sid in w.sessions && id in w.sessions[sid].issued
    ensures sid in Next(w, a).sessions && id in Next(w, a).sessions[sid].issued
  {
    hide Fold, Decide;
  }

  lemma NotMarkedAgain(w: World, a: Action, sid: Sid, id: Id)
    requires sid in w.sessions && id in w.sessions[sid].used && sid in Next(w, a).sessions
    requires !(w.sessions[sid].phase.Marked? && w.sessions[sid].phase.grant.attempt == id)
    requires w.sessions[sid].phase.Authorized? ==> w.sessions[sid].phase.grant.attempt !in w.sessions[sid].used
    ensures !(PhaseOf(Next(w, a), sid).Marked? && PhaseOf(Next(w, a), sid).grant.attempt == id)
  {
    hide Fold, Decide;
  }

  /**
   * A grant is consumed for good: once a session has consumed it and lost the guard, failed or crashed before the
   * broker call, the broker is not called for that attempt on any continuation.
   */
  lemma {:induction false} SpentGrantIsNeverCalled(account: Id, actions: seq<Action>, longer: seq<Action>, sid: Sid,
                                                   id: Id)
    requires actions <= longer && Spent(Run(account, actions), sid, id)
    ensures !HandedOver(Run(account, longer), id) && Spent(Run(account, longer), sid, id)
    decreases |longer|
  {
    hide Next, Inv;
    if |actions| == |longer| {
      assert actions == longer;
    } else {
      var shorter := longer[..|longer| - 1];
      SpentGrantIsNeverCalled(account, actions, shorter, sid, id);
      RunKeepsInv(account, shorter);
      SpentStays(Run(account, shorter), longer[|longer| - 1], sid, id);
    }
  }

  // ----- Lost guards -----

  lemma AbortFails(w: World, sid: Sid)
    requires sid in w.sessions && !w.sessions[sid].phase.Idle? && !w.sessions[sid].phase.Crashed?
    ensures
      var w' := Next(w, Abort(sid));
      && sid in w'.sessions && w'.sessions[sid].failed && w'.guard != Some(sid) && SilentBetween(w, w', sid)
      && w'.log == w.log && w'.submissions == w.submissions
  {
    hide Fold, Decide;
  }

  /** A session that notices a lost guard inside any call fails, and is silent on every continuation. */
  lemma AbortedSessionIsSilent(account: Id, actions: seq<Action>, longer: seq<Action>, sid: Sid)
    requires actions + [Abort(sid)] <= longer && sid in Run(account, actions).sessions
    requires
      var phase := Run(account, actions).sessions[sid].phase;
      !phase.Idle? && !phase.Crashed?
    ensures IsOut(Run(account, longer), sid) && SilentBetween(Run(account, actions), Run(account, longer), sid)
  {
    var aborted := actions + [Abort(sid)];
    assert aborted[..|actions|] == actions;
    assert Run(account, aborted) == Next(Run(account, actions), Abort(sid));
    AbortFails(Run(account, actions), sid);
    hide Run, Next;
    FailedSessionIsSilent(account, aborted, longer, sid);
  }

  // ----- A whole run -----

  /** One session alone, from the empty journal to the broker. */
  function Alone(sid: Sid, c: Config, order: Order, newRisk: bool, attempt: Id, fence: Id, now: Time,
                 verifiedNow: bool): seq<Action> {
    [Open(sid, c), Write(sid, 0, ReserveOrder(order, newRisk, attempt, fence)), Confirm(sid),
     EnterDispatch(sid, 1, attempt, order, now, verifiedNow), Authorize(sid), Mark(sid), Submit(sid)]
  }

  lemma EmptyJournalMayReserve(c: Config, order: Order)
    requires c.domain.None? && OrderFits(c, order)
    ensures MayReserve(c, [], order) && !OpenIn([])
  {
  }

  lemma OpenedIsReady(account: Id, sid: Sid, c: Config, attempt: Id)
    requires c.account == account
    ensures
      var w := Next(Start(account), Open(sid, c));
      ReadyToReserve(w, sid, attempt) && w.log == [] && w.submissions == [] && w.sessions[sid].config == c
  {
    RunKeepsInv(account, []);
    NextKeepsInv(Start(account), Open(sid, c));
    hide Inv;
  }

  lemma ReservedHasOne(w: World, sid: Sid, order: Order, newRisk: bool, attempt: Id, fence: Id, now: Time,
                       verifiedNow: bool)
    requires ReadyToReserve(w, sid, attempt) && w.log == []
    requires MayReserve(w.sessions[sid].config, w.log, order) && !(newRisk && OpenIn(w.log))
    requires VerifiedAt(w.sessions[sid].config, w.log, now, verifiedNow)
    ensures |Reserved(w, sid, ReserveOrder(order, newRisk, attempt, fence)).log| == 1
  {
    var c, call := w.sessions[sid].config, ReserveOrder(order, newRisk, attempt, fence);
    SessionSeesAccount(w, sid);
    ReserveAnswersExactly(c, w.log, order, newRisk, attempt, fence);
    var p := Decide(c, StateOf(w), call).value.preparation;
    ReserveGoesOut(w, c, p, now, verifiedNow);
    hide Reserved, Inv, Fold, MayReserve, Decide, VerifiedAt;
    PreparedSucceeds(w, sid, call, p, now, verifiedNow);
  }

  lemma RunOfAlone(account: Id, sid: Sid, c: Config, order: Order, newRisk: bool, attempt: Id, fence: Id, now: Time,
                   verifiedNow: bool)
    ensures
      var w := Next(Start(account), Open(sid, c));
      var reserved := Reserved(w, sid, ReserveOrder(order, newRisk, attempt, fence));
      w.log == [] && |reserved.log| == 1 ==>
        Run(account, Alone(sid, c, order, newRisk, attempt, fence, now, verifiedNow))
        == Dispatched(reserved, sid, attempt, order, now, verifiedNow)
  {
    hide Next;
    var actions := Alone(sid, c, order, newRisk, attempt, fence, now, verifiedNow);
    assert actions[..0] == [] && actions[..7] == actions;
    RunSplitsAt(account, actions, 0);
    RunSplitsAt(account, actions, 1);
    RunSplitsAt(account, actions, 2);
    RunSplitsAt(account, actions, 3);
    RunSplitsAt(account, actions, 4);
    RunSplitsAt(account, actions, 5);
    RunSplitsAt(account, actions, 6);
  }

  /** From nothing: a session without a domain opens, reserves, confirms, dispatches, and the broker is called once. */
  lemma AloneSubmits(account: Id, sid: Sid, c: Config, order: Order, newRisk: bool, attempt: Id, fence: Id, now: Time,
                     verifiedNow: bool)
    requires c.account == account && c.domain.None? && OrderFits(c, order)
    ensures
      var w := Run(account, Alone(sid, c, order, newRisk, attempt, fence, now, verifiedNow));
      |w.log| == 1 && w.submissions == [Submission(sid, attempt, 1)]
  {
    var w := Next(Start(account), Open(sid, c));
    OpenedIsReady(account, sid, c, attempt);
    EmptyJournalMayReserve(c, order);
    assert VerifiedAt(c, w.log, now, verifiedNow);
    hide Next, Run, MayReserve, Reserved, Dispatched, ReadyToReserve, Alone, OrderFits, VerifiedAt;
    RunOfAlone(account, sid, c, order, newRisk, attempt, fence, now, verifiedNow);
    ReservedHasOne(w, sid, order, newRisk, attempt, fence, now, verifiedNow);
    UndisturbedSessionSubmits(w, sid, order, newRisk, attempt, fence, now, verifiedNow);
  }
}
