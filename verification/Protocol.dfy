/**
 * Many sessions over one account journal: every interleaving of reads, creates, confirmations, guarded
 * dispatches, lost guards and crashes, as runs of a transition system.
 */
module Protocol {
  import opened Prelude
  import opened Journal
  import opened JournalLaws
  import opened Writers
  import opened Replayability
  import opened RiskAccounting

  type Sid = nat

  datatype Grant = Grant(
    account: Id, attempt: Id, fence: Id, generation: nat, digest: EventDigest,
    intent: Id, order: OrderDigest, release: Id)

  /** What a reserve call still has to do once it has bound the domain. */
  datatype Pending = Pending(order: Order, newRisk: bool)

  /** Where one session stands inside the call it is executing; its mutex admits one call at a time. */
  datatype Phase =
    | Idle
    | Confirming(sequence: nat, digest: EventDigest, earned: Option<Grant>, resume: Option<Pending>)
                                  // created, confirmation read still to come
    | Rereading(sequence: nat, pending: Pending)  // reserve has bound the domain and is about to read again
    | Holding(grant: Grant)       // dispatch is inside the writer guard
    | Authorized(grant: Grant)    // the read inside the guard allowed the broker call
    | Marked(grant: Grant)        // the grant is consumed
    | Outcome(grant: Grant)       // the broker call is over, its outcome is still to be appended
    | HoldingForBreaker           // the breaker writer is inside the writer guard
    | Crashed

  datatype Session = Session(config: Config, issued: map<Id, Grant>, used: set<Id>, failed: bool, phase: Phase)

  /** One call of the broker's submit function, with the journal length at that moment. */
  datatype Submission = Submission(session: Sid, attempt: Id, at: nat)

  /**
   * `authors[i]` is the session whose create put event `i` there; `guard` is the process-wide account mutex
   * together with the writer guard; `minted` are the attempt ids drawn so far.
   */
  datatype World = World(
    account: Id, log: seq<Event>, authors: seq<Sid>, sessions: map<Sid, Session>,
    guard: Option<Sid>, minted: set<Id>, submissions: seq<Submission>)

  function StateOf(w: World): State {
    Fold(w.account, w.log).state
  }

  datatype Action =
    | Open(sid: Sid, config: Config)
    | Write(sid: Sid, seen: nat, call: Call)  // a writer read the first `seen` events, now it creates
    | Confirm(sid: Sid)
    | EnterDispatch(sid: Sid, seen: nat, attempt: Id, order: Order, now: Time, verifiedNow: bool)
    | Authorize(sid: Sid)
    | Mark(sid: Sid)
    | Submit(sid: Sid)
    | SkipSubmit(sid: Sid)  // the guard was lost between consuming the grant and the broker call
    | EnterBreaker(sid: Sid)
    | GiveUp(sid: Sid)      // a read or check raised without making the session fail
    | Abort(sid: Sid)       // the guard or the persistence layer failed
    | Crash(sid: Sid)

  // ----- What one step does -----

  function With(w: World, sid: Sid, s: Session): World {
    w.(sessions := w.sessions[sid := s])
  }

  /** The session leaves whatever it was doing and lets go of the guard if it held it. */
  function Leave(w: World, sid: Sid, s: Session): World {
    With(w, sid, s.(phase := Idle)).(guard := if w.guard == Some(sid) then None else w.guard)
  }

  /** The grant is this session's own and the journal still backs every field of it. */
  predicate Owns(session: Session, s: State, g: Grant) {
    && g.attempt in session.issued && session.issued[g.attempt] == g
    && g.attempt in s.attempts
    && s.attempts[g.attempt].preparation.fence == g.fence && s.attempts[g.attempt].generation == g.generation
    && s.attempts[g.attempt].digest == g.digest && s.attempts[g.attempt].preparation.order == g.order
  }

  predicate MayDispatch(a: Attempt, s: State) {
    a.certainty == PREPARED && !(a.preparation.purpose.NewRisk? && s.breakerOpen)
  }

  /** The domain facts dispatch checks before it enters the guard. */
  predicate DispatchFactsCurrent(c: Config, s: State, a: Attempt, now: Time, verifiedNow: bool) {
    c.domain.None? ||
    (&& verifiedNow && s.binding == Some(BindingOf(c.domain.value)) && s.equity.Some?
     && var q := s.equity.value;
     && (if a.preparation.purpose.Reduction?
         then q.openOrdersComplete && q.openOrdersEmpty && q.source == a.preparation.purpose.source
         else ReservationFresh(s, a.preparation.order))
     && q.valuationAt <= now < q.validUntil)
  }

  predicate CallFitsPhase(session: Session, call: Call, seen: nat) {
    match session.phase
    case Idle => !call.OpenBreaker? && !call.ReserveAfterBind?
    case Rereading(n, pending) =>
      call.ReserveAfterBind? && call.order == pending.order && call.newRisk == pending.newRisk && n <= seen
    case Outcome(g) => call.RecordObservation? && call.observed == g.attempt
    case HoldingForBreaker => call.OpenBreaker?
    case _ => false
  }

  /** Only a dispatched grant of this session can be observed, and only while the journal backs it. */
  predicate MayObserve(session: Session, s: State, call: Call) {
    call.RecordObservation? ==>
      && call.observed in session.issued && call.observed in session.used
      && Owns(session, s, session.issued[call.observed])
  }

  predicate WriteEnabled(w: World, sid: Sid, seen: nat, call: Call) {
    && sid in w.sessions && !w.sessions[sid].failed && seen <= |w.log|
    && CallFitsPhase(w.sessions[sid], call, seen)
    && Fold(w.account, w.log[..seen]).readable
    && MayObserve(w.sessions[sid], Fold(w.account, w.log[..seen]).state, call)
    && (Mints(call) ==> call.attempt !in w.minted)
  }

  function GrantFor(c: Config, e: Event): Option<Grant> {
    match e.data
    case Prepared(p) => Some(Grant(c.account, p.attempt, p.fence, e.sequence, e.digest, p.intent, p.order, p.release))
    case _ => None
  }

  function ResumeOf(call: Call): Option<Pending> {
    if call.Bind? then Some(Pending(call.order, call.newRisk)) else None
  }

  ghost function NextWrite(w: World, sid: Sid, seen: nat, call: Call): World
    requires WriteEnabled(w, sid, seen, call)
  {
    var session := w.sessions[sid];
    var s := Fold(w.account, w.log[..seen]).state;
    match Decide(session.config, s, call)
    case None => if session.phase.Idle? then w else Leave(w, sid, session)
    case Some(d) =>
      var drawn := if Mints(call) then w.(minted := w.minted + {call.attempt}) else w;
      if seen < |w.log| then
        Leave(drawn, sid, session.(failed := true))  // the sequence number is taken
      else
        Created(drawn, sid, Seal(s, w.account, d), ResumeOf(call))
  }

  /** The create was acknowledged: the event is in the journal, the confirmation read comes later. */
  function Created(w: World, sid: Sid, e: Event, resume: Option<Pending>): World
    requires sid in w.sessions
  {
    var session := w.sessions[sid];
    With(w, sid, session.(phase := Confirming(e.sequence, e.digest, GrantFor(session.config, e), resume)))
      .(log := w.log + [e], authors := w.authors + [sid])
  }

  /** The confirmation read finds exactly the created event at the head of a readable journal. */
  predicate ConfirmationHolds(w: World, phase: Phase)
    requires phase.Confirming?
  {
    var read := Fold(w.account, w.log);
    read.readable && read.state.generation == phase.sequence && read.state.head == phase.digest
  }

  function NextConfirm(w: World, sid: Sid): World
    requires sid in w.sessions && w.sessions[sid].phase.Confirming?
  {
    var session := w.sessions[sid];
    var earned, resume := session.phase.earned, session.phase.resume;
    if !ConfirmationHolds(w, session.phase) then Leave(w, sid, session.(failed := true))
    else if resume.Some? then
      With(Leave(w, sid, session), sid, session.(phase := Rereading(session.phase.sequence, resume.value)))
    else if earned.None? then Leave(w, sid, session)
    else Leave(w, sid, session.(issued := session.issued[earned.value.attempt := earned.value]))
  }

  predicate DispatchEnabled(w: World, a: Action)
    requires a.EnterDispatch?
  {
    && a.sid in w.sessions && w.guard.None? && a.seen <= |w.log| && Fold(w.account, w.log[..a.seen]).readable
    && var session := w.sessions[a.sid];
    && var s := Fold(w.account, w.log[..a.seen]).state;
    && session.phase.Idle? && !session.failed
    && a.attempt in session.issued && a.attempt !in session.used
    && var g := session.issued[a.attempt];
    && Owns(session, s, g) && OrderDigest(a.order) == g.order && a.order.account == w.account
    && MayDispatch(s.attempts[g.attempt], s)
    && DispatchFactsCurrent(session.config, s, s.attempts[g.attempt], a.now, a.verifiedNow)
  }

  function NextAuthorize(w: World, sid: Sid): World
    requires sid in w.sessions && w.sessions[sid].phase.Holding?
  {
    var session := w.sessions[sid];
    var g := session.phase.grant;
    var read := Fold(w.account, w.log);
    if read.readable && Owns(session, read.state, g) && MayDispatch(read.state.attempts[g.attempt], read.state)
    then With(w, sid, session.(phase := Authorized(g)))
    else Leave(w, sid, session)
  }

  /** The grant is consumed before the broker is called. */
  function NextMark(w: World, sid: Sid): World
    requires sid in w.sessions && w.sessions[sid].phase.Authorized?
  {
    var session := w.sessions[sid];
    var g := session.phase.grant;
    With(w, sid, session.(phase := Marked(g), used := session.used + {g.attempt}))
  }

  function NextSkip(w: World, sid: Sid): World
    requires sid in w.sessions && w.sessions[sid].phase.Marked?
  {
    With(w, sid, w.sessions[sid].(phase := Outcome(w.sessions[sid].phase.grant)))
  }

  /** The broker is called: this is the only step that adds a submission. */
  function NextSubmit(w: World, sid: Sid): World
    requires sid in w.sessions && w.sessions[sid].phase.Marked?
  {
    var session := w.sessions[sid];
    var g := session.phase.grant;
    With(w, sid, session.(phase := Outcome(g))).(submissions := w.submissions + [Submission(sid, g.attempt, |w.log|)])
  }

  /** A call that raises here leaves the session usable. */
  predicate MayGiveUp(phase: Phase) {
    phase.Rereading? || phase.Outcome? || phase.HoldingForBreaker?
  }

  /** One atomic step; an action that is not enabled changes nothing. */
  ghost function Next(w: World, a: Action): World {
    match a
    case Open(sid, config) =>
      if sid !in w.sessions && config.account == w.account
      then With(w, sid, Session(config, map[], {}, false, Idle)) else w
    case Write(sid, seen, call) =>
      if WriteEnabled(w, sid, seen, call) then NextWrite(w, sid, seen, call) else w
    case Confirm(sid) =>
      if sid in w.sessions && w.sessions[sid].phase.Confirming? then NextConfirm(w, sid) else w
    case EnterDispatch(sid, _, attempt, _, _, _) =>
      if DispatchEnabled(w, a)
      then With(w, sid, w.sessions[sid].(phase := Holding(w.sessions[sid].issued[attempt]))).(guard := Some(sid)) else w
    case Authorize(sid) =>
      if sid in w.sessions && w.sessions[sid].phase.Holding? then NextAuthorize(w, sid) else w
    case Mark(sid) =>
      if sid in w.sessions && w.sessions[sid].phase.Authorized? then NextMark(w, sid) else w
    case Submit(sid) =>
      if sid in w.sessions && w.sessions[sid].phase.Marked? then NextSubmit(w, sid) else w
    case SkipSubmit(sid) =>
      if sid in w.sessions && w.sessions[sid].phase.Marked? then NextSkip(w, sid) else w
    case EnterBreaker(sid) =>
      if sid in w.sessions && w.sessions[sid].phase.Idle? && !w.sessions[sid].failed && w.guard.None?
      then With(w, sid, w.sessions[sid].(phase := HoldingForBreaker)).(guard := Some(sid)) else w
    case GiveUp(sid) =>
      if sid in w.sessions && MayGiveUp(w.sessions[sid].phase) then Leave(w, sid, w.sessions[sid]) else w
    case Abort(sid) =>
      if sid in w.sessions && !w.sessions[sid].phase.Idle? && !w.sessions[sid].phase.Crashed?
      then Leave(w, sid, w.sessions[sid].(failed := true)) else w
    case Crash(sid) =>
      if sid in w.sessions
      then With(Leave(w, sid, w.sessions[sid]), sid, w.sessions[sid].(phase := Crashed)) else w
  }

  function Start(account: Id): World {
    World(account, [], [], map[], None, {}, [])
  }

  ghost function Run(account: Id, actions: seq<Action>): World {
    if actions == [] then Start(account)
    else Next(Run(account, actions[..|actions| - 1]), actions[|actions| - 1])
  }

  // ----- The invariant -----

  /** Readable, or readable up to a last event of a kind that no reader accepts. */
  predicate JournalSound(account: Id, log: seq<Event>) {
    Fold(account, log).readable ||
    (log != [] && EndsUnreadable(account, log))
  }

  predicate EndsUnreadable(account: Id, log: seq<Event>)
    requires log != []
  {
    var before := Fold(account, log[..|log| - 1]);
    before.readable && Unreadable(before.state, log[|log| - 1].data)
  }

  function AuthorOf(w: World, a: Attempt): Option<Sid> {
    if 1 <= a.generation <= |w.authors| then Some(w.authors[a.generation - 1]) else None
  }

  ghost predicate Backed(w: World, sid: Sid, g: Grant) {
    && g.attempt in StateOf(w).attempts
    && var a := StateOf(w).attempts[g.attempt];
    && a.generation == g.generation && a.digest == g.digest && a.preparation.fence == g.fence
    && a.preparation.order == g.order && a.preparation.intent == g.intent && a.preparation.release == g.release
    && AuthorOf(w, a) == Some(sid)
  }

  predicate HandedOver(w: World, attempt: Id) {
    exists i :: 0 <= i < |w.submissions| && w.submissions[i].attempt == attempt
  }

  ghost predicate PhaseOk(w: World, sid: Sid, s: Session) {
    match s.phase
    case Idle => w.guard != Some(sid)
    case Crashed => w.guard != Some(sid)
    case Confirming(n, _, earned, _) =>
      n <= |w.log| && (earned.Some? && Fold(w.account, w.log).readable ==> Backed(w, sid, earned.value))
    case Rereading(n, _) => w.guard != Some(sid) && n <= |w.log|
    case Holding(g) => OwnGrant(s, g) && w.guard == Some(sid) && g.attempt !in s.used
    case Authorized(g) => OwnGrant(s, g) && w.guard == Some(sid) && g.attempt !in s.used && Dispatchable(w, g)
    case Marked(g) => OwnGrant(s, g) && w.guard == Some(sid) && g.attempt in s.used && Dispatchable(w, g)
        && !HandedOver(w, g.attempt)
    case Outcome(g) => OwnGrant(s, g) && w.guard == Some(sid) && g.attempt in s.used
    case HoldingForBreaker => w.guard == Some(sid)
  }

  predicate OwnGrant(s: Session, g: Grant) {
    g.attempt in s.issued && s.issued[g.attempt] == g
  }

  ghost predicate Dispatchable(w: World, g: Grant) {
    g.attempt in StateOf(w).attempts && MayDispatch(StateOf(w).attempts[g.attempt], StateOf(w))
  }

  ghost predicate SessionOk(w: World, sid: Sid)
    requires sid in w.sessions
  {
    var s := w.sessions[sid];
    && s.config.account == w.account
    && s.used <= s.issued.Keys
    && (forall a {:trigger s.issued[a]} :: a in s.issued ==> s.issued[a].attempt == a && Backed(w, sid, s.issued[a]))
    && PhaseOk(w, sid, s)
  }

  ghost predicate NoOpenWithin(log: seq<Event>, n: nat) {
    forall i :: 0 <= i < n && i < |log| ==> !log[i].data.BreakerOpened?
  }

  ghost predicate SubmissionOk(w: World, i: nat)
    requires i < |w.submissions|
  {
    var b := w.submissions[i];
    && b.session in w.sessions && b.attempt in w.sessions[b.session].used
    && b.attempt in StateOf(w).attempts
    && AuthorOf(w, StateOf(w).attempts[b.attempt]) == Some(b.session)
    && b.at <= |w.log|
    && (StateOf(w).attempts[b.attempt].preparation.purpose.NewRisk? ==> NoOpenWithin(w.log, b.at))
  }

  ghost predicate SubmissionsDistinct(w: World) {
    forall i, j :: 0 <= i < j < |w.submissions| ==> w.submissions[i].attempt != w.submissions[j].attempt
  }

  ghost predicate Inv(w: World) {
    && |w.authors| == |w.log|
    && JournalSound(w.account, w.log)
    && AdmittedJournal(w.log)
    && StateOf(w).attempts.Keys <= w.minted
    && (forall sid {:trigger w.sessions[sid]} :: sid in w.sessions ==> SessionOk(w, sid))
    && (w.guard.Some? ==> w.guard.value in w.sessions)
    && (forall i :: 0 <= i < |w.submissions| ==> SubmissionOk(w, i))
    && SubmissionsDistinct(w)
  }

  // ----- What a step of one session leaves alone -----

  /** A step of session `sid`: the journal only grows, and what other sessions rely on is untouched. */
  ghost predicate StepOf(w: World, w': World, sid: Sid) {
    && w'.account == w.account && w.log <= w'.log && w.authors <= w'.authors && w.submissions <= w'.submissions
    && Evolves(StateOf(w), StateOf(w'))
    && (Fold(w'.account, w'.log).readable ==> Fold(w.account, w.log).readable)
    && (forall t :: t != sid && t in w.sessions ==> t in w'.sessions && w'.sessions[t] == w.sessions[t])
    && (forall t :: t in w'.sessions && t != sid ==> t in w.sessions)
    && (forall t :: t != sid ==> (w.guard == Some(t) <==> w'.guard == Some(t)))
    && (StateOf(w').breakerOpen ==> StateOf(w).breakerOpen || w.guard == Some(sid))
    && (forall a {:trigger StateOf(w').attempts[a]} ::
          a in StateOf(w).attempts && AuthorOf(w, StateOf(w).attempts[a]) != Some(sid) ==>
          a in StateOf(w').attempts && StateOf(w').attempts[a] == StateOf(w).attempts[a])
    && (forall i :: |w.submissions| <= i < |w'.submissions| ==> SubmissionBy(w, w'.submissions[i], sid))
  }

  ghost predicate SubmissionBy(w: World, b: Submission, sid: Sid) {
    b.session == sid && b.attempt in StateOf(w).attempts && AuthorOf(w, StateOf(w).attempts[b.attempt]) == Some(sid)
  }

  lemma BackedStays(w: World, w': World, sid: Sid, t: Sid, g: Grant)
    requires StepOf(w, w', sid) && Backed(w, t, g)
    ensures Backed(w', t, g)
  {
    assert Advances(StateOf(w).attempts[g.attempt], StateOf(w').attempts[g.attempt]);
  }

  lemma OtherSessionStaysOk(w: World, w': World, sid: Sid, t: Sid)
    requires StepOf(w, w', sid) && t != sid && t in w.sessions && SessionOk(w, t)
    ensures t in w'.sessions && SessionOk(w', t)
  {
    var s := w.sessions[t];
    forall a | a in s.issued
      ensures Backed(w', t, s.issued[a])
    {
      BackedStays(w, w', sid, t, s.issued[a]);
    }
    match s.phase
    case Confirming(_, _, earned, _) =>
      if earned.Some? && Fold(w'.account, w'.log).readable {
        BackedStays(w, w', sid, t, earned.value);
      }
    case Authorized(g) =>
      assert Backed(w, t, s.issued[g.attempt]);
    case Marked(g) =>
      assert Backed(w, t, s.issued[g.attempt]);
      forall i | 0 <= i < |w'.submissions|
        ensures w'.submissions[i].attempt != g.attempt
      {
        if i < |w.submissions| {
          assert w'.submissions[i] == w.submissions[i];
        } else {
          assert SubmissionBy(w, w'.submissions[i], sid);
        }
      }
    case _ =>
  }

  lemma OldSubmissionsStayOk(w: World, w': World, sid: Sid, i: nat)
    requires StepOf(w, w', sid) && i < |w.submissions| && SubmissionOk(w, i)
    requires sid in w.sessions ==> sid in w'.sessions && w.sessions[sid].used <= w'.sessions[sid].used
    ensures SubmissionOk(w', i)
  {
    var b := w.submissions[i];
    assert w'.submissions[i] == b;
    assert Advances(StateOf(w).attempts[b.attempt], StateOf(w').attempts[b.attempt]);
    forall j | 0 <= j < b.at && j < |w'.log|
      ensures w'.log[j] == w.log[j]
    {
    }
  }

  /** A step of one session that leaves the journal and the submissions as they were. */
  lemma LocalStepKeepsInv(w: World, w': World, sid: Sid)
    requires Inv(w) && StepOf(w, w', sid)
    requires w'.log == w.log && w'.authors == w.authors && w'.submissions == w.submissions && w.minted <= w'.minted
    requires sid in w'.sessions && SessionOk(w', sid)
    requires sid in w.sessions ==> w.sessions[sid].used <= w'.sessions[sid].used
    requires w'.guard.Some? ==> w'.guard.value in w'.sessions
    ensures Inv(w')
  {
    forall t | t in w'.sessions
      ensures SessionOk(w', t)
    {
      if t != sid {
        OtherSessionStaysOk(w, w', sid, t);
      }
    }
    forall i | 0 <= i < |w'.submissions|
      ensures SubmissionOk(w', i)
    {
      OldSubmissionsStayOk(w, w', sid, i);
    }
  }

  /** Same journal, same submissions, other sessions and their hold on the guard untouched. */
  lemma LocalStep(w: World, w': World, sid: Sid)
    requires w'.account == w.account && w'.log == w.log && w'.authors == w.authors && w'.submissions == w.submissions
    requires forall t :: t != sid ==> (t in w.sessions <==> t in w'.sessions)
    requires forall t :: t != sid && t in w.sessions ==> w'.sessions[t] == w.sessions[t]
    requires forall t :: t != sid ==> (w.guard == Some(t) <==> w'.guard == Some(t))
    ensures StepOf(w, w', sid)
  {
    EvolvesReflexive(StateOf(w));
  }

  // ----- The one step that extends the journal -----

  lemma AppendFolds(account: Id, log: seq<Event>, e: Event)
    requires Fold(account, log).readable
    ensures Fold(account, log + [e]) ==
            match Apply(Fold(account, log).state, account, e)
            case None => Folded(Fold(account, log).state, false)
            case Some(t) => Folded(t, true)
  {
    assert (log + [e])[..|log|] == log;
  }

  /** What the decided event can touch: one preparation, one observed attempt, or the breaker. */
  lemma DecidedEventEffects(c: Config, s: State, call: Call, t: State)
    requires StateCoherent(s) && Decide(c, s, call).Some?
    requires Apply(s, c.account, Seal(s, c.account, Decide(c, s, call).value)) == Some(t)
    ensures t.breakerOpen ==> s.breakerOpen || call.OpenBreaker?
    ensures forall a :: a in s.attempts && !(call.RecordObservation? && a == call.observed) ==>
        a in t.attempts && t.attempts[a] == s.attempts[a]
    ensures t.attempts.Keys <= s.attempts.Keys + (if Mints(call) then {call.attempt} else {})
  {
    var e := Seal(s, c.account, Decide(c, s, call).value);
    DecidedKind(c, s, call);
    EventEffects(s, c.account, e, t);
    hide Decide, StateCoherent, Apply;
  }

  /** What an accepted event can touch: one preparation, one observed attempt, or the breaker. */
  lemma EventEffects(s: State, account: Id, e: Event, t: State)
    requires Apply(s, account, e) == Some(t)
    ensures t.breakerOpen ==> s.breakerOpen || e.data.BreakerOpened?
    ensures forall a ::
              a in s.attempts && !(e.data.Observed? && a == e.data.attempt)
              && !(e.data.Prepared? && a == e.data.preparation.attempt) ==>
              a in t.attempts && t.attempts[a] == s.attempts[a]
    ensures e.data.Prepared? ==> e.data.preparation.attempt !in s.attempts
    ensures t.attempts.Keys <= s.attempts.Keys + (if e.data.Prepared? then {e.data.preparation.attempt} else {})
  {
  }

  /** Each call decides on its own kind of event, about the attempt it names. */
  lemma DecidedKind(c: Config, s: State, call: Call)
    requires Decide(c, s, call).Some?
    ensures
      var d := Decide(c, s, call).value;
      && (d.BreakerOpened? <==> call.OpenBreaker?)
      && (d.Prepared? <==> Mints(call)) && (d.Prepared? ==> d.preparation.attempt == call.attempt)
      && (d.Observed? <==> call.RecordObservation?) && (d.Observed? ==> d.attempt == call.observed)
  {
  }

  /** A created preparation is accepted and backs the grant its writer will receive. */
  lemma CreatedGrantIsBacked(c: Config, s: State, call: Call)
    requires StateCoherent(s) && Decide(c, s, call).Some?
    requires Mints(call) ==> call.attempt !in s.attempts
    ensures
      var e := Seal(s, c.account, Decide(c, s, call).value);
      var earned := GrantFor(c, e);
      earned.Some? && Apply(s, c.account, e).Some? ==>
        && Mints(call)
        && var t := Apply(s, c.account, e).value;
        && var g := earned.value;
        && g.attempt in t.attempts
        && var a := t.attempts[g.attempt];
        && a.generation == g.generation == s.generation + 1 && a.digest == g.digest && a.preparation.fence == g.fence
        && a.preparation.order == g.order && a.preparation.intent == g.intent && a.preparation.release == g.release
  {
    WriterEventReplaysExactly(c, s, call);
  }

  /** The journal one event later: still sound, evolved, and changed only where the call says. */
  lemma CreatedFolds(c: Config, log: seq<Event>, call: Call, e: Event)
    requires Fold(c.account, log).readable && AdmittedJournal(log)
    requires Decide(c, Fold(c.account, log).state, call).Some?
    requires e == Seal(Fold(c.account, log).state, c.account, Decide(c, Fold(c.account, log).state, call).value)
    requires Mints(call) ==> call.attempt !in Fold(c.account, log).state.attempts
    ensures JournalSound(c.account, log + [e]) && AdmittedJournal(log + [e])
    ensures
      var s, t := Fold(c.account, log).state, Fold(c.account, log + [e]).state;
      && (t.breakerOpen ==> s.breakerOpen || call.OpenBreaker?)
      && (forall a :: a in s.attempts && !(call.RecordObservation? && a == call.observed) ==>
          a in t.attempts && t.attempts[a] == s.attempts[a])
      && t.attempts.Keys <= s.attempts.Keys + (if Mints(call) then {call.attempt} else {})
  {
    var s := Fold(c.account, log).state;
    assert (log + [e])[..|log|] == log;
    FoldIsCoherent(c.account, log);
    AppendFolds(c.account, log, e);
    WriterEventReplaysExactly(c, s, call);
    WritersAdmit(c, s, call);
    hide Decide, Fold, Apply, StateCoherent, Unreadable, LateNewRisk, NegativeCash, Admitted;
    if Apply(s, c.account, e).Some? {
      DecidedEventEffects(c, s, call, Apply(s, c.account, e).value);
    }
  }

  /** The observing session is the author of the attempt it observes, and only a held guard opens the breaker. */
  lemma CallTouchesOnlyOwn(w: World, sid: Sid, call: Call)
    requires Inv(w) && WriteEnabled(w, sid, |w.log|, call)
    ensures call.OpenBreaker? ==> w.guard == Some(sid)
    ensures call.RecordObservation? && call.observed in StateOf(w).attempts ==>
        AuthorOf(w, StateOf(w).attempts[call.observed]) == Some(sid)
  {
    SessionInOrder(w, sid);
    hide Fold, Inv;
    if call.RecordObservation? {
      assert Backed(w, sid, w.sessions[sid].issued[call.observed]);
    }
  }

  lemma WriterIsAbleToSee(w: World, sid: Sid, call: Call)
    requires Inv(w) && WriteEnabled(w, sid, |w.log|, call)
    ensures Fold(w.account, w.log).readable && AdmittedJournal(w.log) && w.sessions[sid].config.account == w.account
    ensures StateOf(w).attempts.Keys <= w.minted
    ensures Mints(call) ==> call.attempt !in StateOf(w).attempts
  {
    assert w.log[..|w.log|] == w.log;
    assert SessionOk(w, sid);
  }

  lemma CreatedIsStep(w: World, sid: Sid, call: Call, w': World)
    requires Inv(w) && WriteEnabled(w, sid, |w.log|, call)
    requires Decide(w.sessions[sid].config, StateOf(w), call).Some?
    requires sid in w'.sessions
    requires w'.account == w.account && w'.sessions == w.sessions[sid := w'.sessions[sid]] && w'.guard == w.guard
    requires w'.submissions == w.submissions && w'.authors == w.authors + [sid]
    requires w'.log == w.log + [Seal(StateOf(w), w.account, Decide(w.sessions[sid].config, StateOf(w), call).value)]
    ensures StepOf(w, w', sid)
    ensures JournalSound(w'.account, w'.log) && AdmittedJournal(w'.log)
    ensures StateOf(w').attempts.Keys <= w.minted + (if Mints(call) then {call.attempt} else {})
  {
    var s, c := StateOf(w), w.sessions[sid].config;
    var e := Seal(s, w.account, Decide(c, s, call).value);
    hide Inv, WriteEnabled, Decide, Seal, Fold, Apply, Evolves, JournalSound, AdmittedJournal, AuthorOf, StepOf, Mints;
    WriterIsAbleToSee(w, sid, call);
    CallTouchesOnlyOwn(w, sid, call);
    CreatedFolds(c, w.log, call, e);
    FoldEvolves(w.account, w.log, w'.log);
    ExtendedIsStep(w, w', sid, e);
  }

  lemma ExtendedIsStep(w: World, w': World, sid: Sid, e: Event)
    requires sid in w.sessions && sid in w'.sessions
    requires w'.account == w.account && w'.sessions == w.sessions[sid := w'.sessions[sid]] && w'.guard == w.guard
    requires w'.submissions == w.submissions && w'.authors == w.authors + [sid] && w'.log == w.log + [e]
    requires Evolves(StateOf(w), StateOf(w'))
    requires StateOf(w').breakerOpen ==> StateOf(w).breakerOpen || w.guard == Some(sid)
    requires forall a {:trigger StateOf(w').attempts[a]} ::
               a in StateOf(w).attempts && AuthorOf(w, StateOf(w).attempts[a]) != Some(sid) ==>
               a in StateOf(w').attempts && StateOf(w').attempts[a] == StateOf(w).attempts[a]
    ensures StepOf(w, w', sid)
  {
    hide Evolves;
  }

  /** The writer itself after its create: it is confirming, and its grant is backed if the journal is readable. */
  lemma CreatedWriterIsOk(w: World, sid: Sid, call: Call, w': World, e: Event)
    requires Inv(w) && WriteEnabled(w, sid, |w.log|, call)
    requires Decide(w.sessions[sid].config, StateOf(w), call).Some?
    requires e == Seal(StateOf(w), w.account, Decide(w.sessions[sid].config, StateOf(w), call).value)
    requires w'.account == w.account && w'.log == w.log + [e] && w'.authors == w.authors + [sid]
    requires StepOf(w, w', sid) && sid in w'.sessions
    requires
      var s := w.sessions[sid];
      w'.sessions[sid] == s.(phase := Confirming(e.sequence, e.digest, GrantFor(s.config, e), ResumeOf(call)))
    ensures SessionOk(w', sid)
  {
    var s, c := StateOf(w), w.sessions[sid].config;
    WriterIsAbleToSee(w, sid, call);
    SessionInOrder(w, sid);
    FoldIsCoherent(w.account, w.log);
    AppendFolds(w.account, w.log, e);
    AcceptedJournalIsChained(w.account, w.log);
    CreatedGrantIsBacked(c, s, call);
    hide Inv, Decide, WriteEnabled, StepOf, Fold, Apply, Seal, StateCoherent, Mints;
    CreatedSessionIsOk(w, w', sid, e, ResumeOf(call));
  }

  /** A step that extends the journal soundly and leaves its own session in order keeps the invariant. */
  lemma ExtendedKeepsInv(w: World, w': World, sid: Sid)
    requires Inv(w) && StepOf(w, w', sid) && sid in w.sessions && sid in w'.sessions && SessionOk(w', sid)
    requires |w'.authors| == |w'.log| && JournalSound(w'.account, w'.log) && AdmittedJournal(w'.log)
    requires StateOf(w').attempts.Keys <= w'.minted
    requires w'.submissions == w.submissions && w'.guard == w.guard && w.sessions[sid].used == w'.sessions[sid].used
    ensures Inv(w')
  {
    hide Fold, Evolves, SessionOk, SubmissionOk, SubmissionsDistinct, JournalSound, AdmittedJournal, StateOf;
    forall t | t in w'.sessions
      ensures SessionOk(w', t)
    {
      if t != sid {
        OtherSessionStaysOk(w, w', sid, t);
      }
    }
    forall i | 0 <= i < |w'.submissions|
      ensures SubmissionOk(w', i)
    {
      OldSubmissionsStayOk(w, w', sid, i);
    }
    SameSubmissionsStayDistinct(w, w');
  }

  lemma CreatedKeepsInv(w: World, sid: Sid, call: Call)
    requires Inv(w) && WriteEnabled(w, sid, |w.log|, call)
    requires Decide(w.sessions[sid].config, Fold(w.account, w.log[..|w.log|]).state, call).Some?
    ensures Inv(NextWrite(w, sid, |w.log|, call))
  {
    var w' := NextWrite(w, sid, |w.log|, call);
    assert w.log[..|w.log|] == w.log;
    var s, c := StateOf(w), w.sessions[sid].config;
    var e := Seal(s, w.account, Decide(c, s, call).value);
    WriterIsAbleToSee(w, sid, call);
    AuthorsMatch(w);
    assert w' == Created(if Mints(call) then w.(minted := w.minted + {call.attempt}) else w, sid, e, ResumeOf(call));
    hide Inv, Decide, NextWrite, WriteEnabled, Fold, StepOf, SessionOk, Seal, Mints, JournalSound, AdmittedJournal;
    CreatedIsStep(w, sid, call, w');
    CreatedWriterIsOk(w, sid, call, w', e);
    ExtendedKeepsInv(w, w', sid);
  }

  lemma AuthorsMatch(w: World)
    requires Inv(w)
    ensures |w.authors| == |w.log|
  {
  }

  lemma SameSubmissionsStayDistinct(w: World, w': World)
    requires SubmissionsDistinct(w) && w'.submissions == w.submissions
    ensures SubmissionsDistinct(w')
  {
  }

  lemma CreatedSessionIsOk(w: World, w': World, sid: Sid, e: Event, resume: Option<Pending>)
    requires StepOf(w, w', sid) && sid in w.sessions && SessionOk(w, sid) && sid in w'.sessions
    requires w'.log == w.log + [e] && w'.authors == w.authors + [sid] && |w.authors| == |w.log|
    requires e.sequence == |w.log| + 1
    requires w'.sessions[sid] ==
             w.sessions[sid].(phase := Confirming(e.sequence, e.digest, GrantFor(w.sessions[sid].config, e), resume))
    requires var earned := GrantFor(w.sessions[sid].config, e);
             earned.Some? && Fold(w'.account, w'.log).readable ==>
               && earned.value.attempt in StateOf(w').attempts
               && var a := StateOf(w').attempts[earned.value.attempt];
               && var g := earned.value;
               && a.generation == g.generation == |w.log| + 1 && a.digest == g.digest && a.preparation.fence == g.fence
               && a.preparation.order == g.order && a.preparation.intent == g.intent
                   && a.preparation.release == g.release
    ensures SessionOk(w', sid)
  {
    forall a | a in w.sessions[sid].issued
      ensures Backed(w', sid, w.sessions[sid].issued[a])
    {
      BackedStays(w, w', sid, sid, w.sessions[sid].issued[a]);
    }
  }

  lemma WriteKeepsInv(w: World, sid: Sid, seen: nat, call: Call)
    requires Inv(w) && WriteEnabled(w, sid, seen, call)
    ensures Inv(NextWrite(w, sid, seen, call))
  {
    hide Inv, Evolves, StepOf, Fold, Decide;
    var w' := NextWrite(w, sid, seen, call);
    var session := w.sessions[sid];
    SessionInOrder(w, sid);
    if Decide(session.config, Fold(w.account, w.log[..seen]).state, call).Some? && seen == |w.log| {
      CreatedKeepsInv(w, sid, call);
    } else {
      LocalStep(w, w', sid);
      SameBackingSameSession(w, w', sid);
      LocalStepKeepsInv(w, w', sid);
    }
  }

  /** A session that is idle again, keeps its grants and does not hold the guard is in order. */
  lemma SameBackingSameSession(w: World, w': World, sid: Sid)
    requires StepOf(w, w', sid) && sid in w.sessions && sid in w'.sessions && SessionOk(w, sid)
    requires w'.sessions[sid].config == w.sessions[sid].config
    requires w'.sessions[sid].issued == w.sessions[sid].issued && w'.sessions[sid].used == w.sessions[sid].used
    requires PhaseOk(w', sid, w'.sessions[sid])
    ensures SessionOk(w', sid)
  {
    forall a | a in w.sessions[sid].issued
      ensures Backed(w', sid, w.sessions[sid].issued[a])
    {
      BackedStays(w, w', sid, sid, w.sessions[sid].issued[a]);
    }
  }

  // ----- The other steps -----

  /** A session that keeps what it had, possibly with one more backed grant or one more consumed grant. */
  lemma GrownSessionIsOk(w: World, w': World, sid: Sid, earned: Option<Grant>)
    requires StepOf(w, w', sid) && sid in w.sessions && sid in w'.sessions && SessionOk(w, sid)
    requires earned.Some? ==> Backed(w, sid, earned.value)
    requires
      var s, s' := w.sessions[sid], w'.sessions[sid];
      && s'.config == s.config && s'.used <= s'.issued.Keys
      && s'.issued == (if earned.Some? then s.issued[earned.value.attempt := earned.value] else s.issued)
    requires PhaseOk(w', sid, w'.sessions[sid])
    ensures SessionOk(w', sid)
  {
    hide Evolves, PhaseOk;
    var s, s' := w.sessions[sid], w'.sessions[sid];
    forall a | a in s'.issued
      ensures s'.issued[a].attempt == a && Backed(w', sid, s'.issued[a])
    {
      if earned.Some? && a == earned.value.attempt {
        BackedStays(w, w', sid, sid, earned.value);
      } else {
        BackedStays(w, w', sid, sid, s.issued[a]);
      }
    }
  }

  lemma SessionInOrder(w: World, sid: Sid)
    requires Inv(w) && sid in w.sessions
    ensures SessionOk(w, sid)
    ensures w.guard.Some? ==> w.guard.value in w.sessions
  {
  }

  lemma ConfirmKeepsInv(w: World, sid: Sid)
    requires Inv(w) && sid in w.sessions && w.sessions[sid].phase.Confirming?
    ensures Inv(NextConfirm(w, sid))
  {
    hide Inv, StepOf, Evolves, Backed, StateOf, Fold;
    var w' := NextConfirm(w, sid);
    var session := w.sessions[sid];
    SessionInOrder(w, sid);
    LocalStep(w, w', sid);
    if !ConfirmationHolds(w, session.phase) || session.phase.resume.Some? {
      GrownSessionIsOk(w, w', sid, None);
    } else {
      GrownSessionIsOk(w, w', sid, session.phase.earned);
    }
    LocalStepKeepsInv(w, w', sid);
  }

  lemma EnterDispatchKeepsInv(w: World, a: Action)
    requires Inv(w) && a.EnterDispatch? && DispatchEnabled(w, a)
    ensures Inv(Next(w, a))
  {
    var w' := Next(w, a);
    hide Inv, StepOf, Evolves, Fold;
    SessionInOrder(w, a.sid);
    LocalStep(w, w', a.sid);
    SameBackingSameSession(w, w', a.sid);
    LocalStepKeepsInv(w, w', a.sid);
  }

  lemma AuthorizeKeepsInv(w: World, sid: Sid)
    requires Inv(w) && sid in w.sessions && w.sessions[sid].phase.Holding?
    ensures Inv(NextAuthorize(w, sid))
  {
    var w' := NextAuthorize(w, sid);
    hide Inv, StepOf, Evolves, Fold, HandedOver;
    SessionInOrder(w, sid);
    LocalStep(w, w', sid);
    SameBackingSameSession(w, w', sid);
    LocalStepKeepsInv(w, w', sid);
  }

  lemma MarkKeepsInv(w: World, sid: Sid)
    requires Inv(w) && sid in w.sessions && w.sessions[sid].phase.Authorized?
    ensures Inv(NextMark(w, sid))
  {
    var w' := NextMark(w, sid);
    hide Inv, StepOf, Evolves, Fold;
    SessionInOrder(w, sid);
    LocalStep(w, w', sid);
    MarkedIsUnsubmitted(w, sid, w.sessions[sid].phase.grant);
    GrownSessionIsOk(w, w', sid, None);
    LocalStepKeepsInv(w, w', sid);
  }

  lemma SkipSubmitKeepsInv(w: World, sid: Sid)
    requires Inv(w) && sid in w.sessions && w.sessions[sid].phase.Marked?
    ensures Inv(NextSkip(w, sid))
  {
    var w' := NextSkip(w, sid);
    hide Inv, StepOf, Evolves, Fold;
    SessionInOrder(w, sid);
    LocalStep(w, w', sid);
    GrownSessionIsOk(w, w', sid, None);
    LocalStepKeepsInv(w, w', sid);
  }

  /** Nobody can have submitted a grant that its only owner has not consumed. */
  lemma MarkedIsUnsubmitted(w: World, sid: Sid, g: Grant)
    requires Inv(w) && sid in w.sessions && OwnGrant(w.sessions[sid], g) && g.attempt !in w.sessions[sid].used
    ensures !HandedOver(w, g.attempt)
  {
    assert SessionOk(w, sid);
    assert Backed(w, sid, w.sessions[sid].issued[g.attempt]);
    forall i | 0 <= i < |w.submissions|
      ensures w.submissions[i].attempt != g.attempt
    {
      assert SubmissionOk(w, i);
    }
  }

  lemma LeavingStepKeepsInv(w: World, a: Action)
    requires Inv(w) && (a.Open? || a.EnterBreaker? || a.GiveUp? || a.Abort? || a.Crash?)
    ensures Inv(Next(w, a))
  {
    hide Inv, Evolves, StepOf, Fold, Decide, StateOf, HandedOver;
    var w' := Next(w, a);
    if w' != w {
      GuardHolderExists(w);
      LeavingWorld(w, a);
      hide Next;
      LocalStep(w, w', a.sid);
      if a.sid in w.sessions {
        SessionInOrder(w, a.sid);
        SameBackingSameSession(w, w', a.sid);
      }
      LocalStepKeepsInv(w, w', a.sid);
    }
  }

  lemma GuardHolderExists(w: World)
    requires Inv(w)
    ensures w.guard.Some? ==> w.guard.value in w.sessions
  {
  }

  /** The steps that change only one session's phase, failure and hold on the guard. */
  lemma LeavingWorld(w: World, a: Action)
    requires (a.Open? || a.EnterBreaker? || a.GiveUp? || a.Abort? || a.Crash?) && Next(w, a) != w
    ensures
      var w' := Next(w, a);
      && w'.account == w.account && w'.log == w.log && w'.authors == w.authors && w'.submissions == w.submissions
      && w'.minted == w.minted && a.sid in w'.sessions && w'.sessions == w.sessions[a.sid := w'.sessions[a.sid]]
      && w'.sessions[a.sid].config.account ==
           (if a.sid in w.sessions then w.sessions[a.sid].config.account else w.account)
      && (forall t :: t != a.sid ==> (w.guard == Some(t) <==> w'.guard == Some(t)))
      && var s := w'.sessions[a.sid];
      && (s.phase.Idle? || s.phase.Crashed? ==> a.Open? || w'.guard != Some(a.sid))
      && (s.phase.HoldingForBreaker? ==> w'.guard == Some(a.sid))
      && (s.phase.Idle? || s.phase.Crashed? || s.phase.HoldingForBreaker?)
      && (if a.Open? then s.issued == map[] && s.used == {} && w'.guard == w.guard && a.sid !in w.sessions
          else a.sid in w.sessions && s.issued == w.sessions[a.sid].issued && s.used == w.sessions[a.sid].used
               && s.config == w.sessions[a.sid].config)
  {
    hide Fold, Decide;
  }

  lemma SubmitIsStep(w: World, sid: Sid)
    requires Inv(w) && sid in w.sessions && w.sessions[sid].phase.Marked?
    ensures StepOf(w, NextSubmit(w, sid), sid)
    ensures SubmissionOk(NextSubmit(w, sid), |w.submissions|)
    ensures !HandedOver(w, w.sessions[sid].phase.grant.attempt)
  {
    assert SessionOk(w, sid);
    var s := w.sessions[sid];
    assert Backed(w, sid, s.issued[s.phase.grant.attempt]);
    EvolvesReflexive(StateOf(w));
    NoOpenInWorldLog(w);
    hide Evolves, Fold, StateOf, JournalSound, AdmittedJournal, SubmissionsDistinct;
  }

  lemma SubmitKeepsInv(w: World, sid: Sid)
    requires Inv(w) && sid in w.sessions && w.sessions[sid].phase.Marked?
    ensures Inv(NextSubmit(w, sid))
  {
    var w' := NextSubmit(w, sid);
    var n := |w.submissions|;
    SubmitIsStep(w, sid);
    SubmittedSessionIsOk(w, w', sid);
    hide Evolves, StepOf, SessionOk, HandedOver, SubmissionOk, Fold, StateOf, JournalSound, AdmittedJournal,
        SubmissionsDistinct;
    forall t | t in w'.sessions
      ensures SessionOk(w', t)
    {
      if t != sid {
        OtherSessionStaysOk(w, w', sid, t);
      }
    }
    forall i | 0 <= i < |w'.submissions|
      ensures SubmissionOk(w', i)
    {
      if i < n {
        OldSubmissionsStayOk(w, w', sid, i);
      }
    }
    SubmissionsStayDistinct(w, w');
  }

  lemma SubmittedSessionIsOk(w: World, w': World, sid: Sid)
    requires Inv(w) && sid in w.sessions && w.sessions[sid].phase.Marked? && w' == NextSubmit(w, sid)
    requires StepOf(w, w', sid)
    ensures SessionOk(w', sid)
  {
    hide Inv, StepOf;
    SessionInOrder(w, sid);
    GrownSessionIsOk(w, w', sid, None);
  }

  lemma SubmissionsStayDistinct(w: World, w': World)
    requires SubmissionsDistinct(w) && |w'.submissions| == |w.submissions| + 1
    requires w.submissions == w'.submissions[..|w.submissions|]
    requires !HandedOver(w, w'.submissions[|w.submissions|].attempt)
    ensures SubmissionsDistinct(w')
  {
    forall i, j | 0 <= i < j < |w'.submissions|
      ensures w'.submissions[i].attempt != w'.submissions[j].attempt
    {
      assert w'.submissions[i] == w.submissions[i];
      if j < |w.submissions| {
        assert w'.submissions[j] == w.submissions[j];
      }
    }
  }

  /** While the reduced state says the breaker is not open, the journal holds no OPEN event. */
  lemma NoOpenInWorldLog(w: World)
    requires JournalSound(w.account, w.log)
    ensures StateOf(w).breakerOpen <==> !NoOpenWithin(w.log, |w.log|)
  {
    var n := |w.log| - 1;
    if Fold(w.account, w.log).readable {
      BreakerStateIsBreakerEvent(w.account, w.log);
    } else {
      BreakerStateIsBreakerEvent(w.account, w.log[..n]);
      assert forall i :: 0 <= i < n ==> w.log[..n][i] == w.log[i];
      if !NoOpenWithin(w.log, |w.log|) {
        var i :| 0 <= i < |w.log| && w.log[i].data.BreakerOpened?;
        assert w.log[..n][i].data.BreakerOpened?;
      }
    }
  }

  lemma NextKeepsInv(w: World, a: Action)
    requires Inv(w)
    ensures Inv(Next(w, a))
  {
    match a
    case Write(sid, seen, call) => if WriteEnabled(w, sid, seen, call) { WriteKeepsInv(w, sid, seen, call); }
    case Confirm(sid) => if sid in w.sessions && w.sessions[sid].phase.Confirming? { ConfirmKeepsInv(w, sid); }
    case Submit(sid) => if sid in w.sessions && w.sessions[sid].phase.Marked? { SubmitKeepsInv(w, sid); }
    case EnterDispatch(_, _, _, _, _, _) => if DispatchEnabled(w, a) { EnterDispatchKeepsInv(w, a); }
    case Authorize(sid) => if sid in w.sessions && w.sessions[sid].phase.Holding? { AuthorizeKeepsInv(w, sid); }
    case Mark(sid) => if sid in w.sessions && w.sessions[sid].phase.Authorized? { MarkKeepsInv(w, sid); }
    case SkipSubmit(sid) => if sid in w.sessions && w.sessions[sid].phase.Marked? { SkipSubmitKeepsInv(w, sid); }
    case _ => LeavingStepKeepsInv(w, a);
  }

  lemma {:induction false} RunKeepsInv(account: Id, actions: seq<Action>)
    ensures Inv(Run(account, actions)) && Run(account, actions).account == account
    decreases |actions|
  {
    if actions != [] {
      var before := Run(account, actions[..|actions| - 1]);
      RunKeepsInv(account, actions[..|actions| - 1]);
      NextKeepsInv(before, actions[|actions| - 1]);
      NextKeepsAccount(before, actions[|actions| - 1]);
    }
  }

  lemma NextKeepsAccount(w: World, a: Action)
    ensures Next(w, a).account == w.account
  {
  }
}
