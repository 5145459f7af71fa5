/**
 * The session object itself: its mutable fields, the shared create-only journal it writes to, and one method
 * per writer, each proved against the pure decisions and against the steps of the protocol.
 *
 * Interference is explicit. `seen` is how many events the method's read returned before other sessions moved
 * on, and `between` are the events that others create between this method's create and its confirmation read.
 */
module Sessions {
  import opened Prelude
  import opened CapitalEnvelope
  import opened Journal
  import opened JournalLaws
  import opened Writers
  import opened Replayability
  import opened RiskAccounting
  import opened Protocol
  import opened Safety

  /** Create-only cells, one per sequence number, as the object store or O_EXCL files provide them. */
  class AccountJournal {
    const account: Id
    var cells: map<nat, Event>

    /** The occupied sequence numbers are exactly 1..n. */
    ghost predicate Gapless()
      reads this
    {
      forall k: nat :: k in cells <==> 1 <= k <= |cells|
    }

    function Log(): (log: seq<Event>)
      requires Gapless()
      reads this
      ensures |log| == |cells|
    {
      seq(|cells|, i requires 0 <= i < |cells| reads this requires Gapless() => cells[i + 1])
    }

    constructor (account: Id)
      ensures Gapless() && Log() == [] && this.account == account
    {
      this.account := account;
      cells := map[];
    }

    /** A create succeeds exactly on the next free sequence number, and then only appends. */
    method Create(sequence: nat, e: Event) returns (created: bool)
      requires Gapless() && 1 <= sequence <= |cells| + 1
      modifies this`cells
      ensures Gapless()
      ensures created <==> sequence == |old(Log())| + 1
      ensures Log() == if created then old(Log()) + [e] else old(Log())
    {
      created := sequence !in cells;
      if created {
        cells := cells[sequence := e];
        assert |cells| == |old(cells)| + 1;
      }
    }

    /** Other sessions create these events, one after the other. */
    method Arrive(events: seq<Event>)
      requires Gapless()
      modifies this`cells
      ensures Gapless() && Log() == old(Log()) + events
    {
      for i := 0 to |events|
        invariant Gapless() && Log() == old(Log()) + events[..i]
      {
        var _ := Create(|cells| + 1, events[i]);
        assert events[..i + 1] == events[..i] + [events[i]];
      }
      assert events[..|events|] == events;
    }
  }

  /** The platform's broker; every call of its submit function is recorded. */
  class Broker {
    var calls: seq<Id>

    method Call(attempt: Id)
      modifies this`calls
      ensures calls == old(calls) + [attempt]
    {
      calls := calls + [attempt];
    }
  }

  // ----- The specification of one append -----

  datatype Outcome =
    | Refused               // nothing was created
    | Conflict              // the sequence number was taken
    | Unconfirmed(event: Event)  // created, but the confirmation read did not find it at the head
    | Done(event: Event)

  /**
   * What becomes of a decision taken on the first `seen` events when the create runs against the whole journal
   * and the events `between` land before the confirmation read.
   */
  function AppendOutcome(account: Id, log: seq<Event>, seen: nat, d: Option<Data>, between: seq<Event>): Outcome
    requires seen <= |log|
  {
    if d.None? then Refused
    else
      var e := Seal(Fold(account, log[..seen]).state, account, d.value);
      if seen < |log| then Conflict
      else if between != [] || !Fold(account, log + [e]).readable then Unconfirmed(e)
      else Done(e)
  }

  function LogAfter(log: seq<Event>, o: Outcome, between: seq<Event>): seq<Event> {
    match o
    case Unconfirmed(e) => log + [e] + between
    case Done(e) => log + [e] + between
    case _ => log
  }

  predicate Loses(o: Outcome) {
    o.Conflict? || o.Unconfirmed?
  }

  /** Undisturbed and decided on the whole journal, a create is confirmed exactly when the reducer takes the event. */
  lemma OutcomeOfWholeRead(account: Id, log: seq<Event>, d: Data)
    requires Fold(account, log).readable
    ensures
      var e := Seal(Fold(account, log).state, account, d);
      var o := AppendOutcome(account, log, |log|, Some(d), []);
      && LogAfter(log, o, []) == log + [e]
      && (if Apply(Fold(account, log).state, account, e).Some? then o == Done(e)
          else o == Unconfirmed(e) && !Fold(account, log + [e]).readable)
  {
    hide Fold, Apply, Seal;
    var e := Seal(Fold(account, log).state, account, d);
    assert log[..|log|] == log && log + [e] + [] == log + [e];
    AppendFolds(account, log, e);
  }

  /** The decision a healthy session takes on what it read; an unreadable journal decides nothing. */
  ghost function DecideOn(c: Config, failed: bool, read: seq<Event>, call: Call): Option<Data> {
    if failed || !Fold(c.account, read).readable then None else Decide(c, Fold(c.account, read).state, call)
  }

  method SumReservations(s: State) returns (risk: real, exposure: real)
    ensures risk == ReservedRisk(s) && exposure == Reserved3x(s)
  {
    risk, exposure := 0.0, 0.0;
    var left := s.reservations.Keys;
    ghost var risks := map k | k in s.reservations :: s.reservations[k].remaining;
    ghost var exposures := map k | k in s.reservations :: s.reservations[k].remaining3x;
    assert risks.Keys == left && exposures.Keys == left;
    while left != {}
      invariant left <= s.reservations.Keys && risks.Keys == left && exposures.Keys == left
      invariant forall k :: k in left ==>
          risks[k] == s.reservations[k].remaining && exposures[k] == s.reservations[k].remaining3x
      invariant risk + MapSum(risks) == ReservedRisk(s) && exposure + MapSum(exposures) == Reserved3x(s)
      decreases left
    {
      var k :| k in left;
      assert k in risks.Keys && k in exposures.Keys;
      MapSumSplit(risks, k);
      MapSumSplit(exposures, k);
      risk := risk + s.reservations[k].remaining;
      exposure := exposure + s.reservations[k].remaining3x;
      left := left - {k};
      risks, exposures := risks - {k}, exposures - {k};
    }
    MapSumEmpty(risks);
    MapSumEmpty(exposures);
  }

  class AccountSubmissionSession {
    const config: Config
    const journal: AccountJournal
    var issued: map<Id, Grant>
    var used: set<Id>
    var failed: bool

    ghost predicate Valid()
      reads this, journal
    {
      journal.Gapless() && journal.account == config.account && used <= issued.Keys
    }

    constructor (config: Config, journal: AccountJournal)
      requires journal.Gapless() && journal.account == config.account
      ensures Valid() && this.config == config && this.journal == journal
      ensures issued == map[] && used == {} && !failed
    {
      this.config := config;
      this.journal := journal;
      issued, used, failed := map[], {}, false;
    }

    /** Creates the event built on a state that was read, then reads again to confirm it. */
    method Append(seen: nat, state: State, d: Data, between: seq<Event>) returns (event: Option<Event>)
      requires Valid() && seen <= |journal.Log()|
      requires Replay(config.account, journal.Log()[..seen]) == Some(state)
      modifies this`failed, journal`cells
      ensures Valid()
      ensures
        var o := AppendOutcome(config.account, old(journal.Log()), seen, Some(d), between);
        && journal.Log() == LogAfter(old(journal.Log()), o, between)
        && failed == (old(failed) || Loses(o))
        && event == (if o.Done? then Some(o.event) else None)
    {
      ghost var log := journal.Log();
      var e := Seal(state, config.account, d);
      AcceptedJournalIsChained(config.account, log[..seen]);
      var created := journal.Create(e.sequence, e);
      event := None;
      if created {
        assert log[..seen] == log;
        AppendFolds(config.account, log, e);
        ConfirmedExactly(config.account, log, e, between);
        journal.Arrive(between);
        var confirmed := ReadState(config.account, journal.Log());
        if confirmed.Some? && confirmed.value.generation == e.sequence && confirmed.value.head == e.digest {
          event := Some(e);
        }
      }
      if event.None? {
        failed := true;
      }
    }

    /** The last part of reserve: prepare the attempt on a state that was read, and issue the grant once confirmed. */
    method Prepare(order: Order, newRisk: bool, attempt: Id, fence: Id, seen: nat, state: State, between: seq<Event>)
      returns (grant: Option<Grant>)
      requires Valid() && !failed && seen <= |journal.Log()|
      requires Replay(config.account, journal.Log()[..seen]) == Some(state)
      modifies this`failed, this`issued, journal`cells
      ensures Valid()
      ensures
        var d := DecidePreparation(config, state, order, newRisk, attempt, fence);
        var o := AppendOutcome(config.account, old(journal.Log()), seen, d, between);
        && journal.Log() == LogAfter(old(journal.Log()), o, between) && failed == Loses(o)
        && grant == (if o.Done? then GrantFor(config, o.event) else None)
        && issued == (if grant.Some? then old(issued)[attempt := grant.value] else old(issued))
    {
      grant := None;
      var d := DecidePreparation(config, state, order, newRisk, attempt, fence);
      if d.Some? {
        var event := Append(seen, state, d.value, between);
        if event.Some? {
          grant := GrantFor(config, event.value);
          issued := issued[attempt := grant.value];
        }
      }
    }

    /** Reads again after the binding, when others have created `arrivals`, and goes on with what it sees. */
    method PrepareAgain(order: Order, newRisk: bool, attempt: Id, fence: Id, arrivals: seq<Event>, again: nat,
                        later: seq<Event>)
      returns (grant: Option<Grant>)
      requires Valid() && !failed && again <= |arrivals|
      modifies this`failed, this`issued, journal`cells
      ensures Valid()
      ensures
        var r := ReserveAgain(config, old(journal.Log()), order, newRisk, attempt, fence, arrivals, again, later);
        && journal.Log() == r.log && failed == Loses(r.outcome)
        && grant == (if r.outcome.Done? then GrantFor(config, r.outcome.event) else None)
        && issued == (if grant.Some? then old(issued)[attempt := grant.value] else old(issued))
    {
      grant := None;
      var position := |journal.Log()| + again;
      journal.Arrive(arrivals);
      ghost var log := journal.Log();
      var state := ReadState(config.account, journal.Log()[..position]);
      if state.Some? {
        DecisionsOfReserve(config, log[..position], order, newRisk, attempt, fence);
        hide Fold, DecidePreparation, DecideOn, GrantFor, AppendOutcome;
        grant := Prepare(order, newRisk, attempt, fence, position, state.value, later);
      }
    }

    /**
     * reserve: only a fresh, confirmed create of a PREPARED event yields a grant. On an unbound journal the call
     * binds the domain first and then reads again: `arrivals` are what others create after the binding was
     * confirmed, of which the second read sees the first `again`, and `later` lands before the second confirmation.
     */
    method Reserve(order: Order, newRisk: bool, attempt: Id, fence: Id, seen: nat, between: seq<Event>,
                   arrivals: seq<Event>, again: nat, later: seq<Event>)
      returns (grant: Option<Grant>)
      requires Valid() && seen <= |journal.Log()| && again <= |arrivals|
      modifies this`failed, this`issued, journal`cells
      ensures Valid()
      ensures
        var r := ReserveResult(config, old(failed), old(journal.Log()), order, newRisk, attempt, fence,
                               seen, between, arrivals, again, later);
        && journal.Log() == r.log && failed == (old(failed) || Loses(r.outcome))
        && grant == (if r.outcome.Done? then GrantFor(config, r.outcome.event) else None)
        && issued == (if grant.Some? then old(issued)[attempt := grant.value] else old(issued))
    {
      grant := None;
      ghost var log := journal.Log();
      var state := ReadState(config.account, journal.Log()[..seen]);
      if failed || state.None? || !ReserveAdmitted(config, state.value, order, newRisk) {
        ReserveIsRefused(config, failed, log, order, newRisk, attempt, fence, seen, between, arrivals, again, later);
        return;
      }
      DecisionsOfReserve(config, log[..seen], order, newRisk, attempt, fence);
      hide Fold, DecidePreparation, DecideOn, DecideBind, ReserveAdmitted, GrantFor, AppendOutcome;
      var binding := DecideBind(config, state.value, order, newRisk);
      if binding.None? {
        grant := Prepare(order, newRisk, attempt, fence, seen, state.value, between);
        return;
      }
      var bound := Append(seen, state.value, binding.value, between);
      if bound.Some? {
        grant := PrepareAgain(order, newRisk, attempt, fence, arrivals, again, later);
      }
    }

    /** reserve_reduction: the same, for an account-brake reduction. */
    method ReserveReduction(order: Order, hardBrake: bool, attempt: Id, fence: Id, seen: nat, between: seq<Event>)
      returns (grant: Option<Grant>)
      requires Valid() && seen <= |journal.Log()|
      modifies this`failed, this`issued, journal`cells
      ensures Valid()
      ensures
        var log := old(journal.Log());
        var call := Call.ReserveReduction(order, hardBrake, attempt, fence);
        var o := AppendOutcome(config.account, log, seen, DecideOn(config, old(failed), log[..seen], call), between);
        && journal.Log() == LogAfter(log, o, between)
        && failed == (old(failed) || Loses(o))
        && grant == (if o.Done? then GrantFor(config, o.event) else None)
        && issued == (if grant.Some? then old(issued)[attempt := grant.value] else old(issued))
    {
      grant := None;
      if failed {
        return;
      }
      var state := ReadState(config.account, journal.Log()[..seen]);
      if state.None? {
        return;
      }
      var d := DecideReduction(config, state.value, order, hardBrake, attempt, fence);
      if d.Some? {
        var event := Append(seen, state.value, d.value, between);
        if event.Some? {
          grant := GrantFor(config, event.value);
          issued := issued[attempt := grant.value];
        }
      }
    }

    /** record_account_equity. */
    method RecordAccountEquity(snapshot: Snapshot, cashFlow: real, baseline: bool, seen: nat, between: seq<Event>)
      returns (event: Option<Event>)
      requires Valid() && seen <= |journal.Log()|
      modifies this`failed, journal`cells
      ensures Valid()
      ensures
        var log := old(journal.Log());
        var d := DecideOn(config, old(failed), log[..seen], RecordEquity(snapshot, cashFlow, baseline));
        var o := AppendOutcome(config.account, log, seen, d, between);
        && journal.Log() == LogAfter(log, o, between)
        && failed == (old(failed) || Loses(o))
        && event == (if o.Done? then Some(o.event) else None)
    {
      event := None;
      if !failed {
        var state := ReadState(config.account, journal.Log()[..seen]);
        if state.Some? {
          var d := DecideEquity(config, state.value, snapshot, cashFlow, baseline);
          if d.Some? {
            event := Append(seen, state.value, d.value, between);
          }
        }
      }
    }

    /** reserve_account_risk: the sums over the open reservations are computed by a loop. */
    method ReserveAccountRisk(request: RiskRequest, seen: nat, between: seq<Event>) returns (event: Option<Event>)
      requires Valid() && seen <= |journal.Log()|
      modifies this`failed, journal`cells
      ensures Valid()
      ensures
        var log := old(journal.Log());
        var d := DecideOn(config, old(failed), log[..seen], ReserveRisk(request));
        var o := AppendOutcome(config.account, log, seen, d, between);
        && journal.Log() == LogAfter(log, o, between)
        && failed == (old(failed) || Loses(o))
        && event == (if o.Done? then Some(o.event) else None)
    {
      event := None;
      if !failed {
        var state := ReadState(config.account, journal.Log()[..seen]);
        if state.Some? {
          var risk, exposure := SumReservations(state.value);
          var d := DecideAccountRisk(config, state.value, request, risk, exposure);
          if d.Some? {
            event := Append(seen, state.value, d.value, between);
          }
        }
      }
    }

    /** reconcile_account_risk. */
    method ReconcileAccountRisk(attempt: Id, filled: real, fee: real, positionRisk: real, source: Id, seen: nat,
                                between: seq<Event>)
      returns (event: Option<Event>)
      requires Valid() && seen <= |journal.Log()|
      modifies this`failed, journal`cells
      ensures Valid()
      ensures
        var log := old(journal.Log());
        var call := ReconcileRisk(attempt, filled, fee, positionRisk, source);
        var d := DecideOn(config, old(failed), log[..seen], call);
        var o := AppendOutcome(config.account, log, seen, d, between);
        && journal.Log() == LogAfter(log, o, between)
        && failed == (old(failed) || Loses(o))
        && event == (if o.Done? then Some(o.event) else None)
    {
      event := None;
      if !failed {
        var state := ReadState(config.account, journal.Log()[..seen]);
        if state.Some? {
          var d := DecideReconcile(config, state.value, attempt, filled, fee, positionRisk, source);
          if d.Some? {
            event := Append(seen, state.value, d.value, between);
          }
        }
      }
    }

    /** record_circuit_breaker_open, inside the writer guard when `guarded`; otherwise the session fails. */
    method RecordCircuitBreakerOpen(brake: BrakeSnapshot, guarded: bool, seen: nat, between: seq<Event>)
      requires Valid() && seen <= |journal.Log()|
      modifies this`failed, journal`cells
      ensures Valid()
      ensures
        var log := old(journal.Log());
        var d := if guarded then DecideOn(config, old(failed), log[..seen], OpenBreaker(brake)) else None;
        var o := AppendOutcome(config.account, log, seen, d, between);
        && journal.Log() == LogAfter(log, o, between)
        && failed == (old(failed) || !guarded || Loses(o))
    {
      if !guarded {
        failed := true;
      } else if !failed {
        var state := ReadState(config.account, journal.Log()[..seen]);
        if state.Some? {
          var d := DecideBreaker(config, state.value, brake);
          if d.Some? {
            var _ := Append(seen, state.value, d.value, between);
          }
        }
      }
    }

    /** _owned_grant: the grant is this session's own object and the journal read still backs it. */
    predicate OwnedGrant(read: seq<Event>, g: Grant)
      reads this
    {
      Fold(config.account, read).readable
      && Owns(Session(config, issued, used, failed, Idle), Fold(config.account, read).state, g)
    }

    /**
     * record_observation: persists the broker's facts for a dispatched grant; exact repetition writes nothing.
     * `ok` says that the call returns instead of raising.
     */
    method RecordObservation(g: Grant, report: Report, recordedAt: Option<Time>, seen: nat, between: seq<Event>)
      returns (event: Option<Event>, ok: bool)
      requires Valid() && seen <= |journal.Log()|
      modifies this`failed, journal`cells
      ensures Valid()
      ensures
        var r := ObservationResult(old(Session(config, issued, used, failed, Idle)), old(journal.Log()), seen, g,
            report, recordedAt, between);
        && journal.Log() == r.log && failed == (old(failed) || Loses(r.outcome)) && ok == r.ok
        && event == (if r.outcome.Done? then Some(r.outcome.event) else None)
    {
      event, ok := None, false;
      if !failed {
        var state := ReadState(config.account, journal.Log()[..seen]);
        if state.Some? && OwnedGrant(journal.Log()[..seen], g) && g.attempt in used {
          var a := state.value.attempts[g.attempt];
          var d := DecideObservation(a, g.attempt, report, recordedAt);
          if d.Some? {
            event := Append(seen, state.value, d.value, between);
            ok := event.Some? && !ReportInvalid(a, report);
          } else {
            ok := a.observation == Some(ObservationFrom(a, report)) && !ReportInvalid(a, report);
          }
        }
      }
    }

    /** Everything dispatch requires before it consumes the grant: early read, domain facts and guarded read. */
    predicate DispatchAllowed(early: seq<Event>, current: seq<Event>, g: Grant, order: Order, now: Time,
                              verifiedNow: bool)
      reads this
    {
      DispatchGranted(Session(config, issued, used, failed, Idle), early, current, g, order, now, verifiedNow)
    }

    /** The guarded end of dispatch: consume the grant, call the broker, and record what came of it. */
    method Consume(g: Grant, broker: Broker, answer: Option<Report>, recordedAt: Option<Time>, meanwhile: seq<Event>,
                   known: nat, between: seq<Event>)
      requires Valid() && !failed && g.attempt in issued && known <= |meanwhile|
      modifies this`failed, this`used, journal`cells, broker`calls
      ensures Valid() && broker.calls == old(broker.calls) + [g.attempt] && used == old(used) + {g.attempt}
      ensures
        var log := old(journal.Log()) + meanwhile;
        var r := ObservationResult(Session(config, issued, used, false, Idle), log, |old(journal.Log())| + known, g,
                                   if answer.Some? then answer.value else NO_REPORT, recordedAt, between);
        journal.Log() == r.log && failed == (Loses(r.outcome) || (answer.None? && !r.ok))
    {
      hide ObservationResult;
      used := used + {g.attempt};
      broker.Call(g.attempt);
      var n := |journal.Log()|;
      journal.Arrive(meanwhile);
      var report := if answer.Some? then answer.value else NO_REPORT;
      var _, ok := RecordObservation(g, report, recordedAt, n + known, between);
      if answer.None? && !ok {
        failed := true;
      }
    }

    /**
     * dispatch: consumes the grant at the broker at most once, then records the outcome. The broker answers
     * with `answer`, or raises when it is None. `early` is how much of the journal the first read saw and
     * `guarded` says that the writer guard was acquired and stayed confirmed. The guard keeps out only OPEN and
     * other broker calls: `meanwhile` is what other writers create during the call, `known` how much of it the
     * outcome read sees, and `between` lands before the outcome is confirmed.
     */
    method Dispatch(g: Grant, order: Order, broker: Broker, answer: Option<Report>, recordedAt: Option<Time>,
                    now: Time, verifiedNow: bool, early: nat, guarded: bool, meanwhile: seq<Event>, known: nat,
                    between: seq<Event>)
      returns (called: bool)
      requires Valid() && early <= |journal.Log()| && known <= |meanwhile|
      modifies this`failed, this`used, journal`cells, broker`calls
      ensures Valid() && issued == old(issued)
      ensures called <==>
        guarded && old(DispatchAllowed(journal.Log()[..early], journal.Log(), g, order, now, verifiedNow))
      ensures broker.calls == if called then old(broker.calls) + [g.attempt] else old(broker.calls)
      ensures used == if called then old(used) + {g.attempt} else old(used)
      ensures !called ==> journal.Log() == old(journal.Log()) && (guarded ==> failed == old(failed))
      ensures called ==>
        var log := old(journal.Log()) + meanwhile;
        var r := ObservationResult(Session(config, issued, used, false, Idle), log, |old(journal.Log())| + known, g,
                                   if answer.Some? then answer.value else NO_REPORT, recordedAt, between);
        journal.Log() == r.log && failed == (Loses(r.outcome) || (answer.None? && !r.ok))
    {
      hide Fold, DispatchFactsCurrent, ObservationResult, MayDispatch;
      called := false;
      var s := ReadState(config.account, journal.Log()[..early]);
      if failed || s.None? || !OwnedGrant(journal.Log()[..early], g) || order.account != config.account
         || OrderDigest(order) != g.order || g.attempt in used
         || !MayDispatch(s.value.attempts[g.attempt], s.value)
         || !DispatchFactsCurrent(config, s.value, s.value.attempts[g.attempt], now, verifiedNow) {
        return;
      }
      if !guarded {
        failed := true;
        return;
      }
      var current := ReadState(config.account, journal.Log());
      if current.None? || !OwnedGrant(journal.Log(), g)
          || !MayDispatch(current.value.attempts[g.attempt], current.value) {
        return;
      }
      Consume(g, broker, answer, recordedAt, meanwhile, known, between);
      called := true;
    }
  }

  /** Everything dispatch requires of the two reads, the session and its arguments before it consumes the grant. */
  predicate DispatchGranted(s: Session, early: seq<Event>, current: seq<Event>, g: Grant, order: Order, now: Time,
                            verifiedNow: bool) {
    var account := s.config.account;
    && !s.failed && Fold(account, early).readable && Fold(account, current).readable
    && Owns(s, Fold(account, early).state, g) && Owns(s, Fold(account, current).state, g)
    && order.account == account && OrderDigest(order) == g.order && g.attempt !in s.used
    && var early := Fold(account, early).state;
    && MayDispatch(early.attempts[g.attempt], early)
    && DispatchFactsCurrent(s.config, early, early.attempts[g.attempt], now, verifiedNow)
    && var current := Fold(account, current).state;
    && MayDispatch(current.attempts[g.attempt], current)
  }

  /** Whether record_observation returns: a usable report that was persisted and confirmed, or repeats the last one. */
  predicate ReturnsNormally(a: Attempt, r: Report, o: Outcome) {
    !ReportInvalid(a, r) && (o.Done? || a.observation == Some(ObservationFrom(a, r)))
  }

  /** What recording an observation comes to: the journal, the outcome of the create, and whether the call returns. */
  datatype Recorded = Recorded(log: seq<Event>, outcome: Outcome, ok: bool)

  /** Only a healthy session records, only for its own consumed grant, and only on a journal that backs the grant. */
  predicate MayRecord(s: Session, read: seq<Event>, g: Grant) {
    && !s.failed && g.attempt in s.used
    && Fold(s.config.account, read).readable && Owns(s, Fold(s.config.account, read).state, g)
  }

  function ObservationResult(s: Session, log: seq<Event>, seen: nat, g: Grant, report: Report,
                             recordedAt: Option<Time>, between: seq<Event>): Recorded
    requires seen <= |log|
  {
    if !MayRecord(s, log[..seen], g) then Recorded(log, Refused, false)
    else
      var a := Fold(s.config.account, log[..seen]).state.attempts[g.attempt];
      var o := AppendOutcome(s.config.account, log, seen, DecideObservation(a, g.attempt, report, recordedAt), between);
      Recorded(LogAfter(log, o, between), o, ReturnsNormally(a, report, o))
  }

  /** Confirmation finds the created event at the head exactly when nothing landed behind it and it is readable. */
  lemma ConfirmedExactly(account: Id, log: seq<Event>, e: Event, between: seq<Event>)
    requires Fold(account, log).readable && e == Seal(Fold(account, log).state, account, e.data)
    ensures
      var f := Fold(account, log + [e] + between);
      f.readable && f.state.generation == e.sequence && f.state.head == e.digest
      <==> between == [] && Fold(account, log + [e]).readable
  {
    var longer := log + [e] + between;
    AppendFolds(account, log, e);
    AcceptedJournalIsChained(account, log);
    if Fold(account, longer).readable {
      AcceptedJournalIsChained(account, longer);
    }
    if between == [] {
      assert longer == log + [e];
    }
  }

  /** What a reserve call comes to: the journal it leaves and the outcome of its last create. */
  datatype Reserved = Reserved(log: seq<Event>, outcome: Outcome)

  /** The second half of a binding reserve: `bound` is the journal that ends with the binding. */
  ghost function ReserveAgain(c: Config, bound: seq<Event>, order: Order, newRisk: bool, attempt: Id, fence: Id,
                              arrivals: seq<Event>, again: nat, later: seq<Event>): Reserved
    requires again <= |arrivals|
  {
    var log := bound + arrivals;
    var position := |bound| + again;
    var d := DecideOn(c, false, log[..position], ReserveAfterBind(order, newRisk, attempt, fence));
    var o := AppendOutcome(c.account, log, position, d, later);
    Reserved(LogAfter(log, o, later), o)
  }

  ghost function ReserveResult(c: Config, failed: bool, log: seq<Event>, order: Order, newRisk: bool, attempt: Id,
                               fence: Id, seen: nat, between: seq<Event>, arrivals: seq<Event>, again: nat,
                               later: seq<Event>): Reserved
    requires seen <= |log| && again <= |arrivals|
  {
    var bind := DecideOn(c, failed, log[..seen], Bind(order, newRisk));
    var d := if bind.Some? then bind
        else DecideOn(c, failed, log[..seen], ReserveOrder(order, newRisk, attempt, fence));
    var o := AppendOutcome(c.account, log, seen, d, between);
    var after := LogAfter(log, o, between);
    if bind.Some? && o.Done? then ReserveAgain(c, after, order, newRisk, attempt, fence, arrivals, again, later)
    else Reserved(after, o)
  }

  lemma ReserveIsRefused(c: Config, failed: bool, log: seq<Event>, order: Order, newRisk: bool, attempt: Id,
                         fence: Id, seen: nat, between: seq<Event>, arrivals: seq<Event>, again: nat,
                         later: seq<Event>)
    requires seen <= |log| && again <= |arrivals|
    requires failed || !Fold(c.account, log[..seen]).readable
        || !ReserveAdmitted(c, Fold(c.account, log[..seen]).state, order, newRisk)
    ensures ReserveResult(c, failed, log, order, newRisk, attempt, fence, seen, between, arrivals, again, later)
        == Reserved(log, Refused)
  {
    hide Fold, ReserveAdmitted;
  }

  lemma DecisionsOfReserve(c: Config, read: seq<Event>, order: Order, newRisk: bool, attempt: Id, fence: Id)
    requires Fold(c.account, read).readable
    ensures
      var s := Fold(c.account, read).state;
      && DecideOn(c, false, read, Bind(order, newRisk)) == DecideBind(c, s, order, newRisk)
      && DecideOn(c, false, read, ReserveAfterBind(order, newRisk, attempt, fence))
          == DecidePreparation(c, s, order, newRisk, attempt, fence)
      && (ReserveAdmitted(c, s, order, newRisk) ==>
            DecideOn(c, false, read, ReserveOrder(order, newRisk, attempt, fence))
                == DecidePreparation(c, s, order, newRisk, attempt, fence))
  {
    hide Fold, DecidePreparation, DecideBind, ReserveAdmitted;
  }

  /**
   * A journal that was not bound holds no reservation, so if nothing is appended between the binding and the
   * second read, the reserve call that binds it grants nothing.
   */
  lemma BindingLeavesNothingReserved(c: Config, log: seq<Event>, order: Order, newRisk: bool, attempt: Id, fence: Id,
                                     later: seq<Event>)
    requires DecideOn(c, false, log, Bind(order, newRisk)).Some?
    ensures
      var r := ReserveResult(c, false, log, order, newRisk, attempt, fence, |log|, [], [], 0, later);
      && r.outcome == Refused
      && r.log == log + [Seal(Fold(c.account, log).state, c.account, DomainBound(BindingOf(c.domain.value)))]
  {
    var e := Seal(Fold(c.account, log).state, c.account, DomainBound(BindingOf(c.domain.value)));
    FoldIsCoherent(c.account, log);
    AppendFolds(c.account, log, e);
    UnreservedCannotPrepare(c, Fold(c.account, log + [e]).state, order, newRisk, attempt, fence);
    DecisionsOfReserve(c, log, order, newRisk, attempt, fence);
    DecisionsOfReserve(c, log + [e], order, newRisk, attempt, fence);
    hide Fold, DecidePreparation, DecideOn, ReserveAgain, ReserveResult, Seal;
    BindingIsConfirmed(c, log, order, newRisk, attempt, fence, [], 0, later);
    NothingToPrepare(c, log + [e], order, newRisk, attempt, fence, later);
  }

  /** An undisturbed binding is confirmed, and the call goes on from the journal that ends with it. */
  lemma BindingIsConfirmed(c: Config, log: seq<Event>, order: Order, newRisk: bool, attempt: Id, fence: Id,
                           arrivals: seq<Event>, again: nat, later: seq<Event>)
    requires again <= |arrivals| && DecideOn(c, false, log, Bind(order, newRisk)).Some?
    requires var d := DecideOn(c, false, log, Bind(order, newRisk)).value;
             Fold(c.account, log + [Seal(Fold(c.account, log).state, c.account, d)]).readable
    ensures
      var e := Seal(Fold(c.account, log).state, c.account, DecideOn(c, false, log, Bind(order, newRisk)).value);
      ReserveResult(c, false, log, order, newRisk, attempt, fence, |log|, [], arrivals, again, later)
      == ReserveAgain(c, log + [e], order, newRisk, attempt, fence, arrivals, again, later)
  {
    hide Fold, DecideOn, ReserveAgain, Seal;
    var e := Seal(Fold(c.account, log).state, c.account, DecideOn(c, false, log, Bind(order, newRisk)).value);
    assert log[..|log|] == log && log + [e] + [] == log + [e];
  }

  lemma NothingToPrepare(c: Config, bound: seq<Event>, order: Order, newRisk: bool, attempt: Id, fence: Id,
                         later: seq<Event>)
    requires DecideOn(c, false, bound, ReserveAfterBind(order, newRisk, attempt, fence)).None?
    ensures ReserveAgain(c, bound, order, newRisk, attempt, fence, [], 0, later) == Reserved(bound, Refused)
  {
    hide DecideOn;
    assert bound + [] == bound && bound[..|bound|] == bound;
  }

  lemma UnreservedCannotPrepare(c: Config, s: State, order: Order, newRisk: bool, attempt: Id, fence: Id)
    requires c.domain.Some? && s.reservations == map[]
    ensures DecidePreparation(c, s, order, newRisk, attempt, fence).None?
  {
  }

  // ----- The methods are steps of the protocol -----

  /** Without interference the confirmation read succeeds exactly when the created event left the journal readable. */
  lemma ConfirmationIsReadability(w: World, e: Event, created: World, sid: Sid)
    requires Fold(w.account, w.log).readable && e == Seal(StateOf(w), w.account, e.data)
    requires created.log == w.log + [e] && created.account == w.account
    requires sid in created.sessions && created.sessions[sid].phase.Confirming?
    requires created.sessions[sid].phase.sequence == e.sequence && created.sessions[sid].phase.digest == e.digest
    ensures ConfirmationHolds(created, created.sessions[sid].phase) <==> Fold(w.account, w.log + [e]).readable
  {
    AppendFolds(w.account, w.log, e);
  }

  /** The outcome of a writer method and the world its two protocol steps lead to say the same. */
  ghost predicate SameResult(w: World, sid: Sid, call: Call, o: Outcome, w': World)
    requires sid in w.sessions
  {
    && w'.log == LogAfter(w.log, o, []) && w'.submissions == w.submissions && w'.guard != Some(sid)
    && sid in w'.sessions && w'.sessions[sid].failed == Loses(o) && w'.sessions[sid].used == w.sessions[sid].used
    && w'.sessions[sid].phase
        == (if call.Bind? && o.Done? then Rereading(o.event.sequence, Pending(call.order, call.newRisk)) else Idle)
    && var earned := if o.Done? then GrantFor(w.sessions[sid].config, o.event) else None;
       w'.sessions[sid].issued == if earned.Some? then w.sessions[sid].issued[earned.value.attempt := earned.value]
           else w.sessions[sid].issued
  }

  /**
   * A write by a session, wherever it stands in its call, is two steps of the protocol, a write and its
   * confirmation: both reach the same journal and the same grants, and the session has failed in one exactly when
   * in the other. This covers the two halves of a binding reserve and the outcome of a dispatch.
   */
  lemma WriterMethodIsTwoSteps(w: World, sid: Sid, seen: nat, call: Call)
    requires Inv(w) && WriteEnabled(w, sid, seen, call)
    ensures
      var o := AppendOutcome(w.account, w.log, seen, DecideOn(w.sessions[sid].config, false, w.log[..seen], call), []);
      SameResult(w, sid, call, o, Next(Next(w, Write(sid, seen, call)), Confirm(sid)))
  {
    SessionInOrder(w, sid);
    if Decide(w.sessions[sid].config, Fold(w.account, w.log[..seen]).state, call).None? {
      RefusedWriteIsOneStep(w, sid, seen, call);
    } else if seen < |w.log| {
      StaleWriteIsOneStep(w, sid, seen, call);
    } else {
      CreatedIsTwoSteps(w, sid, call);
    }
  }

  lemma RefusedWriteIsOneStep(w: World, sid: Sid, seen: nat, call: Call)
    requires WriteEnabled(w, sid, seen, call) && SessionOk(w, sid)
    requires Decide(w.sessions[sid].config, Fold(w.account, w.log[..seen]).state, call).None?
    ensures SameResult(w, sid, call, Refused, Next(Next(w, Write(sid, seen, call)), Confirm(sid)))
  {
    hide Fold, Decide;
    var left := Next(w, Write(sid, seen, call));
    assert left == if w.sessions[sid].phase.Idle? then w else Leave(w, sid, w.sessions[sid]);
    assert w.sessions[sid].phase.Idle? ==> w.guard != Some(sid);
    hide WriteEnabled, SessionOk, PhaseOk;
    assert Next(left, Confirm(sid)) == left;
  }

  lemma StaleWriteIsOneStep(w: World, sid: Sid, seen: nat, call: Call)
    requires WriteEnabled(w, sid, seen, call) && SessionOk(w, sid) && seen < |w.log|
    requires Decide(w.sessions[sid].config, Fold(w.account, w.log[..seen]).state, call).Some?
    ensures SameResult(w, sid, call, Conflict, Next(Next(w, Write(sid, seen, call)), Confirm(sid)))
  {
    hide Fold, Decide;
    var left := Next(w, Write(sid, seen, call));
    var drawn := if Mints(call) then w.(minted := w.minted + {call.attempt}) else w;
    assert left == Leave(drawn, sid, w.sessions[sid].(failed := true));
    hide WriteEnabled, SessionOk, PhaseOk, Mints;
    assert Next(left, Confirm(sid)) == left;
  }

  lemma WriteIsCreated(w: World, sid: Sid, call: Call)
    requires WriteEnabled(w, sid, |w.log|, call)
    requires Decide(w.sessions[sid].config, StateOf(w), call).Some?
    ensures
      var drawn := if Mints(call) then w.(minted := w.minted + {call.attempt}) else w;
      var e := Seal(StateOf(w), w.account, Decide(w.sessions[sid].config, StateOf(w), call).value);
      Next(w, Write(sid, |w.log|, call)) == Created(drawn, sid, e, ResumeOf(call))
  {
    hide Decide, Fold, Seal;
    assert w.log[..|w.log|] == w.log;
  }

  /** Confirming a created event, with nothing behind it. */
  lemma ConfirmedIsOutcome(w: World, drawn: World, sid: Sid, call: Call, e: Event)
    requires Fold(w.account, w.log).readable && sid in w.sessions && !w.sessions[sid].failed
    requires drawn == w || (Mints(call) && drawn == w.(minted := w.minted + {call.attempt}))
    requires e == Seal(StateOf(w), w.account, e.data) && (call.Bind? ==> !e.data.Prepared?)
    ensures
      var o := if Fold(w.account, w.log + [e]).readable then Done(e) else Unconfirmed(e);
      SameResult(w, sid, call, o, Next(Created(drawn, sid, e, ResumeOf(call)), Confirm(sid)))
  {
    var created := Created(drawn, sid, e, ResumeOf(call));
    ConfirmationIsReadability(w, e, created, sid);
    ConfirmIsNext(created, sid);
    ConfirmStep(created, sid);
    hide Next, NextConfirm, ConfirmationHolds, Fold, Mints, Seal;
    ConfirmedResult(w, created, NextConfirm(created, sid), sid, call, e, Fold(w.account, w.log + [e]).readable);
  }

  /** The session after the confirmation, read as the outcome of the writer. */
  lemma ConfirmedResult(w: World, created: World, w': World, sid: Sid, call: Call, e: Event, holds: bool)
    requires sid in w.sessions && !w.sessions[sid].failed && (call.Bind? ==> !e.data.Prepared?)
    requires created.log == w.log + [e] && created.submissions == w.submissions && sid in created.sessions
    requires
      var s := w.sessions[sid];
      created.sessions[sid] == s.(phase := Confirming(e.sequence, e.digest, GrantFor(s.config, e), ResumeOf(call)))
    requires w'.log == created.log && w'.submissions == w.submissions && w'.guard != Some(sid) && sid in w'.sessions
    requires
      var s, t := created.sessions[sid], w'.sessions[sid];
      && t.used == s.used && t.failed == (s.failed || !holds)
      && t.phase == (if holds && s.phase.resume.Some? then Rereading(s.phase.sequence, s.phase.resume.value) else Idle)
      && t.issued == (if holds && s.phase.resume.None? && s.phase.earned.Some?
                      then s.issued[s.phase.earned.value.attempt := s.phase.earned.value] else s.issued)
    ensures SameResult(w, sid, call, if holds then Done(e) else Unconfirmed(e), w')
  {
    assert w.log + [e] + [] == w.log + [e];
  }

  /** What a confirmation read leaves of the session, by whether it finds the created event. */
  lemma ConfirmStep(w: World, sid: Sid)
    requires sid in w.sessions && w.sessions[sid].phase.Confirming?
    ensures
      var w', s := NextConfirm(w, sid), w.sessions[sid];
      var holds, earned, resume := ConfirmationHolds(w, s.phase), s.phase.earned, s.phase.resume;
      && w'.log == w.log && w'.submissions == w.submissions && w'.guard != Some(sid) && sid in w'.sessions
      && var t := w'.sessions[sid];
      && t.used == s.used && t.failed == (s.failed || !holds)
      && t.phase == (if holds && resume.Some? then Rereading(s.phase.sequence, resume.value) else Idle)
      && t.issued == (if holds && resume.None? && earned.Some?
                      then s.issued[earned.value.attempt := earned.value] else s.issued)
  {
    hide ConfirmationHolds;
  }

  lemma CreatedIsTwoSteps(w: World, sid: Sid, call: Call)
    requires WriteEnabled(w, sid, |w.log|, call) && w.sessions[sid].config.account == w.account
    requires Decide(w.sessions[sid].config, Fold(w.account, w.log[..|w.log|]).state, call).Some?
    ensures
      var read := w.log[..|w.log|];
      var o := AppendOutcome(w.account, w.log, |w.log|, DecideOn(w.sessions[sid].config, false, read, call), []);
      SameResult(w, sid, call, o, Next(Next(w, Write(sid, |w.log|, call)), Confirm(sid)))
  {
    assert w.log[..|w.log|] == w.log;
    WriteIsCreated(w, sid, call);
    var drawn := if Mints(call) then w.(minted := w.minted + {call.attempt}) else w;
    var e := Seal(StateOf(w), w.account, Decide(w.sessions[sid].config, StateOf(w), call).value);
    DecidedKind(w.sessions[sid].config, StateOf(w), call);
    ConfirmedIsOutcome(w, drawn, sid, call, e);
    hide Decide, Fold, Next, SameResult, Created, Mints, Seal;
  }

  /** Opening the breaker is entering the guard, the write and its confirmation; the guard is free again afterwards. */
  lemma BreakerMethodIsThreeSteps(w: World, sid: Sid, seen: nat, brake: BrakeSnapshot)
    requires Inv(w) && sid in w.sessions && w.sessions[sid].phase.Idle? && !w.sessions[sid].failed && w.guard.None?
    requires seen <= |w.log| && Fold(w.account, w.log[..seen]).readable
    ensures
      var call := OpenBreaker(brake);
      var o := AppendOutcome(w.account, w.log, seen, DecideOn(w.sessions[sid].config, false, w.log[..seen], call), []);
      SameResult(w, sid, call, o, Next(Next(Next(w, EnterBreaker(sid)), Write(sid, seen, call)), Confirm(sid)))
  {
    var entered := Next(w, EnterBreaker(sid));
    assert entered == With(w, sid, w.sessions[sid].(phase := HoldingForBreaker)).(guard := Some(sid));
    NextKeepsInv(w, EnterBreaker(sid));
    hide Inv, Next, Decide, Fold;
    WriterMethodIsTwoSteps(entered, sid, seen, OpenBreaker(brake));
  }

  /** The four protocol steps of a dispatch up to and including the broker call. */
  ghost function DispatchSteps(w: World, sid: Sid, early: nat, attempt: Id, order: Order, now: Time,
                               verifiedNow: bool): World
  {
    var entered := Next(w, EnterDispatch(sid, early, attempt, order, now, verifiedNow));
    Next(Next(Next(entered, Authorize(sid)), Mark(sid)), Submit(sid))
  }

  /**
   * An undisturbed dispatch is four steps of the protocol: they call the broker exactly when the method does,
   * they consume the same grant, and otherwise they leave the world as it was.
   */
  lemma DispatchMethodIsFourSteps(w: World, sid: Sid, early: nat, g: Grant, order: Order, now: Time, verifiedNow: bool)
    requires Inv(w) && sid in w.sessions && w.sessions[sid].phase.Idle? && w.guard.None? && early <= |w.log|
    requires g.attempt in w.sessions[sid].issued && w.sessions[sid].issued[g.attempt] == g
    ensures
      var s := w.sessions[sid];
      var called := DispatchSteps(w, sid, early, g.attempt, order, now, verifiedNow);
      if DispatchGranted(s, w.log[..early], w.log, g, order, now, verifiedNow) then
        && called.log == w.log && called.submissions == w.submissions + [Submission(sid, g.attempt, |w.log|)]
        && called.guard == Some(sid)
        && called.sessions == w.sessions[sid := s.(used := s.used + {g.attempt}, phase := Protocol.Outcome(g))]
      else called == w
  {
    SessionInOrder(w, sid);
    var a := EnterDispatch(sid, early, g.attempt, order, now, verifiedNow);
    var entered := Next(w, a);
    if DispatchEnabled(w, a) {
      hide Inv;
      EnteredDispatch(w, entered, sid, g);
    } else {
      hide Inv, Fold;
      assert entered == w;
    }
  }

  lemma EnteredDispatch(w: World, entered: World, sid: Sid, g: Grant)
    requires sid in w.sessions && w.guard.None? && w.sessions[sid].phase.Idle?
    requires entered == With(w, sid, w.sessions[sid].(phase := Holding(g))).(guard := Some(sid))
    ensures
      var read := Fold(w.account, w.log);
      var s := w.sessions[sid];
      var called := Next(Next(Next(entered, Authorize(sid)), Mark(sid)), Submit(sid));
      if read.readable && Owns(s, read.state, g) && MayDispatch(read.state.attempts[g.attempt], read.state) then
        && called.log == w.log && called.submissions == w.submissions + [Submission(sid, g.attempt, |w.log|)]
        && called.guard == Some(sid)
        && called.sessions == w.sessions[sid := s.(used := s.used + {g.attempt}, phase := Protocol.Outcome(g))]
      else called == w
  {
    hide Fold;
    var read := Fold(w.account, w.log);
    var authorized := Next(entered, Authorize(sid));
    if read.readable && Owns(w.sessions[sid], read.state, g)
        && MayDispatch(read.state.attempts[g.attempt], read.state) {
      assert authorized == With(entered, sid, entered.sessions[sid].(phase := Authorized(g)));
    } else {
      assert authorized == Leave(entered, sid, entered.sessions[sid]);
      assert authorized.sessions == w.sessions;
    }
  }

  /**
   * A bound session dispatches an order that is not a reduction only while its reservation is whole and names
   * the current snapshot: on the journal read first, the full loss of the order plus its fee is still reserved.
   */
  lemma DispatchedReservationIsWhole(s: Session, early: seq<Event>, current: seq<Event>, g: Grant, order: Order,
                                     now: Time, verifiedNow: bool)
    requires DispatchGranted(s, early, current, g, order, now, verifiedNow) && s.config.domain.Some?
        && AdmittedJournal(early)
    requires !Fold(s.config.account, early).state.attempts[g.attempt].preparation.purpose.Reduction?
    ensures
      var t := Fold(s.config.account, early).state;
      && g.order in t.reservations && t.equity.Some?
      && var r := t.reservations[g.order];
      && Whole(r) && r.remaining >= order.quantity * r.facts.lossPerUnit + r.facts.fee
      && r.facts.source == t.equity.value.source && t.equity.value.valuationAt <= now < t.equity.value.validUntil
  {
    hide Fold;
    FreshReservationIsWhole(s.config.account, early, g.order);
    JournalStaysAccounted(s.config.account, early);
    assert ReservationAccounted(Fold(s.config.account, early).state, g.order);
  }

  /** Event `i` reconciles an attempt of the order other than this one. */
  ghost predicate ReconcilesAnother(account: Id, log: seq<Event>, k: OrderDigest, a: Id, i: nat)
    requires i < |log|
  {
    ReconcilesOrder(Fold(account, log[..i]).state, log[i].data, k) && log[i].data.attempt != a
  }

  /**
   * At the read inside the guard the reservation is still whole, unless another attempt of the order was reconciled
   * after the first read: the dispatched attempt itself is prepared all the while and cannot have been.
   */
  lemma GuardedReservationIsWhole(s: Session, early: seq<Event>, current: seq<Event>, g: Grant, order: Order,
                                  now: Time, verifiedNow: bool)
    requires DispatchGranted(s, early, current, g, order, now, verifiedNow) && s.config.domain.Some?
    requires early <= current
    requires !Fold(s.config.account, early).state.attempts[g.attempt].preparation.purpose.Reduction?
    ensures
      var t := Fold(s.config.account, current).state;
      && g.order in t.reservations
      && (Whole(t.reservations[g.order])
          || exists i :: |early| <= i < |current|
                         && ReconcilesAnother(s.config.account, current, g.order, g.attempt, i))
  {
    var account := s.config.account;
    hide Fold;
    FreshReservationIsWhole(account, early, g.order);
    FoldEvolves(account, early, current);
    assert ReservationEvolves(Fold(account, early).state, Fold(account, current).state, g.order);
    if ReservationAt(account, current, g.order) != ReservationAt(account, early, g.order) {
      var i := ReservationChangeNeedsCoveringSnapshot(account, early, current, g.order);
      PreparedIsNotReconciled(account, current, g.order, g.attempt, i);
      assert ReconcilesAnother(account, current, g.order, g.attempt, i);
    }
  }

  /** An attempt that is still prepared was not reconciled before. */
  lemma PreparedIsNotReconciled(account: Id, log: seq<Event>, k: OrderDigest, a: Id, i: nat)
    requires i < |log| && ReconcilesOrder(Fold(account, log[..i]).state, log[i].data, k)
    requires a in Fold(account, log).state.attempts && Fold(account, log).state.attempts[a].certainty == PREPARED
    ensures log[i].data.attempt != a
  {
    hide Fold;
    FoldEvolves(account, log[..i], log);
    var b := log[i].data.attempt;
    assert Advances(Fold(account, log[..i]).state.attempts[b], Fold(account, log).state.attempts[b]);
  }

  lemma PreparedIsObservable(c: Config, s: State, attempt: Id, report: Report, recordedAt: Option<Time>)
    requires StateCoherent(s) && attempt in s.attempts && s.attempts[attempt].certainty == PREPARED
    ensures
      var d := Decide(c, s, RecordObservation(attempt, report, recordedAt));
      d.Some? && Apply(s, c.account, Seal(s, c.account, d.value)).Some?
  {
    var call := RecordObservation(attempt, report, recordedAt);
    assert AttemptCoherent(s.attempts[attempt]);
    WriterEventReplaysExactly(c, s, call);
  }

  /** Recording the outcome of a broker call that has just been made, on the journal it was made on. */
  lemma OutcomeIsTwoSteps(w: World, sid: Sid, g: Grant, report: Report, recordedAt: Option<Time>)
    requires Inv(w) && sid in w.sessions && w.sessions[sid].phase == Protocol.Outcome(g) && !w.sessions[sid].failed
    requires Fold(w.account, w.log).readable && g.attempt in w.sessions[sid].issued && g.attempt in w.sessions[sid].used
    requires Owns(w.sessions[sid], StateOf(w), w.sessions[sid].issued[g.attempt])
    requires g.attempt in StateOf(w).attempts && StateOf(w).attempts[g.attempt].certainty == PREPARED
    ensures
      var call := RecordObservation(g.attempt, report, recordedAt);
      var o := AppendOutcome(w.account, w.log, |w.log|, DecideOn(w.sessions[sid].config, false, w.log, call), []);
      var done := Next(Next(w, Write(sid, |w.log|, call)), Confirm(sid));
      && o.Done? && done.log == w.log + [o.event] && SameResult(w, sid, call, o, done)
      && GrantFor(w.sessions[sid].config, o.event).None?
  {
    var c, call := w.sessions[sid].config, RecordObservation(g.attempt, report, recordedAt);
    SessionInOrder(w, sid);
    FoldIsCoherent(w.account, w.log);
    assert w.log[..|w.log|] == w.log;
    PreparedIsObservable(c, StateOf(w), g.attempt, report, recordedAt);
    hide Inv, Next, Decide, Apply, StateCoherent, Owns, SameResult, Seal, GrantFor, SessionOk, AppendOutcome;
    assert WriteEnabled(w, sid, |w.log|, call);
    hide Fold, WriteEnabled;
    WriterMethodIsTwoSteps(w, sid, |w.log|, call);
    OutcomeOfWholeRead(w.account, w.log, Decide(c, StateOf(w), call).value);
    ObservationEarnsNothing(c, StateOf(w), call);
  }

  /**
   * A whole undisturbed dispatch: the four steps to the broker call, then the write of the outcome and its
   * confirmation. Whatever the broker answers, the outcome is persisted, the broker has been called once, the
   * grant is used, and the session is healthy, idle and out of the guard.
   */
  lemma DispatchWithOutcomeIsSixSteps(w: World, sid: Sid, early: nat, g: Grant, order: Order, now: Time,
                                      verifiedNow: bool, report: Report, recordedAt: Option<Time>)
    requires Inv(w) && sid in w.sessions && w.sessions[sid].phase.Idle? && w.guard.None? && early <= |w.log|
    requires g.attempt in w.sessions[sid].issued && w.sessions[sid].issued[g.attempt] == g
    requires DispatchGranted(w.sessions[sid], w.log[..early], w.log, g, order, now, verifiedNow)
    ensures
      var s := w.sessions[sid];
      var call := RecordObservation(g.attempt, report, recordedAt);
      var o := AppendOutcome(w.account, w.log, |w.log|, DecideOn(s.config, false, w.log, call), []);
      var called := DispatchSteps(w, sid, early, g.attempt, order, now, verifiedNow);
      var done := Next(Next(called, Write(sid, |w.log|, call)), Confirm(sid));
      && o.Done? && done.log == w.log + [o.event]
      && done.submissions == w.submissions + [Submission(sid, g.attempt, |w.log|)] && done.guard != Some(sid)
      && sid in done.sessions && !done.sessions[sid].failed && done.sessions[sid].phase.Idle?
      && done.sessions[sid].used == s.used + {g.attempt} && done.sessions[sid].issued == s.issued
  {
    var called := DispatchSteps(w, sid, early, g.attempt, order, now, verifiedNow);
    SessionInOrder(w, sid);
    DispatchMethodIsFourSteps(w, sid, early, g, order, now, verifiedNow);
    DispatchStepsKeepInv(w, sid, early, g.attempt, order, now, verifiedNow);
    hide Inv, Next, DispatchSteps, DecideOn, Fold, DispatchFactsCurrent, AppendOutcome, GrantFor;
    OutcomeIsTwoSteps(called, sid, g, report, recordedAt);
  }

  lemma ObservationEarnsNothing(c: Config, s: State, call: Call)
    requires call.RecordObservation? && Decide(c, s, call).Some?
    ensures GrantFor(c, Seal(s, c.account, Decide(c, s, call).value)).None?
  {
  }

  lemma DispatchStepsKeepInv(w: World, sid: Sid, early: nat, attempt: Id, order: Order, now: Time, verifiedNow: bool)
    requires Inv(w)
    ensures Inv(DispatchSteps(w, sid, early, attempt, order, now, verifiedNow))
    ensures DispatchSteps(w, sid, early, attempt, order, now, verifiedNow).account == w.account
  {
    hide Next, Inv;
    var entered := Next(w, EnterDispatch(sid, early, attempt, order, now, verifiedNow));
    NextKeepsInv(w, EnterDispatch(sid, early, attempt, order, now, verifiedNow));
    NextKeepsInv(entered, Authorize(sid));
    NextKeepsInv(Next(entered, Authorize(sid)), Mark(sid));
    NextKeepsInv(Next(Next(entered, Authorize(sid)), Mark(sid)), Submit(sid));
    NextKeepsAccount(w, EnterDispatch(sid, early, attempt, order, now, verifiedNow));
    NextKeepsAccount(entered, Authorize(sid));
    NextKeepsAccount(Next(entered, Authorize(sid)), Mark(sid));
    NextKeepsAccount(Next(Next(entered, Authorize(sid)), Mark(sid)), Submit(sid));
  }
}
