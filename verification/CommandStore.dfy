/** Durable execution commands: the transition table, create-only histories and the lock-free claim. */
module CommandStore {
  import opened Prelude

  datatype CommandState =
    | QUEUED | CLAIMED | SUBMITTED | ACCEPTED | PARTIALLY_FILLED
    | FILLED | CANCELLED | REJECTED | RECONCILIATION_REQUIRED

  predicate IsTerminal(s: CommandState) {
    s == FILLED || s == CANCELLED || s == REJECTED
  }

  function AllowedNext(s: CommandState): set<CommandState> {
    match s
    case QUEUED => {CLAIMED, CANCELLED}
    case CLAIMED => {SUBMITTED, RECONCILIATION_REQUIRED, CANCELLED, REJECTED}
    case SUBMITTED => {ACCEPTED, PARTIALLY_FILLED, FILLED, CANCELLED, REJECTED, RECONCILIATION_REQUIRED}
    case ACCEPTED => {PARTIALLY_FILLED, FILLED, CANCELLED, REJECTED, RECONCILIATION_REQUIRED}
    case PARTIALLY_FILLED => {PARTIALLY_FILLED, FILLED, CANCELLED, RECONCILIATION_REQUIRED}
    case RECONCILIATION_REQUIRED => {ACCEPTED, PARTIALLY_FILLED, FILLED, CANCELLED, REJECTED}
    case FILLED => {}
    case CANCELLED => {}
    case REJECTED => {}
  }

  /** `effectiveDate` is a day number; the rest of the immutable intent is behind the content-addressed id. */
  datatype Command = Command(id: Id, effectiveDate: int)

  datatype CommandEvent = CommandEvent(command: Id, sequence: nat, previous: CommandState, state: CommandState,
      worker: Id)

  type History = seq<CommandEvent>

  function StateAfter(h: History): CommandState {
    if h == [] then QUEUED else h[|h| - 1].state
  }

  /** What reading a history checks: own events only, no gaps, each event leaving the state the last one entered. */
  predicate ValidHistory(command: Id, h: History) {
    forall i :: 0 <= i < |h| ==>
      && h[i].command == command && h[i].sequence == i + 1
      && h[i].previous == StateAfter(h[..i])
      && h[i].state in AllowedNext(h[i].previous)
  }

  /** The reading loop of the store. */
  method ReadEvents(command: Id, stored: History) returns (valid: bool)
    ensures valid == ValidHistory(command, stored)
  {
    var previous := QUEUED;
    for i := 0 to |stored|
      invariant previous == StateAfter(stored[..i])
      invariant forall k :: 0 <= k < i ==>
        && stored[k].command == command && stored[k].sequence == k + 1
        && stored[k].previous == StateAfter(stored[..k]) && stored[k].state in AllowedNext(stored[k].previous)
    {
      if stored[i].command != command || stored[i].sequence != i + 1 || stored[i].previous != previous
         || stored[i].state !in AllowedNext(stored[i].previous) {
        return false;
      }
      assert stored[..i + 1][i] == stored[i];
      previous := stored[i].state;
    }
    return true;
  }

  // ----- One append -----

  datatype Attempted =
    | Created(event: CommandEvent)
    | NothingCreated       // an expectation or the create itself was overtaken by another worker
    | InvalidTransition    // the table does not allow the step

  /** append_event: read `seen` events, check, then create the next sequence number of the real history. */
  function AppendTo(command: Id, h: History, seen: nat, next: CommandState, expected: Option<CommandState>,
                    worker: Id): Attempted
    requires seen <= |h|
  {
    var previous := StateAfter(h[..seen]);
    if expected.Some? && previous != expected.value then NothingCreated
    else if next !in AllowedNext(previous) then InvalidTransition
    else if seen < |h| then NothingCreated
    else Created(CommandEvent(command, seen + 1, previous, next, worker))
  }

  function HistoryAfter(h: History, a: Attempted): History {
    if a.Created? then h + [a.event] else h
  }

  // ----- Every concurrent run of workers on one command -----

  datatype Operation =
    | Claim(worker: Id, asOf: int, seen: nat)
    | Append(worker: Id, next: CommandState, expected: Option<CommandState>, seen: nat)

  /** `claims` collects the events that claim_due handed back to its callers. */
  datatype Shared = Shared(history: History, claims: seq<CommandEvent>)

  function Attempt(c: Command, s: Shared, op: Operation): Attempted {
    if op.seen > |s.history| then NothingCreated
    else match op
      case Claim(worker, asOf, seen) =>
        if asOf != c.effectiveDate then NothingCreated
        else AppendTo(c.id, s.history, seen, CLAIMED, Some(QUEUED), worker)
      case Append(worker, next, expected, seen) => AppendTo(c.id, s.history, seen, next, expected, worker)
  }

  function StepOn(c: Command, s: Shared, op: Operation): Shared {
    var a := Attempt(c, s, op);
    Shared(HistoryAfter(s.history, a), if op.Claim? && a.Created? then s.claims + [a.event] else s.claims)
  }

  function RunOn(c: Command, ops: seq<Operation>): Shared {
    if ops == [] then Shared([], [])
    else StepOn(c, RunOn(c, ops[..|ops| - 1]), ops[|ops| - 1])
  }

  lemma AppendKeepsValid(command: Id, h: History, e: CommandEvent)
    requires ValidHistory(command, h) && e.command == command && e.sequence == |h| + 1
    requires e.previous == StateAfter(h) && e.state in AllowedNext(e.previous)
    ensures ValidHistory(command, h + [e])
  {
    var g := h + [e];
    forall i | 0 <= i < |g|
      ensures g[i].previous == StateAfter(g[..i]) && g[i].command == command && g[i].sequence == i + 1
          && g[i].state in AllowedNext(g[i].previous)
    {
      if i < |h| {
        assert g[..i] == h[..i] && g[i] == h[i];
      } else {
        assert g[..i] == h;
      }
    }
  }

  /** An event that an operation creates continues the history it was created on. */
  lemma CreatedFits(c: Command, s: Shared, op: Operation)
    requires Attempt(c, s, op).Created?
    ensures
      var e := Attempt(c, s, op).event;
      && e.command == c.id && e.sequence == |s.history| + 1
      && e.previous == StateAfter(s.history) && e.state in AllowedNext(e.previous)
  {
    hide AllowedNext;
    assert s.history[..|s.history|] == s.history;
  }

  /** Every stored history, whatever the interleaving, is a gapless path from QUEUED through the table. */
  lemma {:induction false} EveryRunIsAPath(c: Command, ops: seq<Operation>)
    ensures ValidHistory(c.id, RunOn(c, ops).history)
    decreases |ops|
  {
    hide ValidHistory, Attempt, AllowedNext, StateAfter;
    if ops == [] {
      EmptyIsAPath(c.id);
    } else {
      var n := |ops| - 1;
      var before := RunOn(c, ops[..n]);
      EveryRunIsAPath(c, ops[..n]);
      if Attempt(c, before, ops[n]).Created? {
        CreatedFits(c, before, ops[n]);
        AppendKeepsValid(c.id, before.history, Attempt(c, before, ops[n]).event);
      }
    }
  }

  lemma EmptyIsAPath(command: Id)
    ensures ValidHistory(command, [])
  {
  }

  /** QUEUED is never entered again, so exactly the first event leaves it. */
  lemma OnlyFirstEventLeavesQueued(command: Id, h: History, i: nat)
    requires ValidHistory(command, h) && i < |h|
    ensures h[i].previous == QUEUED <==> i == 0
  {
    if i > 0 {
      EventFollows(command, h, i);
      EventFollows(command, h, i - 1);
    }
  }

  /** Each event leaves the state its predecessor entered, along the table. */
  lemma EventFollows(command: Id, h: History, i: nat)
    requires ValidHistory(command, h) && i < |h|
    ensures h[i].previous == (if i == 0 then QUEUED else h[i - 1].state) && h[i].state in AllowedNext(h[i].previous)
  {
    hide AllowedNext;
    if i > 0 {
      assert h[..i][i - 1] == h[i - 1];
    }
  }

  /** A history that goes on was claimed, and a third event needs a submission or a reconciliation before it. */
  lemma FirstTwoSteps(command: Id, h: History)
    requires ValidHistory(command, h) && |h| >= 2
    ensures h[0].state == CLAIMED
    ensures |h| >= 3 ==> h[1].state == SUBMITTED || h[1].state == RECONCILIATION_REQUIRED
  {
    EventFollows(command, h, 0);
    EventFollows(command, h, 1);
    if |h| >= 3 {
      EventFollows(command, h, 2);
    }
  }

  /**
   * The shape of every path: CLAIMED can only be first, SUBMITTED only second, nothing follows a terminal
   * state, and a history that reaches FILLED was claimed first and then submitted or sent to reconciliation.
   */
  lemma PathShape(command: Id, h: History, i: nat)
    requires ValidHistory(command, h) && i < |h|
    ensures h[i].state == CLAIMED ==> i == 0
    ensures h[i].state == SUBMITTED ==> i == 1 && h[0].state == CLAIMED
    ensures IsTerminal(h[i].state) ==> i == |h| - 1
    ensures h[i].state == FILLED ==>
        i >= 2 && h[0].state == CLAIMED && (h[1].state == SUBMITTED || h[1].state == RECONCILIATION_REQUIRED)
  {
    hide ValidHistory, AllowedNext, IsTerminal;
    OnlyFirstEventLeavesQueued(command, h, i);
    EventFollows(command, h, i);
    WhatLeadsInto(h[i].previous, h[i].state);
    if i > 0 {
      FirstTwoSteps(command, h);
      OnlyFirstEventLeavesQueued(command, h, i - 1);
      EventFollows(command, h, i - 1);
      WhatLeadsInto(h[i - 1].previous, h[i - 1].state);
    }
    if i + 1 < |h| {
      EventFollows(command, h, i + 1);
      WhatLeadsInto(h[i + 1].previous, h[i + 1].state);
    }
  }

  /** The table read backwards. */
  lemma WhatLeadsInto(before: CommandState, after: CommandState)
    requires after in AllowedNext(before)
    ensures after == CLAIMED ==> before == QUEUED
    ensures after == SUBMITTED ==> before == CLAIMED
    ensures after == FILLED ==> before != QUEUED && before != CLAIMED
    ensures !IsTerminal(before) && after != QUEUED
  {
  }

  /**
   * Exactly-once claim: over any concurrent run at most one claim call returns an event, and that event is the
   * first of the command's history.
   */
  lemma {:induction false} ClaimIsExactlyOnce(c: Command, ops: seq<Operation>)
    ensures |RunOn(c, ops).claims| <= 1
    ensures RunOn(c, ops).claims != [] ==>
        RunOn(c, ops).history != [] && RunOn(c, ops).claims[0] == RunOn(c, ops).history[0]
    ensures RunOn(c, ops).claims != [] ==> RunOn(c, ops).claims[0].state == CLAIMED
    decreases |ops|
  {
    if ops != [] {
      var n := |ops| - 1;
      var before := RunOn(c, ops[..n]);
      ClaimIsExactlyOnce(c, ops[..n]);
      EveryRunIsAPath(c, ops[..n]);
      var a := Attempt(c, before, ops[n]);
      if ops[n].Claim? && a.Created? {
        assert before.history[..|before.history|] == before.history;
        if before.history != [] {
          LaterStateIsNotQueued(c.id, before.history);
        }
      }
    }
  }

  lemma LaterStateIsNotQueued(command: Id, h: History)
    requires ValidHistory(command, h) && h != []
    ensures StateAfter(h) != QUEUED
  {
  }

  /** Histories are append-only, and the event an operation got back stays at its sequence number for good. */
  lemma {:induction false} CreatedEventsStay(c: Command, ops: seq<Operation>, longer: seq<Operation>)
    requires ops <= longer
    ensures RunOn(c, ops).history <= RunOn(c, longer).history
    ensures RunOn(c, ops).claims <= RunOn(c, longer).claims
    decreases |longer|
  {
    if |ops| == |longer| {
      assert ops == longer;
    } else {
      CreatedEventsStay(c, ops, longer[..|longer| - 1]);
    }
  }

  /** The claim is not only safe but available: due, queued and undisturbed, it always succeeds. */
  lemma DueClaimOnFreshCommandSucceeds(c: Command, ops: seq<Operation>, worker: Id)
    ensures Attempt(c, RunOn(c, ops), Claim(worker, c.effectiveDate, |RunOn(c, ops).history|)).Created?
            <==> RunOn(c, ops).history == []
  {
    EveryRunIsAPath(c, ops);
    var h := RunOn(c, ops).history;
    assert h[..|h|] == h;
    if h != [] {
      LaterStateIsNotQueued(c.id, h);
    }
  }

  lemma RunGoesOn(c: Command, ops: seq<Operation>, h: History, e: CommandEvent) returns (longer: seq<Operation>)
    requires RunOn(c, ops).history == h && e.command == c.id && e.sequence == |h| + 1
    requires e.previous == StateAfter(h) && e.state in AllowedNext(e.previous)
    ensures RunOn(c, longer).history == h + [e]
  {
    hide AllowedNext;
    longer := ops + [Append(e.worker, e.state, None, |h|)];
    assert longer[..|ops|] == ops && h[..|h|] == h;
  }

  lemma NothingIsRun(c: Command)
    ensures RunOn(c, []).history == []
  {
  }

  /** The last event goes on from the path before it. */
  lemma LastGoesOn(command: Id, h: History)
    requires h != [] && ValidHistory(command, h)
    ensures
      var n := |h| - 1;
      && h[n].command == command && h[n].sequence == n + 1
      && h[n].previous == StateAfter(h[..n]) && h[n].state in AllowedNext(h[n].previous)
  {
  }

  /** Every way through the table can be taken: the paths are exactly the histories that runs produce. */
  lemma {:induction false} EveryPathIsARun(c: Command, h: History) returns (ops: seq<Operation>)
    requires ValidHistory(c.id, h)
    ensures RunOn(c, ops).history == h
    decreases |h|
  {
    hide ValidHistory, AllowedNext, RunOn, StateAfter, Attempt, HistoryAfter;
    if h == [] {
      ops := [];
      NothingIsRun(c);
    } else {
      var n := |h| - 1;
      PrefixIsAPath(c.id, h);
      LastGoesOn(c.id, h);
      var before := EveryPathIsARun(c, h[..n]);
      ops := RunGoesOn(c, before, h[..n], h[n]);
      assert h == h[..n] + [h[n]];
    }
  }

  lemma PrefixIsAPath(command: Id, h: History)
    requires h != [] && ValidHistory(command, h)
    ensures ValidHistory(command, h[..|h| - 1])
  {
    var g := h[..|h| - 1];
    forall i | 0 <= i < |g|
      ensures g[i].command == command && g[i].sequence == i + 1 && g[i].previous == StateAfter(g[..i])
      ensures g[i].state in AllowedNext(g[i].previous)
    {
      assert g[..i] == h[..i] && g[i] == h[i];
    }
  }

  /** A history has ended exactly when no operation of any worker can add to it. */
  lemma EndedExactly(c: Command, ops: seq<Operation>)
    ensures
      var s := RunOn(c, ops);
      IsTerminal(StateAfter(s.history)) <==> forall op :: !Attempt(c, s, op).Created?
  {
    var s := RunOn(c, ops);
    assert s.history[..|s.history|] == s.history;
    var now := StateAfter(s.history);
    if IsTerminal(now) {
      forall op
        ensures !Attempt(c, s, op).Created?
      {
        if Attempt(c, s, op).Created? {
          CreatedFits(c, s, op);
        }
      }
    } else {
      var next :| next in AllowedNext(now);
      assert Attempt(c, s, Append(0, next, None, |s.history|)).Created?;
    }
  }

  // ----- The store object -----

  datatype RecoveryEntry = RecoveryEntry(command: Id, effectiveDate: int, state: CommandState, ageDays: int)

  predicate Before(a: Command, b: Command) {
    a.effectiveDate < b.effectiveDate || (a.effectiveDate == b.effectiveDate && a.id < b.id)
  }

  predicate StrictlySorted(cs: seq<Command>) {
    forall i, j :: 0 <= i < j < |cs| ==> Before(cs[i], cs[j])
  }

  /** Where a command goes in a list ordered by date and id. */
  method SortedInsert(cs: seq<Command>, c: Command) returns (r: seq<Command>)
    requires StrictlySorted(cs) && forall i :: 0 <= i < |cs| ==> cs[i].id != c.id
    ensures StrictlySorted(r) && |r| == |cs| + 1
    ensures forall x :: x in r <==> x in cs || x == c
  {
    var i := 0;
    while i < |cs| && Before(cs[i], c)
      invariant 0 <= i <= |cs| && forall k :: 0 <= k < i ==> Before(cs[k], c)
    {
      i := i + 1;
    }
    r := cs[..i] + [c] + cs[i..];
    assert forall x :: x in cs <==> x in cs[..i] || x in cs[i..];
  }

  class ExecutionCommandStore {
    var commands: map<Id, Command>
    var histories: map<Id, History>

    ghost predicate Valid()
      reads this
    {
      && commands.Keys == histories.Keys
      && forall k {:trigger commands[k]} :: k in commands ==> commands[k].id == k && ValidHistory(k, histories[k])
    }

    constructor ()
      ensures Valid() && commands == map[]
    {
      commands, histories := map[], map[];
    }

    /** enqueue: creates the command once; a second enqueue changes nothing. */
    method Enqueue(c: Command) returns (created: bool)
      requires Valid()
      modifies this
      ensures Valid()
      ensures created == (c.id !in old(commands))
      ensures commands == if created then old(commands)[c.id := c] else old(commands)
      ensures histories == if created then old(histories)[c.id := []] else old(histories)
    {
      created := c.id !in commands;
      if created {
        commands := commands[c.id := c];
        histories := histories[c.id := []];
      }
    }

    function CurrentState(id: Id): CommandState
      requires id in histories
      reads this
    {
      StateAfter(histories[id])
    }

    /** append_event against the stored history, after a read that returned its first `seen` events. */
    method AppendEvent(id: Id, next: CommandState, expected: Option<CommandState>, worker: Id, seen: nat)
      returns (a: Attempted)
      requires Valid() && id in commands && seen <= |histories[id]|
      modifies this`histories
      ensures Valid()
      ensures a == AppendTo(id, old(histories[id]), seen, next, expected, worker)
      ensures histories == old(histories)[id := HistoryAfter(old(histories[id]), a)]
    {
      var h := histories[id];
      assert commands[id].id == id;
      var prior := h[..seen];
      var previous := StateAfter(prior);
      if expected.Some? && previous != expected.value {
        a := NothingCreated;
      } else if next !in AllowedNext(previous) {
        a := InvalidTransition;
      } else {
        var event := CommandEvent(id, |prior| + 1, previous, next, worker);
        if |h| >= event.sequence {
          a := NothingCreated;
        } else {
          a := Created(event);
          assert h[..seen] == h;
          AppendKeepsValid(id, h, event);
          histories := histories[id := h + [event]];
        }
      }
      assert a.Created? || histories == histories[id := h];
    }

    /** claim_due: only on the effective date, only from QUEUED. */
    method ClaimDue(id: Id, asOf: int, worker: Id, seen: nat) returns (a: Attempted)
      requires Valid() && id in commands && seen <= |histories[id]|
      modifies this`histories
      ensures Valid()
      ensures a == Attempt(commands[id], Shared(old(histories[id]), []), Claim(worker, asOf, seen))
      ensures histories == old(histories)[id := HistoryAfter(old(histories[id]), a)]
    {
      assert commands[id].id == id;
      if asOf != commands[id].effectiveDate {
        a := NothingCreated;
        assert histories == histories[id := histories[id]];
      } else {
        a := AppendEvent(id, CLAIMED, Some(QUEUED), worker, seen);
      }
    }

    /** list_unresolved: exactly the commands whose history has not ended, by date and id. */
    method ListUnresolved() returns (cs: seq<Command>)
      requires Valid()
      ensures StrictlySorted(cs)
      ensures forall i, j :: 0 <= i < j < |cs| ==>
          cs[i].effectiveDate <= cs[j].effectiveDate
          && (cs[i].effectiveDate == cs[j].effectiveDate ==> cs[i].id < cs[j].id)
      ensures forall c :: c in cs <==> c.id in commands && commands[c.id] == c && !IsTerminal(CurrentState(c.id))
    {
      cs := [];
      var left := commands.Keys;
      while left != {}
        invariant left <= commands.Keys && StrictlySorted(cs)
        invariant forall c :: c in cs <==>
          c.id in commands && c.id !in left && commands[c.id] == c && !IsTerminal(CurrentState(c.id))
        decreases left
      {
        var id :| id in left;
        assert commands[id].id == id;
        left := left - {id};
        if !IsTerminal(CurrentState(id)) {
          cs := SortedInsert(cs, commands[id]);
        }
      }
    }

    /** build_recovery_report: exactly the unresolved commands due by the date, in order, with their age. */
    method BuildRecoveryReport(asOf: int) returns (entries: seq<RecoveryEntry>)
      requires Valid()
      ensures forall i, j :: 0 <= i < j < |entries| ==>
          entries[i].effectiveDate <= entries[j].effectiveDate
          && (entries[i].effectiveDate == entries[j].effectiveDate ==> entries[i].command < entries[j].command)
      ensures forall e :: e in entries <==>
        && e.command in commands && !IsTerminal(CurrentState(e.command)) && e.state == CurrentState(e.command)
        && e.effectiveDate == commands[e.command].effectiveDate && e.ageDays == asOf - e.effectiveDate >= 0
    {
      entries := [];
      var cs := ListUnresolved();
      for n := 0 to |cs|
        invariant entries == DueEntries(cs[..n], histories, asOf)
      {
        assert cs[..n + 1][..n] == cs[..n];
        if cs[n].effectiveDate <= asOf {
          entries := entries + [EntryFor(cs[n], histories, asOf)];
        }
      }
      assert cs[..|cs|] == cs;
      DueEntriesAreOrdered(cs, histories, asOf);
      forall e
        ensures e in entries <==>
          && e.command in commands && !IsTerminal(CurrentState(e.command)) && e.state == CurrentState(e.command)
          && e.effectiveDate == commands[e.command].effectiveDate && e.ageDays == asOf - e.effectiveDate >= 0
      {
        DueEntriesMembers(cs, histories, asOf, e);
        if e.command in commands {
          assert commands[e.command].id == e.command;
          assert commands[e.command] in cs <==> !IsTerminal(CurrentState(e.command));
        }
      }
    }
  }

  function EntryFor(c: Command, histories: map<Id, History>, asOf: int): RecoveryEntry {
    var state := if c.id in histories then StateAfter(histories[c.id]) else QUEUED;
    RecoveryEntry(c.id, c.effectiveDate, state, asOf - c.effectiveDate)
  }

  function DueEntries(cs: seq<Command>, histories: map<Id, History>, asOf: int): seq<RecoveryEntry> {
    if cs == [] then []
    else
      var before := DueEntries(cs[..|cs| - 1], histories, asOf);
      var c := cs[|cs| - 1];
      if c.effectiveDate <= asOf then before + [EntryFor(c, histories, asOf)] else before
  }

  predicate OrderedEntries(es: seq<RecoveryEntry>) {
    forall i, j :: 0 <= i < j < |es| ==>
      Before(Command(es[i].command, es[i].effectiveDate), Command(es[j].command, es[j].effectiveDate))
  }

  lemma {:induction false} DueEntriesMembers(cs: seq<Command>, histories: map<Id, History>, asOf: int, e: RecoveryEntry)
    ensures e in DueEntries(cs, histories, asOf) <==>
              Command(e.command, e.effectiveDate) in cs && e.effectiveDate <= asOf
              && e == EntryFor(Command(e.command, e.effectiveDate), histories, asOf)
    decreases |cs|
  {
    if cs != [] {
      var n := |cs| - 1;
      DueEntriesMembers(cs[..n], histories, asOf, e);
      assert cs == cs[..n] + [cs[n]];
    }
  }

  lemma {:induction false} DueEntriesAreOrdered(cs: seq<Command>, histories: map<Id, History>, asOf: int)
    requires StrictlySorted(cs)
    ensures OrderedEntries(DueEntries(cs, histories, asOf))
    decreases |cs|
  {
    if cs != [] {
      var n := |cs| - 1;
      var before := DueEntries(cs[..n], histories, asOf);
      DueEntriesAreOrdered(cs[..n], histories, asOf);
      forall i | 0 <= i < |before|
        ensures Before(Command(before[i].command, before[i].effectiveDate), cs[n])
      {
        DueEntriesMembers(cs[..n], histories, asOf, before[i]);
        var k :| 0 <= k < n && cs[k] == Command(before[i].command, before[i].effectiveDate);
      }
    }
  }
}
