/**
  Automation claims: any number of scheduler processes over one table of automation runs.

  The synchronous sections of the scheduler between two awaits are single actions: the claim, a heartbeat, a
  failed attempt that is retried, and the two completions. Any process may act at any time. Rows are numbered
  by position; wall clock readings are arbitrary.
 */
module Automation {
  import opened Common

  datatype Status = Running | Succeeded | Failed

  datatype Row = Row(
    automation: Id,
    status: Status,
    started: nat,
    completed: Option<nat>,
    error: Option<string>,
    attempt: nat,
    token: nat,
    lease: nat)

  /** One call of `run` that got its claim; `open` until it completes. */
  datatype Flight = Flight(process: Id, automation: Id, run: Id, token: nat, attempt: nat, maxRetries: nat, open: bool)

  datatype State = State(rows: seq<Row>, flights: seq<Flight>, busy: set<(Id, Id)>, nextToken: nat)

  datatype Action =
    | Start(process: Id, automation: Id, allow: bool, startedAt: nat, lease: nat, maxRetries: nat)
    | Beat(flight: nat, nextLease: nat)
    | Retry(flight: nat)
    | Succeed(flight: nat, at: nat)
    | Fail(flight: nat, at: nat, message: string)
    | Crash(process: Id)

  // ----- the statements ----------------------------------------------------------------------

  const EXPIRED := "Lease expired before recovery"

  predicate RunsFor(row: Row, automation: Id) {
    row.status.Running? && row.automation == automation
  }

  predicate Blocked(rows: seq<Row>, automation: Id, startedAt: nat) {
    exists i | 0 <= i < |rows| :: RunsFor(rows[i], automation) && rows[i].lease > startedAt
  }

  function Superseded(row: Row, startedAt: nat): Row {
    row.(status := Failed, completed := Some(startedAt), error := Some(EXPIRED))
  }

  function Supersede(rows: seq<Row>, automation: Id, startedAt: nat): (after: seq<Row>)
    ensures |after| == |rows|
  {
    seq(|rows|, i requires 0 <= i < |rows| =>
      if RunsFor(rows[i], automation) && rows[i].lease <= startedAt then Superseded(rows[i], startedAt) else rows[i])
  }

  /** The claim transaction: None when another live run blocks it. */
  function Acquire(rows: seq<Row>, automation: Id, allow: bool, startedAt: nat, token: nat, lease: nat): Option<seq<Row>> {
    var row := Row(automation, Running, startedAt, None, None, 1, token, lease);
    if allow then Some(rows + [row])
    else if Blocked(rows, automation, startedAt) then None
    else Some(Supersede(rows, automation, startedAt) + [row])
  }

  function Heartbeat(rows: seq<Row>, run: Id, token: nat, nextLease: nat): seq<Row> {
    if run < |rows| && rows[run].token == token && rows[run].status.Running?
    then rows[run := rows[run].(lease := nextLease)]
    else rows
  }

  function SetAttempt(rows: seq<Row>, run: Id, token: nat, attempt: nat): seq<Row> {
    if run < |rows| && rows[run].token == token then rows[run := rows[run].(attempt := attempt)] else rows
  }

  /** Success names the run and the token, but not the status. */
  function CompleteOk(rows: seq<Row>, run: Id, token: nat, at: nat): seq<Row> {
    if run < |rows| && rows[run].token == token
    then rows[run := rows[run].(status := Succeeded, completed := Some(at))]
    else rows
  }

  /** Failure names the run only. */
  function CompleteFailed(rows: seq<Row>, run: Id, at: nat, message: string): seq<Row> {
    if run < |rows| then rows[run := rows[run].(status := Failed, completed := Some(at), error := Some(message))] else rows
  }

  // ----- the processes -----------------------------------------------------------------------

  function Close(s: State, i: nat, rows: seq<Row>): State
    requires i < |s.flights|
  {
    var f := s.flights[i];
    s.(rows := rows, flights := s.flights[i := f.(open := false)], busy := s.busy - {(f.process, f.automation)})
  }

  function Begin(s: State, a: Action): State
    requires a.Start?
  {
    if (a.process, a.automation) in s.busy && !a.allow then s
    else
      var claimed := Acquire(s.rows, a.automation, a.allow, a.startedAt, s.nextToken, a.lease);
      if claimed.None? then s.(busy := s.busy - {(a.process, a.automation)}, nextToken := s.nextToken + 1)
      else
        var f := Flight(a.process, a.automation, |s.rows|, s.nextToken, 0, a.maxRetries, true);
        State(claimed.value, s.flights + [f], s.busy + {(a.process, a.automation)}, s.nextToken + 1)
  }

  predicate InFlight(s: State, i: nat) {
    i < |s.flights| && s.flights[i].open
  }

  /** A process dies: its flights never write again and its memory is gone; the rows stay. */
  function Lost(s: State, process: Id): State {
    s.(flights := seq(|s.flights|, i requires 0 <= i < |s.flights| =>
         if s.flights[i].process == process then s.flights[i].(open := false) else s.flights[i]),
       busy := set p | p in s.busy && p.0 != process)
  }

  function Step(s: State, a: Action): State {
    match a
    case Start(_, _, _, _, _, _) => Begin(s, a)
    case Beat(i, nextLease) =>
      if InFlight(s, i) then s.(rows := Heartbeat(s.rows, s.flights[i].run, s.flights[i].token, nextLease)) else s
    case Retry(i) =>
      if InFlight(s, i) && s.flights[i].attempt < s.flights[i].maxRetries then
        var f := s.flights[i].(attempt := s.flights[i].attempt + 1);
        s.(flights := s.flights[i := f], rows := SetAttempt(s.rows, f.run, f.token, f.attempt + 1))
      else s
    case Succeed(i, at) =>
      if InFlight(s, i) then Close(s, i, CompleteOk(s.rows, s.flights[i].run, s.flights[i].token, at)) else s
    case Fail(i, at, message) =>
      if InFlight(s, i) && s.flights[i].attempt >= s.flights[i].maxRetries
      then Close(s, i, CompleteFailed(s.rows, s.flights[i].run, at, message)) else s
    case Crash(process) => Lost(s, process)
  }

  const IDLE := State([], [], {}, 0)

  function Run(s: State, actions: seq<Action>): State
    decreases |actions|
  {
    if actions == [] then s else Run(Step(s, actions[0]), actions[1..])
  }

  // ----- the invariant -----------------------------------------------------------------------

  /** Every flight names its own row, by position and by token. */
  ghost predicate Linked(s: State) {
    && (forall i :: 0 <= i < |s.flights| ==> OwnsRow(s, s.flights[i]))
    && (forall i, j :: 0 <= i < |s.flights| && 0 <= j < |s.flights| && i != j ==> s.flights[i].run != s.flights[j].run)
  }

  ghost predicate OwnsRow(s: State, f: Flight) {
    && f.run < |s.rows|
    && s.rows[f.run].token == f.token
    && s.rows[f.run].automation == f.automation
    && s.rows[f.run].attempt == f.attempt + 1
    && f.attempt <= f.maxRetries
  }

  /** No two rows carry the same token, and none carries the next one. */
  ghost predicate TokensDiffer(s: State) {
    && (forall i :: 0 <= i < |s.rows| ==> s.rows[i].token < s.nextToken)
    && (forall i, j :: 0 <= i < j < |s.rows| ==> s.rows[i].token != s.rows[j].token)
  }

  ghost predicate AtMostOneRunning(rows: seq<Row>, automation: Id) {
    forall i, j :: 0 <= i < |rows| && 0 <= j < |rows| && RunsFor(rows[i], automation) && RunsFor(rows[j], automation) ==> i == j
  }

  lemma {:induction false} StepKeepsLinked(s: State, a: Action)
    requires Linked(s)
    ensures Linked(Step(s, a))
  {
  }

  lemma {:induction false} StepKeepsOneRunning(s: State, a: Action, automation: Id)
    requires AtMostOneRunning(s.rows, automation)
    requires a.Start? && a.automation == automation ==> !a.allow
    ensures AtMostOneRunning(Step(s, a).rows, automation)
  {
  }

  ghost predicate NeverOverlaps(actions: seq<Action>, automation: Id) {
    forall k :: 0 <= k < |actions| && actions[k].Start? && actions[k].automation == automation ==> !actions[k].allow
  }

  /** Mutual exclusion: over every interleaving of every process, one running row per automation at most. */
  lemma {:induction false} OneRunningRow(s: State, actions: seq<Action>, automation: Id)
    requires AtMostOneRunning(s.rows, automation) && NeverOverlaps(actions, automation)
    ensures AtMostOneRunning(Run(s, actions).rows, automation)
    decreases |actions|
  {
    if actions != [] {
      StepKeepsOneRunning(s, actions[0], automation);
      OneRunningRow(Step(s, actions[0]), actions[1..], automation);
    }
  }

  lemma {:induction false} StepKeepsTokens(s: State, a: Action)
    requires TokensDiffer(s)
    ensures TokensDiffer(Step(s, a))
  {
  }

  /** The whole invariant holds from the start, for every run. */
  lemma {:induction false} RunKeepsLinked(s: State, actions: seq<Action>)
    requires Linked(s) && TokensDiffer(s)
    ensures Linked(Run(s, actions)) && TokensDiffer(Run(s, actions))
    decreases |actions|
  {
    if actions != [] {
      StepKeepsLinked(s, actions[0]);
      StepKeepsTokens(s, actions[0]);
      RunKeepsLinked(Step(s, actions[0]), actions[1..]);
    }
  }

  // ----- one flight per process --------------------------------------------------------------

  ghost predicate Flies(f: Flight, process: Id, automation: Id) {
    f.open && f.process == process && f.automation == automation
  }

  /** The process's memory of what it runs is exact, and it runs an automation once at most. */
  ghost predicate BusyIsExact(s: State, process: Id, automation: Id) {
    && ((process, automation) in s.busy <==> exists i :: 0 <= i < |s.flights| && Flies(s.flights[i], process, automation))
    && (forall i, j | 0 <= i < |s.flights| && 0 <= j < |s.flights| ::
          Flies(s.flights[i], process, automation) && Flies(s.flights[j], process, automation) ==> i == j)
  }

  lemma {:induction false} StepKeepsBusy(s: State, a: Action, process: Id, automation: Id)
    requires BusyIsExact(s, process, automation)
    requires a.Start? && a.automation == automation ==> !a.allow
    ensures BusyIsExact(Step(s, a), process, automation)
  {
    var t := Step(s, a);
    if i :| 0 <= i < |s.flights| && Flies(s.flights[i], process, automation) && i < |t.flights| && t.flights[i].open {
      assert Flies(t.flights[i], process, automation);
    }
    if a.Start? && |t.flights| > |s.flights| {
      assert t.flights[|s.flights|].open;
    }
  }

  lemma {:induction false} OneFlightPerProcess(s: State, actions: seq<Action>, process: Id, automation: Id)
    requires BusyIsExact(s, process, automation) && NeverOverlaps(actions, automation)
    ensures BusyIsExact(Run(s, actions), process, automation)
    decreases |actions|
  {
    if actions != [] {
      StepKeepsBusy(s, actions[0], process, automation);
      OneFlightPerProcess(Step(s, actions[0]), actions[1..], process, automation);
    }
  }

  /** From an empty table, over every run in which the automation is never started with overlap allowed. */
  lemma {:induction false} Exclusion(actions: seq<Action>, automation: Id, process: Id)
    requires NeverOverlaps(actions, automation)
    ensures var s := Run(IDLE, actions);
      Linked(s) && TokensDiffer(s) && AtMostOneRunning(s.rows, automation) && BusyIsExact(s, process, automation)
  {
    RunKeepsLinked(IDLE, actions);
    OneRunningRow(IDLE, actions, automation);
    OneFlightPerProcess(IDLE, actions, process, automation);
  }

  // ----- what one action does ----------------------------------------------------------------

  /** Some run of the automation is running with a lease beyond that instant. */
  ghost predicate HeldAt(rows: seq<Row>, automation: Id, startedAt: nat) {
    exists i :: 0 <= i < |rows| && rows[i].status.Running? && rows[i].automation == automation && rows[i].lease > startedAt
  }

  /** One running row has joined the table; unless overlap is allowed, the automation's running rows have failed. */
  ghost predicate Joined(was: seq<Row>, rows: seq<Row>, automation: Id, allow: bool, startedAt: nat, token: nat, lease: nat) {
    && |rows| == |was| + 1
    && rows[|was|] == Row(automation, Running, startedAt, None, None, 1, token, lease)
    && forall i :: 0 <= i < |was| ==>
         rows[i] == if !allow && was[i].status.Running? && was[i].automation == automation
                    then was[i].(status := Failed, completed := Some(startedAt), error := Some("Lease expired before recovery"))
                    else was[i]
  }

  /** A newcomer starts exactly when every running row of the automation has expired at its start time. */
  lemma {:induction false} StartsExactlyWhenExpired(s: State, a: Action)
    requires a.Start? && ((a.process, a.automation) in s.busy ==> a.allow)
    ensures var t, pair := Step(s, a), (a.process, a.automation);
      if !a.allow && HeldAt(s.rows, a.automation, a.startedAt) then
        t.rows == s.rows && t.busy == s.busy && t.flights == s.flights
      else
        && Joined(s.rows, t.rows, a.automation, a.allow, a.startedAt, s.nextToken, a.lease)
        && t.busy == s.busy + {pair}
        && t.flights == s.flights + [Flight(a.process, a.automation, |s.rows|, s.nextToken, 0, a.maxRetries, true)]
  {
  }

  /** The heartbeat of a run that no longer runs changes nothing at all; that of a running one its lease and no more. */
  lemma {:induction false} StaleHeartbeatIsIdle(s: State, i: nat, nextLease: nat)
    requires Linked(s) && InFlight(s, i)
    ensures var run := s.flights[i].run;
      Step(s, Beat(i, nextLease)) ==
        if !s.rows[run].status.Running? then s else s.(rows := s.rows[run := s.rows[run].(lease := nextLease)])
  {
  }

  predicate Completes(a: Action) {
    a.Succeed? || a.Fail?
  }

  /** A completion writes its own row, whatever its status has become, and no other row. */
  lemma {:induction false} CompletionTouchesOwnRow(s: State, a: Action)
    requires Linked(s) && Completes(a) && InFlight(s, a.flight)
    requires a.Fail? ==> s.flights[a.flight].attempt >= s.flights[a.flight].maxRetries
    ensures var run := s.flights[a.flight].run;
      && |Step(s, a).rows| == |s.rows|
      && (forall i :: 0 <= i < |s.rows| && i != run ==> Step(s, a).rows[i] == s.rows[i])
      && Step(s, a).rows[run] == if a.Succeed? then s.rows[run].(status := Succeeded, completed := Some(a.at))
                                 else s.rows[run].(status := Failed, completed := Some(a.at), error := Some(a.message))
  {
  }

  /** So a superseded run that still finishes reads as succeeded, with the error of its supersession left in place. */
  lemma {:induction false} SupersededRunMayReadSucceeded(s: State, i: nat, startedAt: nat, at: nat)
    requires Linked(s) && InFlight(s, i)
    requires s.rows[s.flights[i].run].status.Failed? && s.rows[s.flights[i].run].completed == Some(startedAt)
    requires s.rows[s.flights[i].run].error == Some("Lease expired before recovery")
    ensures var row := Step(s, Succeed(i, at)).rows[s.flights[i].run];
      row.status.Succeeded? && row.error == Some("Lease expired before recovery") && row.completed == Some(at)
  {
  }

  /** It happens: a process whose lease ran out is superseded by another one and then finishes. */
  lemma {:induction false} SupersededRunSucceeds(slow: Id, quick: Id, automation: Id, lease: nat, later: nat, at: nat)
    requires slow != quick
    ensures var s := Run(IDLE, [
        Start(slow, automation, false, 0, lease, 0), Start(quick, automation, false, lease, later, 0), Succeed(0, at)]);
      && |s.rows| == 2 && s.rows[0].status.Succeeded? && s.rows[0].completed == Some(at)
      && s.rows[0].error == Some("Lease expired before recovery")
      && s.rows[1].status.Running?
  {
    var a, b, c := Start(slow, automation, false, 0, lease, 0), Start(quick, automation, false, lease, later, 0), Succeed(0, at);
    RunThree(IDLE, a, b, c);
    var s := Step(IDLE, a);
    assert s.rows[0] == Row(automation, Running, 0, None, None, 1, 0, lease);
    assert s.flights == [Flight(slow, automation, 0, 0, 0, 0, true)] && s.busy == {(slow, automation)};
    StartsExactlyWhenExpired(s, b);
    assert InFlight(Step(s, b), 0);
    StepKeepsLinked(IDLE, a);
    StepKeepsLinked(s, b);
    SupersededRunMayReadSucceeded(Step(s, b), 0, lease, at);
  }

  lemma {:induction false} RunThree(s: State, a: Action, b: Action, c: Action)
    ensures Run(s, [a, b, c]) == Step(Step(Step(s, a), b), c)
  {
    assert [a, b, c][1..] == [b, c] && [b, c][1..] == [c] && [c][1..] == [];
    assert Run(Step(s, a), [b, c]) == Run(Step(Step(s, a), b), [c]);
  }

  // ----- over time ---------------------------------------------------------------------------

  lemma {:induction false} StepNeverRevives(s: State, a: Action, i: nat)
    requires i < |s.rows| && !s.rows[i].status.Running?
    ensures i < |Step(s, a).rows| && !Step(s, a).rows[i].status.Running?
  {
  }

  /** A row that has stopped running never runs again, whatever its superseded holder still does. */
  lemma {:induction false} NeverRunsAgain(s: State, actions: seq<Action>, i: nat)
    requires i < |s.rows| && !s.rows[i].status.Running?
    ensures i < |Run(s, actions).rows| && !Run(s, actions).rows[i].status.Running?
    decreases |actions|
  {
    if actions != [] {
      StepNeverRevives(s, actions[0], i);
      NeverRunsAgain(Step(s, actions[0]), actions[1..], i);
    }
  }

  /** Nobody flies for row `i` any more. */
  ghost predicate Abandoned(s: State, i: nat) {
    i < |s.rows| && forall k :: 0 <= k < |s.flights| && s.flights[k].open ==> s.flights[k].run != i
  }

  lemma {:induction false} StepKeepsSettled(s: State, a: Action, i: nat)
    requires Linked(s) && Abandoned(s, i) && !s.rows[i].status.Running?
    ensures Abandoned(Step(s, a), i) && Step(s, a).rows[i] == s.rows[i]
  {
  }

  /** A completed run's row is final. */
  lemma {:induction false} CompletedIsFinal(s: State, actions: seq<Action>, i: nat)
    requires Linked(s) && Abandoned(s, i) && !s.rows[i].status.Running?
    ensures i < |Run(s, actions).rows| && Run(s, actions).rows[i] == s.rows[i]
    decreases |actions|
  {
    if actions != [] {
      StepKeepsSettled(s, actions[0], i);
      StepKeepsLinked(s, actions[0]);
      CompletedIsFinal(Step(s, actions[0]), actions[1..], i);
    }
  }

  /** The action neither completes run `i` nor starts its automation at a time when its lease is over. */
  predicate Spares(s: State, i: nat, a: Action)
    requires i < |s.rows|
  {
    && (Completes(a) && a.flight < |s.flights| ==> s.flights[a.flight].run != i)
    && (a.Start? && a.automation == s.rows[i].automation && !a.allow ==> a.startedAt < s.rows[i].lease)
  }

  predicate SparesAll(s: State, i: nat, actions: seq<Action>)
    decreases |actions|
  {
    actions == [] || (i < |s.rows| && Spares(s, i, actions[0]) && SparesAll(Step(s, actions[0]), i, actions[1..]))
  }

  lemma {:induction false} SparedStep(s: State, a: Action, i: nat)
    requires i < |s.rows| && s.rows[i].status.Running? && Spares(s, i, a)
    ensures i < |Step(s, a).rows| && RunsFor(Step(s, a).rows[i], s.rows[i].automation)
  {
  }

  /** A holder that keeps its lease ahead of every newcomer's clock keeps its claim, and newcomers are turned away. */
  lemma {:induction false} HolderKeepsClaim(s: State, actions: seq<Action>, i: nat, newcomer: Action)
    requires i < |s.rows| && s.rows[i].status.Running? && SparesAll(s, i, actions)
    requires newcomer.Start? && !newcomer.allow && newcomer.automation == s.rows[i].automation
    ensures var later := Run(s, actions);
      && i < |later.rows| && RunsFor(later.rows[i], s.rows[i].automation)
      && (newcomer.startedAt < later.rows[i].lease ==> Step(later, newcomer).rows == later.rows)
    decreases |actions|
  {
    if actions != [] {
      SparedStep(s, actions[0], i);
      HolderKeepsClaim(Step(s, actions[0]), actions[1..], i, newcomer);
    }
  }

  // ----- one flight from take-off to landing -------------------------------------------------

  /** `k` retries of flight `i`, then its completion. */
  function Flown(i: nat, k: nat, last: Action): seq<Action> {
    if k == 0 then [last] else [Retry(i)] + Flown(i, k - 1, last)
  }

  predicate Lands(f: Flight, i: nat, k: nat, last: Action) {
    && f.attempt + k <= f.maxRetries
    && ((last.Succeed? && last.flight == i) || (last.Fail? && last.flight == i && f.attempt + k == f.maxRetries))
  }

  function Landed(row: Row, last: Action): Row {
    match last
    case Succeed(_, at) => row.(status := Succeeded, completed := Some(at))
    case Fail(_, at, message) => row.(status := Failed, completed := Some(at), error := Some(message))
    case _ => row
  }

  lemma {:induction false} FlightRuns(s: State, i: nat, k: nat, last: Action)
    requires InFlight(s, i) && OwnsRow(s, s.flights[i]) && Lands(s.flights[i], i, k, last)
    ensures var f, t := s.flights[i], Run(s, Flown(i, k, last));
      && t.rows == s.rows[f.run := Landed(s.rows[f.run].(attempt := f.attempt + k + 1), last)]
      && t.busy == s.busy - {(f.process, f.automation)}
    decreases k
  {
    if k == 0 {
      assert [last][1..] == [];
    } else {
      var actions := Flown(i, k, last);
      assert actions[0] == Retry(i) && actions[1..] == Flown(i, k - 1, last);
      FlightRuns(Step(s, Retry(i)), i, k - 1, last);
    }
  }

  predicate Starts(a: Action, automation: Id, allow: bool, startedAt: nat, lease: nat) {
    a.Start? && a.automation == automation && a.allow == allow && a.startedAt == startedAt && a.lease == lease
  }

  /** Flight `i` has just taken off with this row. */
  ghost predicate Takes(s: State, i: nat, process: Id, automation: Id, run: Id, token: nat, maxRetries: int) {
    && Holds(s, i, run, token) && OwnsRow(s, s.flights[i])
    && s.flights[i].process == process && s.flights[i].automation == automation
    && s.flights[i].attempt == 0 && s.flights[i].maxRetries == (if maxRetries > 0 then maxRetries else 0)
  }

  /** Flight `i` is open and names this row by position and token. */
  predicate Holds(s: State, i: nat, run: Id, token: nat) {
    InFlight(s, i) && s.flights[i].run == run && s.flights[i].token == token
  }

  function Landing(i: nat, at: nat, outcome: Option<string>): Action {
    if outcome.None? then Succeed(i, at) else Fail(i, at, outcome.value)
  }

  // ----- the scheduler -----------------------------------------------------------------------

  class RunTable {
    var rows: seq<Row>

    constructor ()
      ensures rows == []
    {
      rows := [];
    }
  }

  /** Math.max(30, timeoutSeconds ?? 300) * 1000. */
  function LeaseLife(timeoutSeconds: Option<int>): (life: nat)
    ensures timeoutSeconds.None? ==> life == 300_000
    ensures timeoutSeconds.Some? && timeoutSeconds.value < 30 ==> life == 30_000
    ensures timeoutSeconds.Some? && timeoutSeconds.value >= 30 ==> life == 1000 * timeoutSeconds.value
  {
    var seconds := if timeoutSeconds.Some? then timeoutSeconds.value else 300;
    (if seconds > 30 then seconds else 30) * 1000
  }

  datatype Begun = SkippedBusy | SkippedOwned | Began(run: Id)

  class Scheduler {
    const table: RunTable
    var running: set<Id>

    constructor (table: RunTable)
      ensures this.table == table && running == {}
    {
      this.table := table;
      running := {};
    }

    /** The table and this process's memory are those of the state. */
    ghost predicate Mirrors(s: State, process: Id)
      reads this, table
    {
      table.rows == s.rows && forall a :: a in running <==> (process, a) in s.busy
    }

    /** `run` up to its first await; `wall` is the second clock reading, for the lease. */
    method Begin(automation: Id, allow: bool, timeoutSeconds: Option<int>, startedAt: nat, wall: nat, token: nat)
        returns (begun: Begun)
      modifies this, table
      ensures begun.SkippedBusy? <==> automation in old(running) && !allow
      ensures begun.SkippedBusy? ==> running == old(running) && table.rows == old(table.rows)
      ensures !begun.SkippedBusy? ==>
        var claimed := Acquire(old(table.rows), automation, allow, startedAt, token, wall + LeaseLife(timeoutSeconds));
        && begun == (if claimed.Some? then Began(|old(table.rows)|) else SkippedOwned)
        && table.rows == (if claimed.Some? then claimed.value else old(table.rows))
        && running == (if claimed.Some? then old(running) + {automation} else old(running) - {automation})
      ensures begun.SkippedOwned? <==>
        !begun.SkippedBusy? && !allow && HeldAt(old(table.rows), automation, startedAt)
      ensures begun.Began? ==>
        && begun.run == |old(table.rows)| && automation in running
        && Joined(old(table.rows), table.rows, automation, allow, startedAt, token, wall + LeaseLife(timeoutSeconds))
      ensures forall s, a :: Starts(a, automation, allow, startedAt, wall + LeaseLife(timeoutSeconds)) ==>
        (old(Mirrors(s, a.process)) && s.nextToken == token ==> Mirrors(Step(s, a), a.process))
    {
      if automation in running && !allow { return SkippedBusy; }
      running := running + {automation};
      if !allow {
        if Blocked(table.rows, automation, startedAt) {
          running := running - {automation};
          return SkippedOwned;
        }
        table.rows := Supersede(table.rows, automation, startedAt);
      }
      begun := Began(|table.rows|);
      table.rows := table.rows
        + [Row(automation, Running, startedAt, None, None, 1, token, wall + LeaseLife(timeoutSeconds))];
    }

    method Beat(run: Id, token: nat, timeoutSeconds: Option<int>, wall: nat)
      modifies table
      ensures table.rows == Heartbeat(old(table.rows), run, token, wall + LeaseLife(timeoutSeconds))
      ensures forall s, i, process :: old(Mirrors(s, process)) && Holds(s, i, run, token) ==>
        Mirrors(Step(s, Action.Beat(i, wall + LeaseLife(timeoutSeconds))), process)
    {
      var rows := table.rows;
      if run < |rows| && rows[run].token == token && rows[run].status.Running? {
        table.rows := rows[run := rows[run].(lease := wall + LeaseLife(timeoutSeconds))];
      }
    }

    /**
      The retry loop, with nothing else happening meanwhile: `outcomes` holds what each dispatch would throw.
      It stops at the first success and makes one dispatch more than the retries allowed, at most.
     */
    method Work(automation: Id, run: Id, token: nat, maxRetries: int, outcomes: seq<Option<string>>, at: nat)
        returns (attempts: nat)
      requires |outcomes| > (if maxRetries > 0 then maxRetries else 0)
      requires run < |table.rows| && table.rows[run].token == token && table.rows[run].attempt == 1
      modifies this, table
      ensures 1 <= attempts <= |outcomes|
      ensures forall k :: 0 <= k < attempts - 1 ==> outcomes[k].Some?
      ensures outcomes[attempts - 1].Some? ==> attempts == (if maxRetries > 0 then maxRetries else 0) + 1
      ensures var before := old(table.rows)[run].(attempt := attempts, completed := Some(at));
        table.rows == old(table.rows)[run :=
          if outcomes[attempts - 1].None? then before.(status := Succeeded)
          else before.(status := Failed, error := outcomes[attempts - 1])]
      ensures running == old(running) - {automation}
      ensures forall s, i, process :: old(Mirrors(s, process)) && Takes(s, i, process, automation, run, token, maxRetries) ==>
        Mirrors(Run(s, Flown(i, attempts - 1, Landing(i, at, outcomes[attempts - 1]))), process)
    {
      var limit := if maxRetries > 0 then maxRetries else 0;
      var attempt := 0;
      while outcomes[attempt].Some? && attempt < limit
        invariant 0 <= attempt <= limit
        invariant forall k :: 0 <= k < attempt ==> outcomes[k].Some?
        invariant table.rows == old(table.rows)[run := old(table.rows)[run].(attempt := attempt + 1)]
        invariant running == old(running)
      {
        attempt := attempt + 1;
        table.rows := SetAttempt(table.rows, run, token, attempt + 1);
      }
      attempts := attempt + 1;
      if outcomes[attempt].None? {
        table.rows := CompleteOk(table.rows, run, token, at);
      } else {
        table.rows := CompleteFailed(table.rows, run, at, outcomes[attempt].value);
      }
      running := running - {automation};
      forall s, i, process | old(Mirrors(s, process)) && Takes(s, i, process, automation, run, token, maxRetries)
        ensures Mirrors(Run(s, Flown(i, attempt, Landing(i, at, outcomes[attempt]))), process)
      {
        FlightRuns(s, i, attempt, Landing(i, at, outcomes[attempt]));
      }
    }
  }
}
