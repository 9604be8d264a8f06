/**
  The runner of one run: model rounds, tool calls, suspension on approvals, recovery and resume.

  The object holds what the loop writes about its own run: message rows, step statuses in creation order, the
  run's status. The script of model and tools is that of `RunScript`.
 */
module Runner {
  import opened Common
  import opened Journal
  import opened HarnessStore
  import opened Transcript
  import opened TranscriptTheorems
  import opened RunCourse
  import opened RunScript

  /** A resume is refused: by the run's status, by a missing step row, or because an approval is still pending. */
  predicate Refuses(status: RunStatus, rows: seq<Entry>, d: Db) {
    Unresumable(status) || !Unblocked(rows, rows, d) || Rebuild(rows, rows, d).pending != []
  }

  /** A run in this status has ended for good, or has not started. */
  predicate Unresumable(status: RunStatus) {
    status.Created? || status.Succeeded? || status.Failed? || status.Canceled?
  }

  /** How the run stands after a loop, and what its caller is told. */
  ghost predicate LeftAs(turn: Turn, aborted: bool, exit: Exit, status: RunStatus) {
    match exit
    case Done => turn.Finished? && status.Succeeded?
    case Suspended => turn.Paused? && status.WaitingForApproval?
    case Broken(message, asked) =>
      && turn.Threw? && message == turn.fault.message && asked == turn.asked
      && (if aborted || turn.fault.abort then status.Interrupted? else status.Failed?)
    case Refused(_) => false
  }

  /** The steps of all ended calls are settled, or of those before the row whose step is missing. */
  ghost predicate StepsSettled(rows: seq<Entry>, d: Db, after: Db) {
    if Unblocked(rows, rows, d) then StepsEnded(d, after, StepEnds(rows, rows, d)) else exists i :: HaltsAt(rows, d, after, i)
  }

  function StatusAfter(turn: Turn, aborted: bool): RunStatus {
    match turn
    case Finished => RunStatus.Succeeded
    case Paused => RunStatus.WaitingForApproval
    case Threw(fault, _) => if aborted || fault.abort then RunStatus.Interrupted else RunStatus.Failed
    case Next => RunStatus.Running
  }

  function ExitAfter(turn: Turn): Exit {
    match turn
    case Finished => Done
    case Paused => Suspended
    case Threw(fault, asked) => Broken(fault.message, asked)
    case Next => Done
  }

  /** What a loop leaves: the rows and steps of its course, and a run and an answer that tell how it ended. */
  lemma {:induction false} LoopLeaves(c: Config, messages: seq<Entry>, startRound: nat, system: Entry, replies: seq<Reply>,
      aborted: bool)
    requires messages != []
    ensures var course := CourseOf(c, messages, startRound, system, replies, aborted);
      && CourseTells(c, startRound, replies, aborted, course)
      && LeftAs(course.turn, aborted, ExitAfter(course.turn), StatusAfter(course.turn, aborted))
  {
    var course := CourseOf(c, messages, startRound, system, replies, aborted);
    CourseIsTold(c, messages, startRound, system, replies, aborted);
    assert !course.turn.Next? by {
      PlayerPlaysWell(c, replies, aborted);
      CourseIsOk(c, PlayerOf(c, replies, aborted), |replies|, messages, startRound, system);
    }
  }

  /** One visit to a run after its first turn. */
  datatype Visit = Recover(d: Db) | Resume(d: Db, replies: seq<Reply>, aborted: bool)

  /** A visit's context protection hides nothing of the conversation rebuilt from these rows. */
  ghost predicate Untrimmed(b: Budget, system: Entry, rows: seq<Entry>, v: Visit) {
    v.Resume? ==>
      var rebuilt := [system] + Rebuild(rows, rows, v.d).messages; |Trim(rebuilt, b)| >= |rebuilt|
  }

  /** Context protection on resume: a note behind the system message tells that something was dropped. */
  function Protect(messages: seq<Entry>, b: Budget): (kept: seq<Entry>)
    ensures messages != [] ==> kept != []
    ensures |Trim(messages, b)| >= |messages| ==> kept == messages
  {
    var trimmed := Trim(messages, b);
    if |trimmed| >= |messages| || trimmed == [] then messages
    else [trimmed[0], Said("system", Words("[Context trimmed]"))] + trimmed[1..]
  }

  /** Messages that trimming shortens are trimmed and noted as such, others kept. */
  lemma {:induction false} ProtectExactly(messages: seq<Entry>, b: Budget)
    ensures |Trim(messages, b)| >= |messages| ==> Protect(messages, b) == messages
    ensures |Trim(messages, b)| < |messages| ==> var kept := Protect(messages, b);
      && |kept| == |Trim(messages, b)| + 1
      && kept[0] == messages[0] && kept[1] == Said("system", Words("[Context trimmed]"))
      && kept[2..] == Trim(messages, b)[1..]
  {
  }

  function Most(a: nat, b: nat): nat {
    if a > b then a else b
  }

  function Lost(rounds: nat, seen: nat): nat {
    if rounds > seen then rounds - seen else 0
  }

  /** The tool rounds on record that the context protection of this visit hides from the count. */
  ghost function Forgets(b: Budget, system: Entry, rows: seq<Entry>, v: Visit): nat {
    if v.Recover? then 0
    else
      var r := Rebuild(rows, rows, v.d);
      Lost(ToolRounds(rows + r.persist), ToolRounds(Protect([system] + r.messages, b)))
  }

  lemma {:induction false} UntrimmedForgetsNothing(b: Budget, system: Entry, rows: seq<Entry>, v: Visit)
    requires Plainspoken(rows) && system.Said? && Untrimmed(b, system, rows, v)
    ensures Forgets(b, system, rows, v) == 0
  {
    if v.Resume? { ResumeFacts(rows, v.d, system); }
  }

  /** No visit forgets more than `n` rounds. */
  ghost predicate ForgetAtMost(b: Budget, system: Entry, seen: seq<seq<Entry>>, visits: seq<Visit>, n: nat) {
    |seen| <= |visits| && forall k :: 0 <= k < |seen| ==> Forgets(b, system, seen[k], visits[k]) <= n
  }

  class HarnessRunner {
    const config: Config
    var rows: seq<Entry>
    var steps: seq<StepStatus>
    var status: RunStatus
    ghost var toolRounds: nat      // rounds that reached their tool calls, over the life of the run
    ghost var forgotten: nat       // the most tool rounds any resume lost sight of by trimming

    /** Over the whole life of the run, tool rounds are on record and bounded by the limit plus what was forgotten. */
    ghost predicate Valid()
      reads this
    {
      && Plainspoken(rows)
      && toolRounds <= ToolRounds(rows)
      && (config.maxRounds > 0 ==> toolRounds <= config.maxRounds + forgotten)
    }

    constructor (config: Config, content: string)
      ensures rows == [Said("user", Words(content))] && steps == [] && status.Running? && this.config == config
      ensures Valid() && toolRounds == 0 && forgotten == 0
    {
      this.config := config;
      rows := [Said("user", Words(content))];
      steps := [];
      status := RunStatus.Running;
      toolRounds := 0;
      forgotten := 0;
    }

    method Request(messages: seq<Entry>, replies: seq<Reply>, used: nat) returns (s: Sent)
      requires used <= |replies|
      ensures s == Send(config.budget, messages, replies, used)
    {
      if used == |replies| { return Sent(Err(OUT_OF_SCRIPT), messages, used); }
      var reply := replies[used];
      if reply.Fails? && reply.fault.tooLong {
        var trimmed := Trim(messages, config.budget);
        if |trimmed| >= |messages| { return Sent(Err(reply.fault), messages, used + 1); }
        if used + 1 == |replies| { return Sent(Err(OUT_OF_SCRIPT), trimmed, used + 1); }
        return Sent(Heard(replies[used + 1]), trimmed, used + 2);
      }
      s := Sent(Heard(reply), messages, used + 1);
    }

    /** A step of its own, running while the call is, and closed with the call's outcome. */
    method RunToolCall(c: Call) returns (message: Entry)
      modifies `steps
      ensures message == ReplyRow(c) && steps == old(steps) + [StepAfter(c.ending)]
    {
      steps := steps + [StepStatus.Running];
      message := ReplyRow(c);
      steps := steps[|steps| - 1 := StepAfter(c.ending)];
    }

    /** The tool calls of one round, up to the first the loop protection stops. */
    method RunTools(calls: seq<Call>, streak: Streak) returns (done: nat, waiting: bool, streak': Streak)
      modifies `steps, `rows
      ensures done == RunsFrom(streak, calls, 0, config.maxConsecutive)
      ensures streak' == CountedAll(streak, calls[..done]) && waiting == AnyWaits(calls[..done])
      ensures rows == old(rows) + ReplyRows(calls[..done]) && steps == old(steps) + StepsAfter(calls[..done])
    {
      done, waiting, streak' := 0, false, streak;
      while done < |calls|
        invariant done <= |calls|
        invariant RunsFrom(streak, calls, 0, config.maxConsecutive) == RunsFrom(streak, calls, done, config.maxConsecutive)
        invariant streak' == CountedAll(streak, calls[..done]) && waiting == AnyWaits(calls[..done])
        invariant rows == old(rows) + ReplyRows(calls[..done]) && steps == old(steps) + StepsAfter(calls[..done])
      {
        var c := calls[done];
        CountedSnoc(streak, calls, done, config.maxConsecutive);
        if Stops(streak', c, config.maxConsecutive) { return; }
        streak' := Counted(streak', c);
        var message := RunToolCall(c);
        rows := rows + [message];
        waiting := waiting || c.ending.Waits?;
        assert ReplyRows(calls[..done + 1]) == ReplyRows(calls[..done]) + [ReplyRow(c)];
        assert StepsAfter(calls[..done + 1]) == StepsAfter(calls[..done]) + [StepAfter(c.ending)];
        AnyWaitsSnoc(calls, done);
        done := done + 1;
      }
    }

    /** Stores the assistant message, closes the model step and runs the tools. */
    method Carry(messages: seq<Entry>, round: nat, ghost used: nat, streak: Streak, text: string, calls: seq<Call>)
        returns (turn: Turn, sent: seq<Entry>, streak': Streak)
      requires steps != []
      modifies `rows, `steps, `toolRounds
      ensures var p := Respond(config, messages, round, used, streak, text, calls);
        && turn == p.turn && sent == p.messages && streak' == p.streak && rows == old(rows) + Written(p.report)
        && steps == old(steps[..|steps| - 1]) + p.steps && toolRounds == old(toolRounds) + (if p.report.ran then 1 else 0)
    {
      streak' := streak;
      sent := messages + [Asked(Words(text), Ids(calls))];
      rows := rows + [Asked(Words(text), Ids(calls))];
      steps := steps[|steps| - 1 := StepStatus.Succeeded];
      assert rows == old(rows) + RoundRows(text, calls, 0) && steps == old(steps[..|steps| - 1]) + [StepStatus.Succeeded];
      if calls == [] { return Finished, sent, streak'; }
      if config.maxRounds > 0 && round >= config.maxRounds { return Threw(LIMIT, true), sent, streak'; }
      toolRounds := toolRounds + 1;
      assert Respond(config, messages, round, used, streak, text, calls)
        == PlayTools(config, sent, used, streak, text, calls);
      var done, waiting;
      done, waiting, streak' := RunTools(calls, streak);
      sent := sent + ReplyRows(calls[..done]);
      assert rows == old(rows) + RoundRows(text, calls, done);
      assert done == |calls| ==> calls[..done] == calls;
      turn := if done < |calls| then Threw(REPEATED, true) else if waiting then Paused else Next;
    }

    /** One model round: its rows and steps are those of `Play`. */
    method Round(messages: seq<Entry>, round: nat, replies: seq<Reply>, aborted: bool, used: nat, streak: Streak,
        ghost play: Player) returns (turn: Turn, sent: seq<Entry>, used': nat, streak': Streak, ghost p: Played)
      requires used <= |replies| && Plays(play, config, replies, aborted)
      modifies `rows, `steps, `toolRounds
      ensures p == play(messages, round, used, streak) && (p.turn.Next? ==> used < p.used && p.report.ran)
      ensures turn == p.turn && sent == p.messages && used' == p.used <= |replies| && streak' == p.streak
      ensures messages != [] ==> sent != []
      ensures rows == old(rows) + Written(p.report) && steps == old(steps) + p.steps
      ensures toolRounds == old(toolRounds) + (if p.report.ran then 1 else 0)
    {
      p := Play(config, messages, round, replies, aborted, used, streak);
      steps := steps + [StepStatus.Running];
      assert steps[..|steps| - 1] == old(steps);
      var s := Request(messages, replies, used);
      used' := s.used;
      if s.reply.Err? {
        steps := steps[|steps| - 1 := if aborted || s.reply.error.abort then StepStatus.Interrupted else StepStatus.Failed];
        return Threw(s.reply.error, false), s.messages, used', streak, p;
      }
      turn, sent, streak' := Carry(s.messages, round, s.used, streak, s.reply.value.text, s.reply.value.calls);
    }

    /** The loop: its rows and steps are those of the course. */
    method Loop(messages: seq<Entry>, startRound: nat, system: Entry, replies: seq<Reply>, aborted: bool,
        ghost play: Player) returns (turn: Turn, ghost course: Course)
      requires messages != [] && Plays(play, config, replies, aborted)
      modifies `rows, `steps, `toolRounds
      ensures course == Rounds(play, config.maxRounds, |replies|, messages, startRound, system, 0, Streak("", 0), EMPTY)
      ensures turn == course.turn && rows == old(rows) + course.rows && steps == old(steps) + course.steps
      ensures toolRounds == old(toolRounds) + |course.full| + (if course.last.ran then 1 else 0)
    {
      course := Rounds(play, config.maxRounds, |replies|, messages, startRound, system, 0, Streak("", 0), EMPTY);
      var ms, round: nat, used, streak := messages, startRound, 0, Streak("", 0);
      ghost var log := EMPTY;
      while config.maxRounds == 0 || round <= config.maxRounds
        invariant ms != [] && used <= |replies|
        invariant course == Rounds(play, config.maxRounds, |replies|, ms, round, system, used, streak, log)
        invariant rows == old(rows) + log.rows && steps == old(steps) + log.steps
        invariant toolRounds == old(toolRounds) + |log.full|
        decreases |replies| - used
      {
        ghost var p;
        turn, ms, used, streak, p := Round(ms[0 := system], round, replies, aborted, used, streak, play);
        Regroup(old(rows), log.rows, Written(p.report));
        Regroup(old(steps), log.steps, p.steps);
        if !turn.Next? { return; }
        log, round := Logged(log, p), round + 1;
      }
      turn := Threw(LIMIT, false);
    }

    /**
      `aborted` tells whether the caller's signal is aborted by the time an error is caught. No step is left
      running; the rounds that run tools are bounded by what the limit leaves from the start round on; with
      unique ids the rows stay well formed, open exactly when the run is suspended; and every call has its row
      afterwards exactly unless the loop broke off with calls of the last message still to run.
     */
    method ContinueRun(messages: seq<Entry>, startRound: nat, system: Entry, replies: seq<Reply>, aborted: bool)
        returns (exit: Exit)
      requires messages != []
      modifies `rows, `steps, `toolRounds, `status
      ensures var course := CourseOf(config, messages, startRound, system, replies, aborted);
        && exit == ExitAfter(course.turn) && status == StatusAfter(course.turn, aborted)
        && steps == old(steps) + course.steps && rows == old(rows) + course.rows
      ensures !exit.Refused? && StepsClosed(old(steps), steps) && old(rows) <= rows
      ensures Plainspoken(old(rows)) ==> Plainspoken(rows)
      ensures old(toolRounds) <= toolRounds && toolRounds - old(toolRounds) <= ToolRounds(rows) - ToolRounds(old(rows))
      ensures config.maxRounds > 0 && toolRounds > old(toolRounds) ==>
        startRound + (toolRounds - old(toolRounds)) <= config.maxRounds
      ensures GoodRows(old(rows)) && UniqueIds(rows) ==> WellFormed(rows)
      ensures GoodRows(old(rows)) && UniqueIds(rows) && exit.Suspended? ==> HasOpen(rows)
      ensures GoodRows(old(rows)) && UniqueIds(rows) && exit.Done? ==> !HasOpen(rows)
      ensures AllReplied(old(rows)) && !BrokenOff(exit) ==> AllReplied(rows)
      ensures GoodRows(old(rows)) && UniqueIds(rows) && BrokenOff(exit) ==> !AllReplied(rows)
      ensures UniqueIds(rows) && !AllReplied(old(rows)) ==> !AllReplied(rows)
    {
      ghost var course;
      var turn;
      PlayerPlaysWell(config, replies, aborted);
      CourseIsOk(config, PlayerOf(config, replies, aborted), |replies|, messages, startRound, system);
      turn, course := Loop(messages, startRound, system, replies, aborted, PlayerOf(config, replies, aborted));
      RunRecorded(old(rows), course.full, course.last);
      LeftBehind(old(rows), course.full, course.last);
      Regroup(old(rows), Recorded(course.full), Written(course.last));
      status := StatusAfter(turn, aborted);
      exit := ExitAfter(turn);
    }

    /** The first turn of a run, with the earlier conversation in front. */
    method RunTurn(history: seq<Entry>, system: Entry, replies: seq<Reply>, aborted: bool) returns (exit: Exit)
      requires Valid() && toolRounds == 0
      modifies `rows, `steps, `toolRounds, `status
      ensures Valid() && StepsClosed(old(steps), steps) && old(rows) <= rows
      ensures var course := CourseOf(config, [system] + history + old(rows), 0, system, replies, aborted);
        && exit == ExitAfter(course.turn) && status == StatusAfter(course.turn, aborted)
        && rows == old(rows) + course.rows && steps == old(steps) + course.steps
      ensures GoodRows(old(rows)) && UniqueIds(rows) ==> WellFormed(rows)
      ensures AllReplied(old(rows)) && !BrokenOff(exit) ==> AllReplied(rows)
      ensures GoodRows(old(rows)) && UniqueIds(rows) && BrokenOff(exit) ==> !AllReplied(rows)
    {
      exit := ContinueRun([system] + history + rows, 0, system, replies, aborted);
    }

    /** Rebuilds the conversation and stores the answers found, whether or not approvals are still pending. */
    method RecoverRunContext(d: Db, system: Entry)
        returns (r: Result<(seq<Entry>, seq<Id>), string>, after: Db)
      requires Valid()
      modifies `rows
      ensures Valid() && SameView(after, d) && old(rows) <= rows
      ensures StepsSettled(old(rows), d, after)
      ensures r.Ok? <==> Unblocked(old(rows), old(rows), d)
      ensures r.Ok? ==> var rebuilt := Rebuild(old(rows), old(rows), d);
        r.value == ([system] + rebuilt.messages, rebuilt.pending) && rows == old(rows) + rebuilt.persist
      ensures r.Err? ==> rows == old(rows)
      ensures WellFormed(old(rows)) ==> WellFormed(rows)
      ensures AllReplied(old(rows)) <==> AllReplied(rows)
    {
      PersistIsPlain(rows, d);
      PersistKeeps(rows, d);
      var resumed;
      resumed, after := ResumeMessages(rows, d);
      if resumed.Err? { return Err(resumed.error), after; }
      rows := rows + resumed.value.persist;
      r := Ok(([system] + resumed.value.messages, resumed.value.pending));
    }

    predicate Resumable()
      reads this
    {
      status == RunStatus.WaitingForApproval || status == RunStatus.Interrupted || status == RunStatus.Running
    }

    /** The first half of a resume: the rows grow by the answers found, or nothing changes. */
    method Restore(d: Db, system: Entry) returns (r: Result<seq<Entry>, string>, after: Db)
      requires Valid()
      modifies `rows, `status
      ensures Valid() && SameView(after, d)
      ensures if Unresumable(old(status)) then after == d else StepsSettled(old(rows), d, after)
      ensures r.Err? <==> Refuses(old(status), old(rows), d)
      ensures r.Err? ==> rows == old(rows) && status == old(status)
      ensures r.Ok? ==> r.value == [system] + Rebuild(old(rows), old(rows), d).messages
      ensures r.Ok? ==> rows == old(rows) + Rebuild(old(rows), old(rows), d).persist
    {
      after := d;
      if !Resumable() { return Err("cannot be resumed"), after; }
      var resumed;
      resumed, after := ResumeMessages(rows, d);
      if resumed.Err? { return Err(resumed.error), after; }
      if resumed.value.pending != [] { return Err("still has pending approvals"), after; }
      PersistIsPlain(rows, d);
      rows := rows + resumed.value.persist;
      status := RunStatus.Running;
      r := Ok([system] + resumed.value.messages);
    }

    /** The run has gone on from these messages, as far as they fit, with the round they have come to. */
    ghost predicate Follows(messages: seq<Entry>, system: Entry, replies: seq<Reply>, aborted: bool, was: seq<Entry>,
        closed: seq<StepStatus>, exit: Exit)
      requires messages != []
      reads this
    {
      var kept := Protect(messages, config.budget);
      var course := CourseOf(config, kept, ToolRounds(kept), system, replies, aborted);
      && exit == ExitAfter(course.turn) && status == StatusAfter(course.turn, aborted)
      && rows == was + course.rows && steps == closed + course.steps
    }

    /** The second half: what is still seen of the tool rounds is where the count starts. */
    method GoOn(messages: seq<Entry>, system: Entry, replies: seq<Reply>, aborted: bool) returns (exit: Exit)
      requires Valid() && messages != []
      modifies this
      ensures Valid() && StepsClosed(old(steps), steps) && old(rows) <= rows && !exit.Refused?
      ensures forgotten ==
        Most(old(forgotten), Lost(ToolRounds(old(rows)), ToolRounds(Protect(messages, config.budget))))
      ensures Follows(messages, system, replies, aborted, old(rows), old(steps), exit)
      ensures GoodRows(old(rows)) && UniqueIds(rows) ==> WellFormed(rows)
      ensures GoodRows(old(rows)) && UniqueIds(rows) && exit.Suspended? ==> HasOpen(rows)
      ensures AllReplied(old(rows)) && !BrokenOff(exit) ==> AllReplied(rows)
      ensures GoodRows(old(rows)) && UniqueIds(rows) && BrokenOff(exit) ==> !AllReplied(rows)
      ensures UniqueIds(rows) && !AllReplied(old(rows)) ==> !AllReplied(rows)
    {
      var protected := Protect(messages, config.budget);
      var start := ToolRounds(protected);
      forgotten := Most(forgotten, Lost(ToolRounds(rows), start));
      exit := ContinueRun(protected, start, system, replies, aborted);
    }

    /**
      Resuming refuses, without touching the run, unless its status allows it and nothing is pending. It counts
      the tool rounds it can still see; unless trimming hides some, that is all of them. Every call has its row
      afterwards exactly unless the loop broke off inside a round.
     */
    method ResumeRun(d: Db, system: Entry, replies: seq<Reply>, aborted: bool) returns (exit: Exit, after: Db)
      requires Valid() && system.Said?
      modifies this
      ensures Valid() && StepsClosed(old(steps), steps) && SameView(after, d) && old(rows) <= rows
      ensures if Unresumable(old(status)) then after == d else StepsSettled(old(rows), d, after)
      ensures exit.Refused? <==> Refuses(old(status), old(rows), d)
      ensures exit.Refused? ==>
        && rows == old(rows) && steps == old(steps) && status == old(status)
        && toolRounds == old(toolRounds) && forgotten == old(forgotten)
      ensures !exit.Refused? ==> var rebuilt := Rebuild(old(rows), old(rows), d);
        Follows([system] + rebuilt.messages, system, replies, aborted, old(rows) + rebuilt.persist, old(steps), exit)
      ensures !exit.Refused? ==>
        forgotten == Most(old(forgotten), Forgets(config.budget, system, old(rows), Resume(d, replies, aborted)))
      ensures WellFormed(old(rows)) && UniqueIds(rows) ==> WellFormed(rows)
      ensures WellFormed(old(rows)) && UniqueIds(rows) && exit.Suspended? ==> HasOpen(rows)
      ensures AllReplied(old(rows)) && !BrokenOff(exit) ==> AllReplied(rows)
      ensures WellFormed(old(rows)) && UniqueIds(rows) && (BrokenOff(exit) || !AllReplied(old(rows))) ==> !AllReplied(rows)
    {
      ResumeFacts(rows, d, system);
      PersistKeeps(rows, d);
      var restored;
      restored, after := Restore(d, system);
      if restored.Err? { return Refused(restored.error), after; }
      exit := GoOn(restored.value, system, replies, aborted);
    }

    /**
      A whole life: one turn, then any number of recoveries and resumes. Tool rounds never exceed the limit by
      more than trimming on a resume made it forget, and not at all if no visit's own rebuilt conversation was
      trimmed; `seen` shows the rows each visit found. No step is left running. With unique ids the rows are
      well formed, and a conversation rebuilt from them with nothing pending answers every call once in its
      place, if and only if no loop of this life broke off inside a round.
     */
    method Live(history: seq<Entry>, system: Entry, first: seq<Reply>, aborted: bool, visits: seq<Visit>)
        returns (ghost seen: seq<seq<Entry>>, brokeOff: bool)
      requires Valid() && toolRounds == 0 && forgotten == 0 && steps == [] && system.Said?
      requires GoodRows(rows) && AllReplied(rows)
      modifies this
      ensures config.maxRounds > 0 ==> toolRounds <= config.maxRounds + forgotten
      ensures |seen| == |visits| && forall k :: 0 <= k < |visits| ==> seen[k] <= rows
      ensures forall n: nat :: ForgetAtMost(config.budget, system, seen, visits, n) ==> forgotten <= n
      ensures (forall k :: 0 <= k < |visits| ==> Untrimmed(config.budget, system, seen[k], visits[k])) ==> forgotten == 0
      ensures NoneRunning(steps)
      ensures UniqueIds(rows) ==> WellFormed(rows) && (AllReplied(rows) <==> !brokeOff)
      ensures UniqueIds(rows) ==> forall d: Db :: RebuiltInFull(rows, d, brokeOff)
    {
      var exit := RunTurn(history, system, first, aborted);
      brokeOff := BrokenOff(exit);
      seen := [];
      for k := 0 to |visits|
        invariant Valid() && StepsClosed([], steps) && |seen| == k
        invariant forall i :: 0 <= i < k ==> seen[i] <= rows
        invariant forall n: nat :: ForgetAtMost(config.budget, system, seen, visits, n) ==> forgotten <= n
        invariant (forall i :: 0 <= i < k ==> Untrimmed(config.budget, system, seen[i], visits[i])) ==> forgotten == 0
        invariant UniqueIds(rows) ==> WellFormed(rows) && (AllReplied(rows) <==> !brokeOff)
      {
        ghost var before := rows;
        var off := Take(visits[k], system);
        brokeOff := brokeOff || off;
        UniqueOfPrefix(before, rows);
        ghost var earlier := seen;
        seen := seen + [before];
        forall n: nat | ForgetAtMost(config.budget, system, seen, visits, n)
          ensures forgotten <= n
        {
          assert forall i :: 0 <= i < k ==> earlier[i] == seen[i];
          assert ForgetAtMost(config.budget, system, earlier, visits, n) && seen[k] == before;
        }
      }
      forall d: Db | UniqueIds(rows)
        ensures RebuiltInFull(rows, d, brokeOff)
      {
        if Rebuild(rows, rows, d).pending == [] { ReconstructionIsWhole(rows, d); }
      }
    }

    /** One visit. */
    method Take(v: Visit, system: Entry) returns (brokeOff: bool)
      requires Valid() && system.Said? && StepsClosed([], steps)
      modifies this
      ensures Valid() && StepsClosed([], steps) && old(rows) <= rows
      ensures forgotten <= Most(old(forgotten), Forgets(config.budget, system, old(rows), v))
      ensures Untrimmed(config.budget, system, old(rows), v) ==> Forgets(config.budget, system, old(rows), v) == 0
      ensures WellFormed(old(rows)) && UniqueIds(rows) ==> WellFormed(rows)
      ensures WellFormed(old(rows)) && UniqueIds(rows) ==> (AllReplied(rows) <==> AllReplied(old(rows)) && !brokeOff)
    {
      if Untrimmed(config.budget, system, rows, v) { UntrimmedForgetsNothing(config.budget, system, rows, v); }
      match v {
        case Recover(d) =>
          var _, _ := RecoverRunContext(d, system);
          brokeOff := false;
        case Resume(d, replies, aborted) =>
          var exit, _ := ResumeRun(d, system, replies, aborted);
          StepsClosedTrans([], old(steps), steps);
          brokeOff := BrokenOff(exit);
      }
    }
  }

  lemma {:induction false} Regroup<T>(a: seq<T>, b: seq<T>, c: seq<T>)
    ensures a + b + c == a + (b + c)
  {
  }

  /** The loop ended with calls of the assistant's last message still to run. */
  predicate BrokenOff(exit: Exit) {
    exit.Broken? && exit.asked
  }

  /** With nothing pending, the rebuilt conversation answers every call in its place exactly unless a loop broke off. */
  ghost predicate RebuiltInFull(rows: seq<Entry>, d: Db, brokeOff: bool) {
    Rebuild(rows, rows, d).pending == [] ==> (AnswersAll(Rebuild(rows, rows, d).messages) <==> !brokeOff)
  }

  lemma {:induction false} PersistKeeps(rows: seq<Entry>, d: Db)
    requires Plainspoken(rows)
    ensures var all := rows + Rebuild(rows, rows, d).persist;
      && (WellFormed(rows) ==> WellFormed(all))
      && (AllReplied(rows) <==> AllReplied(all))
  {
    var persist := Rebuild(rows, rows, d).persist;
    PersistAnswersNothingNew(rows, d);
    NoPlaceholder(rows, rows, d);
    assert forall i :: 0 <= i < |persist| ==> persist[i] in persist;
    if WellFormed(rows) { RecoveryKeepsShape(rows, d); }
    if AllReplied(rows) { RepliesKeepAllReplied(rows, persist); }
  }

  /** A recovery stores answers only for calls that have a row. */
  lemma {:induction false} PersistAnswersNothingNew(rows: seq<Entry>, d: Db)
    requires Plainspoken(rows)
    ensures !AllReplied(rows) ==> !AllReplied(rows + Rebuild(rows, rows, d).persist)
  {
    var persist := Rebuild(rows, rows, d).persist;
    var all := rows + persist;
    if !AllReplied(rows) {
      var i, id :| 0 <= i < |rows| && rows[i].Asked? && id in rows[i].calls && !HasReply(rows, id);
      assert all[i] == rows[i];
      HasReplyAppend(rows, persist, id);
      if j :| 0 <= j < |persist| && persist[j].Replied? && persist[j].id == id {
        var k := PersistedComesFrom(rows, rows, d, persist[j]);
        FateOfRow(rows[k], rows, d);
      }
    }
  }

  lemma {:induction false} FateOfRow(e: Entry, all: seq<Entry>, d: Db)
    ensures RowFate(e, all, d).Replaced? ==> e.body.Waiting?
  {
  }

  lemma {:induction false} UniqueOfPrefix(early: seq<Entry>, rows: seq<Entry>)
    requires early <= rows
    ensures UniqueIds(rows) ==> UniqueIds(early)
  {
    assert rows == early + rows[|early|..];
    if UniqueIds(rows) { UniquePrefix(early, rows[|early|..]); }
  }

  const STOPPED := [Call("a", "f", "", Ends(true, "")), Call("b", "f", "", Ends(true, ""))]
  const STOPPED_REPORT := Report(true, "", STOPPED, 1, true)

  lemma {:induction false} StoppedCourse(b: Budget, messages: seq<Entry>, system: Entry)
    requires messages != []
    ensures var course := CourseOf(Config(0, 1, b), messages, 0, system, [Says("", STOPPED)], true);
      course.turn == Threw(REPEATED, true) && course.rows == Written(STOPPED_REPORT)
  {
    var c, ms, replies := Config(0, 1, b), messages[0 := system], [Says("", STOPPED)];
    SecondIsStopped(STOPPED[0], STOPPED[1]);
    assert Play(c, ms, 0, replies, true, 0, Streak("", 0))
      == PlayTools(c, ms + [Asked(Words(""), Ids(STOPPED))], 1, Streak("", 0), "", STOPPED);
  }

  lemma {:induction false} FirstRowIsGood(content: string)
    ensures var first := [Said("user", Words(content))]; GoodRows(first) && CallIds(first) == []
  {
    var first := [Said("user", Words(content))];
    assert first[..0] == [];
    assert !HasOpen([]);
    assert forall i: nat :: !OpenAt(first, i);
  }

  lemma {:induction false} StoppedIdsAreUnique(content: string)
    ensures var first := [Said("user", Words(content))];
      first + Recorded([]) + Written(STOPPED_REPORT) == first + Written(STOPPED_REPORT)
      && UniqueIds(first + Written(STOPPED_REPORT))
  {
    var first := [Said("user", Words(content))];
    var rows := first + Written(STOPPED_REPORT);
    FirstRowIsGood(content);
    assert Written(STOPPED_REPORT) == [Asked(Words(""), Ids(STOPPED)), ReplyRow(STOPPED[0])];
    assert rows[..1] == first;
  }

  lemma {:induction false} StoppedRows(content: string)
    ensures var rows := [Said("user", Words(content))] + Written(STOPPED_REPORT);
      WellFormed(rows) && !AllReplied(rows) && forall i :: 0 <= i < |rows| ==> !rows[i].body.Waiting?
  {
    FirstRowIsGood(content);
    StoppedIdsAreUnique(content);
    RunRecorded([Said("user", Words(content))], [], STOPPED_REPORT);
    assert Written(STOPPED_REPORT) == [Asked(Words(""), Ids(STOPPED)), ReplyRow(STOPPED[0])];
  }

  /**
    A run that breaks off: with the loop protection at 1, the second of two identical calls of one message is
    never run. Under an aborted signal the run is left interrupted, may be resumed with nothing pending, and
    its rebuilt conversation leaves that call unanswered.
   */
  lemma {:induction false} StoppedInsideARound(content: string, system: Entry, b: Budget, d: Db)
    ensures var first := [Said("user", Words(content))];
      var course := CourseOf(Config(0, 1, b), [system] + first, 0, system, [Says("", STOPPED)], true);
      var rows := first + course.rows;
      && Cut(course.turn) && StatusAfter(course.turn, true).Interrupted?
      && WellFormed(rows) && Rebuild(rows, rows, d).pending == []
      && !AnswersAll(Rebuild(rows, rows, d).messages)
  {
    StoppedCourse(b, [system] + [Said("user", Words(content))], system);
    var rows := [Said("user", Words(content))] + Written(STOPPED_REPORT);
    StoppedRows(content);
    NothingWaits(rows, rows, d);
    ReconstructionIsWhole(rows, d);
  }

  /** At a limit of one, the second of two identical calls is stopped, the first is not. */
  lemma {:induction false} SecondIsStopped(a: Call, b: Call)
    requires Signature(a) == Signature(b) && Signature(a) != ""
    ensures RunsFrom(Streak("", 0), [a, b], 0, 1) == 1
  {
    var calls := [a, b];
    assert calls[..1][..0] == [] && calls[..1][0] == a;
    assert CountedAll(Streak("", 0), calls[..1]) == Counted(Streak("", 0), a);
  }

  lemma {:induction false} NothingWaits(rows: seq<Entry>, all: seq<Entry>, d: Db)
    requires forall i :: 0 <= i < |rows| ==> !rows[i].body.Waiting?
    ensures Rebuild(rows, all, d).pending == []
  {
    if rows != [] {
      NothingWaits(rows[..|rows| - 1], all, d);
      RebuildStep(rows, all, d);
    }
  }
}
