/**
  What a loop does, told from its script: which replies it heard, what it wrote for them, how its steps closed and
  why it ended.
 */
module RunCourse {
  import opened Common
  import opened Journal
  import opened Filters
  import opened HarnessStore
  import opened Transcript
  import opened TranscriptTheorems
  import opened RunScript

  // ----- one round ---------------------------------------------------------------------------

  ghost predicate SomeWaits(calls: seq<Call>) {
    exists i :: 0 <= i < |calls| && calls[i].ending.Waits?
  }

  lemma {:induction false} AnyWaitsExactly(calls: seq<Call>)
    ensures AnyWaits(calls) <==> SomeWaits(calls)
  {
    if calls != [] {
      var init := calls[..|calls| - 1];
      AnyWaitsExactly(init);
      assert forall i :: 0 <= i < |init| ==> init[i] == calls[i];
    }
  }

  /** The row answers the call: with its result's text, or with the approval it waits for. */
  ghost predicate AnswersAs(c: Call, e: Entry) {
    && e.Replied? && e.name == c.name && e.id == c.id
    && (c.ending.Waits? ==> e.body == Waiting(c.ending.call, Some(c.ending.approval)))
    && (c.ending.Ends? ==> e.body == Words(c.ending.text))
  }

  /** A round's rows: the assistant's message with its calls, then an answer to each call that was run, in order. */
  ghost predicate RowsOf(r: Report, rows: seq<Entry>)
    requires r.done <= |r.calls|
  {
    if !r.spoke then rows == []
    else
      && |rows| == r.done + 1
      && rows[0].Asked? && rows[0].body == Words(r.text) && |rows[0].calls| == |r.calls|
      && (forall i :: 0 <= i < |r.calls| ==> rows[0].calls[i] == r.calls[i].id)
      && forall k :: 0 <= k < r.done ==> AnswersAs(r.calls[k], rows[k + 1])
  }

  /** A tool step is interrupted if the call waits for approval, succeeded or failed as the call did otherwise. */
  ghost predicate ClosedAs(e: Ending, status: StepStatus) {
    match status
    case Succeeded => e.Ends? && e.succeeded
    case Failed => e.Ends? && !e.succeeded
    case Interrupted => e.Waits?
    case _ => false
  }

  /** The steps of a round in which the assistant spoke: its own, succeeded, and one for each call that was run. */
  ghost predicate StepsOf(r: Report, steps: seq<StepStatus>)
    requires r.done <= |r.calls|
  {
    |steps| == r.done + 1 && steps[0].Succeeded? && forall k :: 0 <= k < r.done ==> ClosedAs(r.calls[k].ending, steps[k + 1])
  }

  lemma {:induction false} WrittenExactly(r: Report)
    requires r.done <= |r.calls|
    ensures RowsOf(r, Written(r))
  {
  }

  /** Why a round ended, and the steps of one whose request failed. */
  ghost predicate EndsFor(c: Config, round: nat, aborted: bool, turn: Turn, r: Report, steps: seq<StepStatus>)
    requires r.done <= |r.calls|
  {
    if !r.spoke then turn.Threw? && !turn.asked && 
      steps == [if aborted || turn.fault.abort then StepStatus.Interrupted else StepStatus.Failed]
    else
      && StepsOf(r, steps)
      && (turn.Finished? <==> r.calls == [])
      && (turn.Threw? <==> r.done < |r.calls|) && (turn.Threw? ==> turn.asked)
      && (r.ran <==> r.calls != [] && (c.maxRounds == 0 || round < c.maxRounds))
      && (!r.ran ==> r.done == 0)
      && (r.calls != [] && r.done == |r.calls| ==> (turn.Paused? <==> SomeWaits(r.calls)))
  }

  /** The request is refused as too long for the model, and trimming helps. */
  predicate Trims(b: Budget, messages: seq<Entry>, replies: seq<Reply>, used: nat) {
    used < |replies| && replies[used].Fails? && replies[used].fault.tooLong && |Trim(messages, b)| < |messages|
  }

  /** The assistant says in the round what the script has at that place; anything else ends the loop. */
  ghost predicate HearsAt(replies: seq<Reply>, place: nat, p: Played)
    requires place <= |replies|
  {
    if place == |replies| then p.used == place && !p.report.spoke
    else
      && p.used == place + 1
      && match replies[place]
         case Fails(fault) => !p.report.spoke && p.turn == Threw(fault, false)
         case NoChoice => !p.report.spoke && p.turn == Threw(Fault("Model returned no choices", false, false), false)
         case Says(text, calls) => p.report.spoke && p.report.text == text && p.report.calls == calls
  }

  ghost predicate RoundTells(c: Config, messages: seq<Entry>, round: nat, replies: seq<Reply>, aborted: bool, used: nat,
      p: Played)
    requires used <= |replies|
  {
    var trims := Trims(c.budget, messages, replies, used);
    && p.report.done <= |p.report.calls|
    && HearsAt(replies, if trims then used + 1 else used, p)
    && EndsFor(c, round, aborted, p.turn, p.report, p.steps)
    && p.messages == (if trims then Trim(messages, c.budget) else messages) + Written(p.report)
  }

  lemma {:induction false} ToolsTell(c: Config, messages: seq<Entry>, round: nat, used: nat, streak: Streak, text: string,
      calls: seq<Call>, aborted: bool)
    requires calls != [] && (c.maxRounds == 0 || round < c.maxRounds)
    ensures var p := Respond(c, messages, round, used, streak, text, calls);
      && EndsFor(c, round, aborted, p.turn, p.report, p.steps) && p.messages == messages + Written(p.report)
      && p.report.spoke && p.report.text == text && p.report.calls == calls
  {
    AnyWaitsExactly(calls);
    var done := RunsFrom(streak, calls, 0, c.maxConsecutive);
    assert messages + [Asked(Words(text), Ids(calls))] + ReplyRows(calls[..done]) == messages + RoundRows(text, calls, done);
  }

  lemma {:induction false} PlayTells(c: Config, messages: seq<Entry>, round: nat, replies: seq<Reply>, aborted: bool, used: nat,
      streak: Streak)
    requires used <= |replies|
    ensures RoundTells(c, messages, round, replies, aborted, used, Play(c, messages, round, replies, aborted, used, streak))
  {
    var sent := Send(c.budget, messages, replies, used);
    if sent.reply.Err? {
      assert sent.messages + [] == sent.messages;
    } else {
      var text, calls := sent.reply.value.text, sent.reply.value.calls;
      if calls != [] && (c.maxRounds == 0 || round < c.maxRounds) {
        ToolsTell(c, sent.messages, round, sent.used, streak, text, calls, aborted);
      } else {
        assert ReplyRows(calls[..0]) == [];
      }
    }
  }

  // ----- the whole course --------------------------------------------------------------------

  /** The steps of a round in which the assistant spoke. */
  function Closed(r: Report): seq<StepStatus> {
    [StepStatus.Succeeded] + if r.done <= |r.calls| then StepsAfter(r.calls[..r.done]) else []
  }

  function ClosedAll(reports: seq<Report>): seq<StepStatus> {
    if reports == [] then [] else ClosedAll(reports[..|reports| - 1]) + Closed(reports[|reports| - 1])
  }

  lemma {:induction false} ClosedExactly(r: Report, steps: seq<StepStatus>)
    requires r.done <= |r.calls|
    ensures StepsOf(r, steps) <==> steps == Closed(r)
  {
    forall k | 0 <= k < r.done && |steps| == r.done + 1
      ensures ClosedAs(r.calls[k].ending, steps[k + 1]) <==> steps[k + 1] == Closed(r)[k + 1]
    {
    }
  }

  /** The rounds say what the script has at these places, which ascend. */
  ghost predicate Quotes(replies: seq<Reply>, at: seq<nat>, full: seq<Report>) {
    && |at| == |full|
    && (forall k, l :: 0 <= k < l < |at| ==> at[k] < at[l])
    && forall k :: 0 <= k < |at| ==> at[k] < |replies| && replies[at[k]] == Says(full[k].text, full[k].calls)
  }

  ghost predicate Quoted(replies: seq<Reply>, full: seq<Report>, below: nat) {
    exists at :: Quotes(replies, at, full) && forall k :: 0 <= k < |at| ==> at[k] < below
  }

  lemma {:induction false} QuotesOneMore(replies: seq<Reply>, full: seq<Report>, place: nat, r: Report)
    requires Quoted(replies, full, place) && place < |replies| && replies[place] == Says(r.text, r.calls)
    ensures Quoted(replies, full + [r], place + 1)
  {
    var at :| Quotes(replies, at, full) && forall k :: 0 <= k < |at| ==> at[k] < place;
    assert Quotes(replies, at + [place], full + [r]);
  }

  lemma {:induction false} QuotedBelow(replies: seq<Reply>, full: seq<Report>, below: nat, higher: nat)
    requires Quoted(replies, full, below) && below <= higher
    ensures Quoted(replies, full, higher)
  {
  }

  /**
    The rounds of a course quote the script in order; behind the rows and steps of its whole rounds stand those of
    the last, which ended the loop for one of the reasons there are. Beyond the limit no round is played at all.
   */
  ghost predicate CourseTells(c: Config, startRound: nat, replies: seq<Reply>, aborted: bool, course: Course) {
    if c.maxRounds > 0 && startRound > c.maxRounds then course == Course(Threw(LIMIT, false), [], SILENT, [], [])
    else
      && Quoted(replies, course.full + (if course.last.spoke then [course.last] else []), |replies|)
      && course.last.done <= |course.last.calls|
      && ClosedAll(course.full) <= course.steps
      && EndsFor(c, startRound + |course.full|, aborted, course.turn, course.last, course.steps[|ClosedAll(course.full)|..])
  }

  ghost predicate LogTells(replies: seq<Reply>, used: nat, log: Log) {
    log.steps == ClosedAll(log.full) && Quoted(replies, log.full, used)
  }

  ghost predicate PlaysTelling(play: Player, c: Config, replies: seq<Reply>, aborted: bool) {
    forall messages, round: nat, used: nat, streak
        {:trigger RoundTells(c, messages, round, replies, aborted, used, play(messages, round, used, streak))} ::
      used <= |replies| ==> RoundTells(c, messages, round, replies, aborted, used, play(messages, round, used, streak))
  }

  lemma {:induction false} PlayerTells(c: Config, replies: seq<Reply>, aborted: bool)
    ensures PlaysTelling(PlayerOf(c, replies, aborted), c, replies, aborted)
  {
    forall messages, round: nat, used: nat, streak | used <= |replies|
      ensures RoundTells(c, messages, round, replies, aborted, used, PlayerOf(c, replies, aborted)(messages, round, used, streak))
    {
      PlayTells(c, messages, round, replies, aborted, used, streak);
    }
  }

  lemma {:induction false} StepsGrow(log: Log, p: Played)
    requires log.steps == ClosedAll(log.full) && p.report.done <= |p.report.calls| && StepsOf(p.report, p.steps)
    ensures Logged(log, p).steps == ClosedAll(Logged(log, p).full)
  {
    assert (log.full + [p.report])[..|log.full|] == log.full;
    ClosedExactly(p.report, p.steps);
  }

  lemma {:induction false} QuotesGrow(replies: seq<Reply>, used: nat, place: nat, log: Log, p: Played)
    requires used <= place <= |replies| && Quoted(replies, log.full, used) && HearsAt(replies, place, p) && p.report.spoke
    ensures place < p.used && Quoted(replies, log.full + [p.report], p.used)
  {
    QuotedBelow(replies, log.full, used, place);
    QuotesOneMore(replies, log.full, place, p.report);
  }

  lemma {:induction false} LogGrows(c: Config, play: Player, messages: seq<Entry>, round: nat, replies: seq<Reply>,
      aborted: bool, used: nat, streak: Streak, log: Log, p: Played)
    requires used <= |replies| && LogTells(replies, used, log) && PlaysTelling(play, c, replies, aborted)
    requires p == play(messages, round, used, streak) && p.turn.Next?
    ensures LogTells(replies, p.used, Logged(log, p)) && (c.maxRounds == 0 || round < c.maxRounds)
  {
    assert RoundTells(c, messages, round, replies, aborted, used, p);
    StepsGrow(log, p);
    QuotesGrow(replies, used, if Trims(c.budget, messages, replies, used) then used + 1 else used, log, p);
  }

  lemma {:induction false} EndTells(c: Config, startRound: nat, play: Player, messages: seq<Entry>, replies: seq<Reply>,
      aborted: bool, used: nat, streak: Streak, log: Log, p: Played, course: Course)
    requires used <= |replies| && LogTells(replies, used, log) && (c.maxRounds == 0 || startRound + |log.full| <= c.maxRounds)
    requires PlaysTelling(play, c, replies, aborted) && p == play(messages, startRound + |log.full|, used, streak)
    requires course == Course(p.turn, log.full, p.report, log.rows + Written(p.report), log.steps + p.steps)
    ensures CourseTells(c, startRound, replies, aborted, course)
  {
    assert RoundTells(c, messages, startRound + |log.full|, replies, aborted, used, p);
    assert course.steps[|log.steps|..] == p.steps;
    QuotedBelow(replies, log.full, used, |replies|);
    if p.report.spoke {
      QuotesGrow(replies, used, if Trims(c.budget, messages, replies, used) then used + 1 else used, log, p);
      QuotedBelow(replies, log.full + [p.report], p.used, |replies|);
    } else {
      assert log.full + [] == log.full;
    }
  }

  lemma {:induction false} RoundsUnfold(play: Player, limit: nat, script: nat, messages: seq<Entry>, round: nat, system: Entry,
      used: nat, streak: Streak, log: Log, p: Played, course: Course) returns (next: bool)
    requires used <= script && messages != [] && (limit == 0 || round <= limit)
    requires p == play(messages[0 := system], round, used, streak)
    requires course == Rounds(play, limit, script, messages, round, system, used, streak, log)
    ensures next ==> p.turn.Next? && used < p.used <= script && p.messages != []
    ensures next ==> course == Rounds(play, limit, script, p.messages, round + 1, system, p.used, p.streak, Logged(log, p))
    ensures !next ==> course == Course(p.turn, log.full, p.report, log.rows + Written(p.report), log.steps + p.steps)
  {
    next := p.turn.Next? && used < p.used <= script && p.messages != [];
  }

  lemma {:induction false} RoundsAreTold(c: Config, startRound: nat, play: Player, replies: seq<Reply>, aborted: bool,
      messages: seq<Entry>, round: nat, system: Entry, used: nat, streak: Streak, log: Log, course: Course)
    requires used <= |replies| && messages != [] && LogTells(replies, used, log) && round == startRound + |log.full|
    requires PlaysTelling(play, c, replies, aborted) && (c.maxRounds == 0 || round <= c.maxRounds)
    requires course == Rounds(play, c.maxRounds, |replies|, messages, round, system, used, streak, log)
    ensures CourseTells(c, startRound, replies, aborted, course)
    decreases |replies| - used, 0
  {
    var ms := messages[0 := system];
    var p := play(ms, round, used, streak);
    var next := RoundsUnfold(play, c.maxRounds, |replies|, messages, round, system, used, streak, log, p, course);
    if next {
      LogGrows(c, play, ms, round, replies, aborted, used, streak, log, p);
      NextTold(c, startRound, play, replies, aborted, round, system, used, log, p, course);
    } else {
      EndTells(c, startRound, play, ms, replies, aborted, used, streak, log, p, course);
    }
  }

  lemma {:induction false} NextTold(c: Config, startRound: nat, play: Player, replies: seq<Reply>, aborted: bool,
      round: nat, system: Entry, used: nat, log: Log, p: Played, course: Course)
    requires used < p.used <= |replies| && p.messages != [] && PlaysTelling(play, c, replies, aborted)
    requires LogTells(replies, p.used, Logged(log, p)) && round == startRound + |log.full|
    requires c.maxRounds == 0 || round < c.maxRounds
    requires course == Rounds(play, c.maxRounds, |replies|, p.messages, round + 1, system, p.used, p.streak, Logged(log, p))
    ensures CourseTells(c, startRound, replies, aborted, course)
    decreases |replies| - used - 1, 1
  {
    RoundsAreTold(c, startRound, play, replies, aborted, p.messages, round + 1, system, p.used, p.streak, Logged(log, p), course);
  }

  /** The course of a loop is what its script makes it. */
  lemma {:induction false} CourseIsTold(c: Config, messages: seq<Entry>, startRound: nat, system: Entry, replies: seq<Reply>,
      aborted: bool)
    requires messages != []
    ensures CourseTells(c, startRound, replies, aborted, CourseOf(c, messages, startRound, system, replies, aborted))
  {
    if c.maxRounds == 0 || startRound <= c.maxRounds {
      var play := PlayerOf(c, replies, aborted);
      PlayerTells(c, replies, aborted);
      assert Quotes(replies, [], []);
      RoundsAreTold(c, startRound, play, replies, aborted, messages, startRound, system, 0, Streak("", 0), EMPTY,
        Rounds(play, c.maxRounds, |replies|, messages, startRound, system, 0, Streak("", 0), EMPTY));
    }
  }

  // ----- trimming ----------------------------------------------------------------------------

  /** What is kept of messages that do not fit: the first, the first summary behind it, the last four of the others. */
  ghost predicate Trimmed(ms: seq<Entry>, summary: Entry -> bool, kept: seq<Entry>)
    requires ms != []
  {
    exists found, plain :: FirstSummary(ms[1..], summary, found) && Filtered(ms[1..], plain, (e: Entry) => !summary(e))
      && kept == [ms[0]] + found + LastFour(plain)
  }

  ghost predicate FirstAt(es: seq<Entry>, summary: Entry -> bool, i: int) {
    0 <= i < |es| && summary(es[i]) && forall j :: 0 <= j < i ==> !summary(es[j])
  }

  /** The first that is a summary, if there is one. */
  ghost predicate FirstSummary(es: seq<Entry>, summary: Entry -> bool, found: seq<Entry>) {
    if found == [] then forall e :: e in es ==> !summary(e)
    else |found| == 1 && exists i :: FirstAt(es, summary, i) && found[0] == es[i]
  }

  /** The end of a list, four elements long or all of it if there are fewer. */
  function LastFour(es: seq<Entry>): (last: seq<Entry>)
    ensures |last| == (if |es| < 4 then |es| else 4) && last == es[|es| - |last|..]
  {
    if |es| <= 4 then es else es[|es| - 4..]
  }

  lemma {:induction false} FirstIsFound(es: seq<Entry>, summary: Entry -> bool)
    ensures FirstSummary(es, summary, FirstOf(es, summary))
  {
    if es != [] && !summary(es[0]) {
      var rest := es[1..];
      FirstIsFound(rest, summary);
      if FirstOf(rest, summary) != [] {
        var i :| FirstAt(rest, summary, i) && FirstOf(rest, summary)[0] == rest[i];
        assert forall j :: 0 < j < i + 1 ==> es[j] == rest[j - 1];
        assert FirstAt(es, summary, i + 1);
      }
    }
  }

  lemma {:induction false} WithoutSnoc(es: seq<Entry>, e: Entry, p: Entry -> bool)
    ensures Without(es + [e], p) == Without(es, p) + if p(e) then [] else [e]
  {
    if es == [] {
      assert [e][1..] == [];
    } else {
      WithoutSnoc(es[1..], e, p);
      assert (es + [e])[1..] == es[1..] + [e];
    }
  }

  lemma {:induction false} WithoutIsFiltered(es: seq<Entry>, p: Entry -> bool)
    ensures Filtered(es, Without(es, p), (e: Entry) => !p(e))
  {
    var keep := (e: Entry) => !p(e);
    if es == [] {
      FilteredNothing(keep);
    } else {
      var init, last := es[..|es| - 1], es[|es| - 1];
      WithoutIsFiltered(init, p);
      FilteredSnoc(init, last, Without(init, p), keep);
      WithoutSnoc(init, last, p);
      assert init + [last] == es;
    }
  }

  /** Messages that fit are left alone, others trimmed. */
  lemma {:induction false} TrimExactly(ms: seq<Entry>, b: Budget)
    ensures ms == [] || b.fits(ms) ==> Trim(ms, b) == ms
    ensures ms != [] && !b.fits(ms) ==> Trimmed(ms, b.summary, Trim(ms, b))
  {
    if ms != [] {
      FirstIsFound(ms[1..], b.summary);
      WithoutIsFiltered(ms[1..], b.summary);
      var plain := Without(ms[1..], b.summary);
      assert Trim(ms, b) == (if b.fits(ms) then ms else [ms[0]] + FirstOf(ms[1..], b.summary) + LastFour(plain));
    }
  }

  // ----- counting rounds ---------------------------------------------------------------------

  /** The count of tool rounds is that of the assistant messages with calls. */
  lemma {:induction false} RoundsAreCounted(es: seq<Entry>) returns (asking: seq<Entry>)
    ensures Filtered(es, asking, (e: Entry) => e.Asked? && e.calls != []) && |asking| == ToolRounds(es)
  {
    var keep := (e: Entry) => e.Asked? && e.calls != [];
    if es == [] {
      asking := [];
      FilteredNothing(keep);
    } else {
      var init, last := es[..|es| - 1], es[|es| - 1];
      asking := RoundsAreCounted(init);
      FilteredSnoc(init, last, asking, keep);
      asking := asking + if keep(last) then [last] else [];
      assert init + [last] == es;
    }
  }
}
