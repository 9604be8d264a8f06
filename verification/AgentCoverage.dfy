/**
  What the conversation in memory still knows of what was said: the turns it holds, and those its summary is of.

  A history runs beside the agent's state. It keeps every conversation in full, how many turns of the present one
  have been dropped, which turns each summary request was given, and which request's answer is the summary shown.
 */
module AgentCoverage {
  import opened Common
  import opened Chat
  import opened Agent
  import opened Summaries

  /** Turns `lo` to `hi` of one conversation. */
  datatype Span = Span(talk: nat, lo: nat, hi: nat)

  datatype Shown = Nothing | Loaded(checkpoint: (string, nat)) | AnswerTo(job: nat, text: string)

  datatype History = History(talks: seq<seq<Message>>, dropped: nat, spans: seq<Span>, shown: Shown)

  const START := History([[]], 0, [], Nothing)

  function Present(h: History): nat
    requires h.talks != []
  {
    |h.talks| - 1
  }

  function Said(h: History): seq<Message>
    requires h.talks != []
  {
    h.talks[Present(h)]
  }

  predicate Installs(s: State, a: Action) {
    && a.Answer? && a.job < |s.jobs| && !s.jobs[a.job].answered && s.jobs[a.job].epoch == s.epoch && a.reply.Some?
  }

  /** The history after an action that takes the agent from `s` to `t`. */
  function Followed(h: History, s: State, a: Action, t: State): History
    requires h.talks != []
  {
    match a
    case Clear => if |s.messages| > 1 then History(h.talks + [[]], 0, h.spans, Nothing) else h
    case Load(_, checkpoint, history) =>
      History(h.talks + [NonSystem(history)], 0, h.spans, if checkpoint.Some? then Loaded(checkpoint.value) else Nothing)
    case Push(m) => h.(talks := h.talks[Present(h) := Said(h) + [m]])
    case Answer(j, reply) => if Installs(s, a) then h.(shown := AnswerTo(j, reply.value)) else h
    case _ => Shortened(h, s, t)
  }

  /** Turns are dropped from the front; a new request is given what stands there. */
  function Shortened(h: History, s: State, t: State): History
    requires h.talks != []
  {
    var gone, n := |Turns(s.messages)| - |Turns(t.messages)|, |s.jobs|;
    h.(dropped := h.dropped + if gone > 0 then gone else 0,
       spans := if |t.jobs| > n then h.spans + [Span(Present(h), h.dropped, h.dropped + |t.jobs[n].compacted|)] else h.spans)
  }

  function HistoryOf(h: History, s: State, actions: seq<Action>, estimate: Estimate): History
    requires h.talks != []
    decreases |actions|
  {
    if actions == [] then h
    else
      var t := Step(s, actions[0], estimate);
      HistoryOf(Followed(h, s, actions[0], t), t, actions[1..], estimate)
  }

  // ----- the history is faithful -------------------------------------------------------------

  /** The request was given exactly the turns of its span. */
  ghost predicate GivenSpan(talks: seq<seq<Message>>, span: Span, given: seq<Message>) {
    span.talk < |talks| && span.lo <= span.hi <= |talks[span.talk]| && given == talks[span.talk][span.lo..span.hi]
  }

  ghost predicate SpansGiven(talks: seq<seq<Message>>, spans: seq<Span>, jobs: seq<Job>) {
    |spans| == |jobs| && forall j :: 0 <= j < |jobs| ==> GivenSpan(talks, spans[j], jobs[j].compacted)
  }

  function ShownPart(h: History): seq<Message> {
    match h.shown
    case Nothing => []
    case Loaded(checkpoint) => [BuildSummary(checkpoint.0, checkpoint.1)]
    case AnswerTo(j, text) =>
      if j < |h.spans| && h.spans[j].lo <= h.spans[j].hi then [BuildSummary(text, h.spans[j].hi - h.spans[j].lo)] else []
  }

  /** The list in memory is the prompt, the summary shown, and what is left of the present conversation. */
  ghost predicate Tells(h: History, s: State) {
    && h.talks != [] && h.dropped <= |Said(h)|
    && Turns(s.messages) == Said(h)[h.dropped..]
    && SpansGiven(h.talks, h.spans, s.jobs)
    && SummaryPart(s.messages) == ShownPart(h)
    && (h.shown.AnswerTo? ==> h.shown.job < |h.spans|)
  }

  /** More said, or a new conversation begun: old spans mean what they meant. */
  lemma {:induction false} SpansGrow(talks: seq<seq<Message>>, spans: seq<Span>, jobs: seq<Job>, more: seq<Message>)
    requires talks != [] && SpansGiven(talks, spans, jobs)
    ensures var n := |talks| - 1; SpansGiven(talks[n := talks[n] + more], spans, jobs)
    ensures SpansGiven(talks + [more], spans, jobs)
  {
    var n := |talks| - 1;
    forall j | 0 <= j < |jobs|
      ensures GivenSpan(talks[n := talks[n] + more], spans[j], jobs[j].compacted)
      ensures GivenSpan(talks + [more], spans[j], jobs[j].compacted)
    {
      assert GivenSpan(talks, spans[j], jobs[j].compacted);
      var span := spans[j];
      if span.talk == n {
        assert (talks[n] + more)[span.lo..span.hi] == talks[n][span.lo..span.hi];
      }
    }
  }

  lemma {:induction false} PushTells(h: History, s: State, m: Message)
    requires Shape(s) && Tells(h, s) && !IsSummary(m)
    ensures var t := s.(messages := s.messages + [m]); Tells(Followed(h, s, Push(m), t), t)
  {
    AppendTurn(s.messages, m);
    SpansGrow(h.talks, h.spans, s.jobs, [m]);
    assert (Said(h) + [m])[h.dropped..] == Said(h)[h.dropped..] + [m];
  }

  lemma {:induction false} ClearTells(h: History, s: State)
    requires Shape(s) && Tells(h, s)
    ensures var t := ClearContext(s); Tells(Followed(h, s, Clear, t), t)
  {
    SpansGrow(h.talks, h.spans, s.jobs, []);
  }

  lemma {:induction false} LoadTells(h: History, s: State, prompt: string, checkpoint: Option<(string, nat)>,
      history: seq<Message>)
    requires Shape(s) && Tells(h, s) && !IsSummary(Plain(Role.System, prompt)) && NoSummaries(history)
    ensures var t := LoadHistory(s, prompt, checkpoint, history);
      Tells(Followed(h, s, Load(prompt, checkpoint, history), t), t)
  {
    LoadHasShape(s, prompt, checkpoint, history);
    SpansGrow(h.talks, h.spans, s.jobs, NonSystem(history));
    var summary := if checkpoint.Some? then [BuildSummary(checkpoint.value.0, checkpoint.value.1)] else [];
    NonSystemIsClean(history);
    Assemble(Plain(Role.System, prompt), summary, NonSystem(history));
  }

  /** Turns go from the front only, and a new request gets what stands there. */
  ghost predicate Compacts(s: State, t: State) {
    && SummaryPart(t.messages) == SummaryPart(s.messages)
    && |Turns(t.messages)| <= |Turns(s.messages)|
    && Turns(t.messages) == Turns(s.messages)[|Turns(s.messages)| - |Turns(t.messages)|..]
    && (t.jobs == s.jobs || RequestsFront(s, t))
  }

  ghost predicate RequestsFront(s: State, t: State) {
    && |t.jobs| == |s.jobs| + 1 && t.jobs[..|s.jobs|] == s.jobs
    && t.jobs[|s.jobs|].compacted <= Turns(s.messages)
  }

  lemma {:induction false} CompactsTells(h: History, s: State, t: State)
    requires Tells(h, s) && Compacts(s, t)
    ensures Tells(Shortened(h, s, t), t)
  {
    if t.jobs != s.jobs { RequestSpan(h, s, t); }
    SpansKeepShown(h, Shortened(h, s, t));
    DropMore(Said(h), h.dropped, |Turns(s.messages)| - |Turns(t.messages)|);
  }

  lemma {:induction false} DropMore<T>(xs: seq<T>, n: nat, more: nat)
    requires n + more <= |xs|
    ensures xs[n..][more..] == xs[n + more..]
  {
  }

  lemma {:induction false} SpansKeepShown(h: History, k: History)
    requires h.shown == k.shown && h.spans <= k.spans && (h.shown.AnswerTo? ==> h.shown.job < |h.spans|)
    ensures ShownPart(k) == ShownPart(h)
  {
  }

  lemma {:induction false} RequestSpan(h: History, s: State, t: State)
    requires Tells(h, s) && RequestsFront(s, t)
    ensures var span := Span(Present(h), h.dropped, h.dropped + |t.jobs[|s.jobs|].compacted|);
      SpansGiven(h.talks, h.spans + [span], t.jobs)
  {
    var spans := h.spans + [Span(Present(h), h.dropped, h.dropped + |t.jobs[|s.jobs|].compacted|)];
    forall j | 0 <= j < |t.jobs|
      ensures GivenSpan(h.talks, spans[j], t.jobs[j].compacted)
    {
      if j < |s.jobs| {
        assert t.jobs[j] == t.jobs[..|s.jobs|][j];
        assert GivenSpan(h.talks, h.spans[j], s.jobs[j].compacted);
      }
    }
  }

  lemma {:induction false} TruncationCompacts(s: State)
    requires Shape(s)
    ensures Compacts(s, StartCompaction(s, true))
  {
    var t := StartCompaction(s, true);
    TruncationPartitions(s);
    var gone := ToCompact(NonSummary(s.messages));
    assert Turns(s.messages) == gone + Turns(t.messages);
  }

  lemma {:induction false} RequestOnly(s: State)
    requires s.messages != []
    ensures var t, plain := StartCompaction(s, false), NonSummary(s.messages);
      && t.messages == s.messages
      && (t.jobs == s.jobs || (plain != [] && t.jobs == s.jobs + [Job(s.epoch, plain[1..], false, false)]))
  {
  }

  lemma {:induction false} RequestCompacts(s: State)
    requires Shape(s)
    ensures Compacts(s, StartCompaction(s, false))
  {
    RequestOnly(s);
    PlainParts(s.messages);
    assert ([s.messages[0]] + Turns(s.messages))[1..] == Turns(s.messages);
  }

  lemma {:induction false} EvictCompacts(s: State, threshold: nat, estimate: Estimate)
    requires Shape(s) && |s.messages| > 5
    ensures Compacts(s, CascadeEvict(s, threshold, estimate))
  {
    EvictionKeepsRecent(s, threshold, estimate);
  }

  /** Nothing is requested; what was given stays. */
  lemma {:induction false} SameRequests(talks: seq<seq<Message>>, spans: seq<Span>, before: seq<Job>, after: seq<Job>)
    requires SpansGiven(talks, spans, before) && |after| == |before|
    requires forall j :: 0 <= j < |before| ==> after[j].compacted == before[j].compacted
    ensures SpansGiven(talks, spans, after)
  {
    forall j | 0 <= j < |after|
      ensures GivenSpan(talks, spans[j], after[j].compacted)
    {
      assert GivenSpan(talks, spans[j], before[j].compacted);
    }
  }

  lemma {:induction false} AnswerShown(h: History, s: State, j: nat, text: string)
    requires Tells(h, s) && j < |s.jobs|
    ensures ShownPart(h.(shown := AnswerTo(j, text))) == [BuildSummary(text, |s.jobs[j].compacted|)]
  {
    assert GivenSpan(h.talks, h.spans[j], s.jobs[j].compacted);
  }

  lemma {:induction false} InstallTells(h: History, s: State, j: nat, text: string)
    requires Shape(s) && Tells(h, s) && j < |s.jobs| && s.jobs[j].epoch == s.epoch
    ensures Tells(h.(shown := AnswerTo(j, text)), AnswerJob(s, j, Some(text)))
  {
    SameRequests(h.talks, h.spans, s.jobs, AnswerJob(s, j, Some(text)).jobs);
    InstallReplaces(s, BuildSummary(text, |s.jobs[j].compacted|));
    AnswerShown(h, s, j, text);
  }

  lemma {:induction false} AnswerTells(h: History, s: State, j: nat, reply: Option<string>, estimate: Estimate)
    requires Shape(s) && Tells(h, s)
    ensures var t := Step(s, Answer(j, reply), estimate); Tells(Followed(h, s, Answer(j, reply), t), t)
  {
    if Installs(s, Answer(j, reply)) {
      InstallTells(h, s, j, reply.value);
    } else {
      SameRequests(h.talks, h.spans, s.jobs, Step(s, Answer(j, reply), estimate).jobs);
    }
  }

  lemma {:induction false} QuietTells(h: History, s: State, a: Action, estimate: Estimate)
    requires Shape(s) && Tells(h, s) && Unmarked(a) && (a.Refresh? || a.Settle?)
    ensures var t := Step(s, a, estimate); Tells(Followed(h, s, a, t), t)
  {
    SameRequests(h.talks, h.spans, s.jobs, Step(s, a, estimate).jobs);
    if a.Refresh? { RefreshKeepsTurns(s, a.prompt); }
  }

  lemma {:induction false} CompactionTells(h: History, s: State, a: Action, estimate: Estimate)
    requires Shape(s) && Tells(h, s) && (a.Check? || a.Schedule?)
    ensures var t := Step(s, a, estimate); Tells(Shortened(h, s, t), t)
  {
    match a {
      case Check(threshold) =>
        TruncationCompacts(s);
        if |s.messages| > 5 { EvictCompacts(s, threshold, estimate); }
      case _ => RequestCompacts(s);
    }
    NothingCompacts(s);
    CompactsTells(h, s, Step(s, a, estimate));
  }

  lemma {:induction false} NothingCompacts(s: State)
    ensures Compacts(s, s)
  {
  }

  lemma {:induction false} StepTells(h: History, s: State, a: Action, estimate: Estimate)
    requires Shape(s) && Tells(h, s) && Unmarked(a) && !a.Heal?
    ensures Tells(Followed(h, s, a, Step(s, a, estimate)), Step(s, a, estimate))
  {
    match a {
      case Push(m) => PushTells(h, s, m);
      case Clear => ClearTells(h, s);
      case Load(prompt, checkpoint, history) => LoadTells(h, s, prompt, checkpoint, history);
      case Answer(j, reply) => AnswerTells(h, s, j, reply, estimate);
      case Check(_) => CompactionTells(h, s, a, estimate);
      case Schedule(_) => CompactionTells(h, s, a, estimate);
      case _ => QuietTells(h, s, a, estimate);
    }
  }

  ghost predicate Plainly(actions: seq<Action>) {
    AllUnmarked(actions) && forall k :: 0 <= k < |actions| ==> !actions[k].Heal?
  }

  lemma {:induction false} RunTells(h: History, s: State, actions: seq<Action>, estimate: Estimate)
    requires Shape(s) && Tells(h, s) && Plainly(actions)
    ensures Shape(Run(s, actions, estimate)) && Tells(HistoryOf(h, s, actions, estimate), Run(s, actions, estimate))
    decreases |actions|
  {
    if actions != [] {
      var t := Step(s, actions[0], estimate);
      StepTells(h, s, actions[0], estimate);
      StepKeepsShape(s, actions[0], estimate);
      RunTells(Followed(h, s, actions[0], t), t, actions[1..], estimate);
    }
  }

  /** The summary shown is one message that tells the checkpoint's text, or the answer's, about the turns of its span. */
  ghost predicate TellsShown(h: History) {
    match h.shown
    case Nothing => ShownPart(h) == []
    case Loaded(checkpoint) => |ShownPart(h)| == 1 && Summarises(ShownPart(h)[0], checkpoint.0, checkpoint.1)
    case AnswerTo(j, text) =>
      |ShownPart(h)| == 1 && j < |h.spans| && h.spans[j].lo <= h.spans[j].hi
      && Summarises(ShownPart(h)[0], text, h.spans[j].hi - h.spans[j].lo)
  }

  /**
    Over every run from the start without healing: memory is the prompt, then the summary shown, then what is left
    of the present conversation; and each request was given exactly the turns of its span.
   */
  lemma {:induction false} MemoryTells(prompt: string, actions: seq<Action>, estimate: Estimate)
    requires !IsSummary(Plain(Role.System, prompt)) && Plainly(actions)
    ensures var s, h := Run(Fresh(prompt), actions, estimate), HistoryOf(START, Fresh(prompt), actions, estimate);
      && h.talks != [] && h.dropped <= |Said(h)|
      && s.messages == [Plain(Role.System, s.prompt)] + ShownPart(h) + Said(h)[h.dropped..]
      && TellsShown(h)
      && SpansGiven(h.talks, h.spans, s.jobs)
  {
    RunTells(START, Fresh(prompt), actions, estimate);
    Disassemble(Run(Fresh(prompt), actions, estimate).messages);
    var h := HistoryOf(START, Fresh(prompt), actions, estimate);
    if h.shown.Loaded? { SummaryTells(h.shown.checkpoint.0, h.shown.checkpoint.1); }
    if h.shown.AnswerTo? {
      assert GivenSpan(h.talks, h.spans[h.shown.job], Run(Fresh(prompt), actions, estimate).jobs[h.shown.job].compacted);
      SummaryTells(h.shown.text, h.spans[h.shown.job].hi - h.spans[h.shown.job].lo);
    }
  }

  // ----- what is known, and what is lost -----------------------------------------------------

  predicate Covers(h: History, j: nat, i: nat)
    requires h.talks != []
  {
    j < |h.spans| && h.spans[j].talk == Present(h) && h.spans[j].lo <= i < h.spans[j].hi
  }

  /** Turn `i` of the present conversation is in memory, or the summary shown was made of it. */
  predicate Known(h: History, i: nat)
    requires h.talks != []
  {
    h.dropped <= i || (h.shown.AnswerTo? && Covers(h, h.shown.job, i))
  }

  /** A request that was given the turn is still to be answered, and its answer will count. */
  ghost predicate Coming(h: History, s: State, i: nat)
    requires h.talks != []
  {
    exists j :: 0 <= j < |s.jobs| && Open(s, j) && Covers(h, j, i)
  }

  predicate Open(s: State, j: nat) {
    j < |s.jobs| && !s.jobs[j].answered && s.jobs[j].epoch == s.epoch
  }

  ghost predicate Forgotten(h: History, s: State, i: nat) {
    h.talks != [] && |h.spans| == |s.jobs| && i < |Said(h)| && !Known(h, i) && !Coming(h, s, i)
  }

  lemma {:induction false} CompactionForgets(h: History, s: State, t: State, i: nat)
    requires Forgotten(h, s, i) && Compacts(s, t) && t.epoch == s.epoch
    ensures Forgotten(Shortened(h, s, t), t, i)
  {
    var k := Shortened(h, s, t);
    forall j | 0 <= j < |t.jobs| && Open(t, j)
      ensures !Covers(k, j, i)
    {
      if j < |s.jobs| {
        assert t.jobs[j] == t.jobs[..|s.jobs|][j] && Open(s, j);
        assert !Covers(h, j, i);
      }
    }
  }

  lemma {:induction false} AnswerForgets(h: History, s: State, j: nat, reply: Option<string>, i: nat, estimate: Estimate)
    requires Forgotten(h, s, i)
    ensures var t := Step(s, Answer(j, reply), estimate); Forgotten(Followed(h, s, Answer(j, reply), t), t, i)
  {
    var t := Step(s, Answer(j, reply), estimate);
    assert Installs(s, Answer(j, reply)) ==> Open(s, j);
    forall x | 0 <= x < |t.jobs| && Open(t, x)
      ensures !Covers(h, x, i)
    {
      assert Open(s, x);
    }
  }

  lemma {:induction false} StepCompacts(s: State, a: Action, estimate: Estimate)
    requires Shape(s) && Unmarked(a) && (a.Refresh? || a.Check? || a.Schedule?)
    ensures Compacts(s, Step(s, a, estimate)) && Step(s, a, estimate).epoch == s.epoch
  {
    NothingCompacts(s);
    match a {
      case Check(threshold) =>
        TruncationCompacts(s);
        if |s.messages| > 5 { EvictCompacts(s, threshold, estimate); }
      case Schedule(_) => RequestCompacts(s);
      case Refresh(prompt) => RefreshKeepsTurns(s, prompt);
      case _ =>
    }
  }

  lemma {:induction false} StepForgets(h: History, s: State, a: Action, i: nat, estimate: Estimate)
    requires Shape(s) && Forgotten(h, s, i) && Unmarked(a) && Conversing(a)
    ensures Forgotten(Followed(h, s, a, Step(s, a, estimate)), Step(s, a, estimate), i)
  {
    var t := Step(s, a, estimate);
    match a {
      case Push(m) =>
        forall j | 0 <= j < |t.jobs| && Open(t, j) ensures !Covers(h, j, i) { assert Open(s, j); }
      case Answer(j, reply) => AnswerForgets(h, s, j, reply, i, estimate);
      case Settle(_) =>
        forall j | 0 <= j < |t.jobs| && Open(t, j) ensures !Covers(h, j, i) { assert Open(s, j); }
      case _ =>
        StepCompacts(s, a, estimate);
        CompactionForgets(h, s, t, i);
    }
  }

  lemma {:induction false} RunForgets(h: History, s: State, later: seq<Action>, i: nat, estimate: Estimate)
    requires Shape(s) && Forgotten(h, s, i) && AllUnmarked(later) && AllConversing(later)
    ensures Forgotten(HistoryOf(h, s, later, estimate), Run(s, later, estimate), i)
    decreases |later|
  {
    if later != [] {
      OneByOne(later);
      var t := Step(s, later[0], estimate);
      StepForgets(h, s, later[0], i, estimate);
      StepKeepsShape(s, later[0], estimate);
      RunForgets(Followed(h, s, later[0], t), t, later[1..], i, estimate);
    }
  }

  ghost predicate KnownAfter(h: History, s: State, later: seq<Action>, i: nat, estimate: Estimate)
    requires h.talks != []
  {
    AllUnmarked(later) && AllConversing(later)
    && var k := HistoryOf(h, s, later, estimate); k.talks != [] && Known(k, i)
  }

  /**
    A turn that was said is known now or at some later point of the conversation exactly if memory holds it, the
    summary shown was made of it, or an open request was given it. Every other turn is lost for good, whether
    truncation, eviction or a later summary took it.
   */
  lemma {:induction false} KnownExactly(h: History, s: State, i: nat, estimate: Estimate)
    requires Shape(s) && Tells(h, s) && i < |Said(h)|
    ensures (exists later: seq<Action> :: KnownAfter(h, s, later, i, estimate)) <==> Known(h, i) || Coming(h, s, i)
  {
    if Known(h, i) {
      assert KnownAfter(h, s, [], i, estimate);
    } else if Coming(h, s, i) {
      var j :| 0 <= j < |s.jobs| && Open(s, j) && Covers(h, j, i);
      AnswerRecalls(h, s, j, i, estimate);
    } else {
      forall later: seq<Action>
        ensures !KnownAfter(h, s, later, i, estimate)
      {
        if AllUnmarked(later) && AllConversing(later) { RunForgets(h, s, later, i, estimate); }
      }
    }
  }

  lemma {:induction false} AnswerRecalls(h: History, s: State, j: nat, i: nat, estimate: Estimate)
    requires h.talks != [] && Open(s, j) && Covers(h, j, i)
    ensures KnownAfter(h, s, [Answer(j, Some(""))], i, estimate)
  {
    var a := Answer(j, Some(""));
    var t := Step(s, a, estimate);
    assert [a][1..] == [];
    assert HistoryOf(h, s, [a], estimate) == HistoryOf(Followed(h, s, a, t), t, [], estimate);
  }

  /** All that was said is known exactly if nothing was dropped or one request was given all that was. */
  lemma {:induction false} AllKnownExactly(h: History)
    requires h.talks != [] && h.dropped <= |Said(h)|
    ensures (forall i: nat :: i < |Said(h)| ==> Known(h, i)) <==>
      (h.dropped == 0 || (h.shown.AnswerTo? && Covers(h, h.shown.job, 0) && Covers(h, h.shown.job, h.dropped - 1)))
  {
    if h.dropped > 0 && forall i: nat :: i < |Said(h)| ==> Known(h, i) {
      assert Known(h, 0) && Known(h, h.dropped - 1);
    }
  }

  // ----- a second summary forgets the first --------------------------------------------------

  ghost predicate Reached(prompt: string, estimate: Estimate, h: History, s: State) {
    exists actions :: ReachedBy(prompt, estimate, actions, h, s)
  }

  ghost predicate ReachedBy(prompt: string, estimate: Estimate, actions: seq<Action>, h: History, s: State) {
    Plainly(actions) && s == Run(Fresh(prompt), actions, estimate) && h == HistoryOf(START, Fresh(prompt), actions, estimate)
  }

  lemma {:induction false} HistorySnoc(h: History, s: State, actions: seq<Action>, a: Action, estimate: Estimate)
    requires h.talks != []
    ensures var k, t := HistoryOf(h, s, actions, estimate), Run(s, actions, estimate);
      && k.talks != []
      && Run(s, actions + [a], estimate) == Step(t, a, estimate)
      && HistoryOf(h, s, actions + [a], estimate) == Followed(k, t, a, Step(t, a, estimate))
    decreases |actions|
  {
    if actions == [] {
      assert [a][1..] == [] && [] + [a] == [a];
    } else {
      assert (actions + [a])[0] == actions[0] && (actions + [a])[1..] == actions[1..] + [a];
      var t := Step(s, actions[0], estimate);
      HistorySnoc(Followed(h, s, actions[0], t), t, actions[1..], a, estimate);
    }
  }

  lemma {:induction false} ReachStep(prompt: string, estimate: Estimate, h: History, s: State, a: Action)
    requires Reached(prompt, estimate, h, s) && Unmarked(a) && !a.Heal?
    ensures h.talks != [] && Reached(prompt, estimate, Followed(h, s, a, Step(s, a, estimate)), Step(s, a, estimate))
  {
    var actions :| ReachedBy(prompt, estimate, actions, h, s);
    HistorySnoc(START, Fresh(prompt), actions, a, estimate);
    assert ReachedBy(prompt, estimate, actions + [a], Followed(h, s, a, Step(s, a, estimate)), Step(s, a, estimate));
  }

  predicate AllAnswered(s: State) {
    forall j | 0 <= j < |s.jobs| :: s.jobs[j].answered
  }

  lemma {:induction false} TruncationStarts(s: State, threshold: nat, estimate: Estimate)
    requires Shape(s) && !s.compacting && estimate(s.messages) > threshold && |Turns(s.messages)| > KEEP_RECENT
    ensures var t, n := Step(s, Check(threshold), estimate), |s.jobs|;
      && t.epoch == s.epoch && |t.jobs| == n + 1 && t.jobs[..n] == s.jobs && Open(t, n) && !t.jobs[n].settled
      && |Turns(t.messages)| == KEEP_RECENT && |t.jobs[n].compacted| == |Turns(s.messages)| - KEEP_RECENT
  {
    CheckStartsJob(s, estimate, threshold);
    TruncationPartitions(s);
    assert Step(s, Check(threshold), estimate) == StartCompaction(s, true);
  }

  lemma {:induction false} CheckShortens(h: History, s: State, threshold: nat, t: State)
    requires h.talks != []
    ensures Followed(h, s, Check(threshold), t) == Shortened(h, s, t)
  {
  }

  lemma {:induction false} ShortenedIs(h: History, s: State, t: State)
    requires h.talks != [] && |t.jobs| == |s.jobs| + 1
    requires |t.jobs[|s.jobs|].compacted| == |Turns(s.messages)| - |Turns(t.messages)|
    ensures var gone := |t.jobs[|s.jobs|].compacted|;
      Shortened(h, s, t) == h.(dropped := h.dropped + gone, spans := h.spans + [Span(Present(h), h.dropped, h.dropped + gone)])
  {
  }

  /** A truncation, and the history after it. */
  lemma {:induction false} TruncationFollowed(h: History, s: State, threshold: nat, estimate: Estimate)
    requires Shape(s) && h.talks != [] && !s.compacting && estimate(s.messages) > threshold
    requires |Turns(s.messages)| > KEEP_RECENT
    ensures var gone := |Turns(s.messages)| - KEEP_RECENT;
      Followed(h, s, Check(threshold), Step(s, Check(threshold), estimate))
        == h.(dropped := h.dropped + gone, spans := h.spans + [Span(Present(h), h.dropped, h.dropped + gone)])
  {
    var t := Step(s, Check(threshold), estimate);
    TruncationStarts(s, threshold, estimate);
    CheckShortens(h, s, threshold, t);
    ShortenedIs(h, s, t);
  }

  /** The answer to the last open request forgets what lies before its span. */
  lemma {:induction false} LastAnswerForgets(h: History, s: State, n: nat, text: string, i: nat, estimate: Estimate)
    requires h.talks != [] && |h.spans| == |s.jobs| == n + 1 && Open(s, n) && h.dropped <= |Said(h)|
    requires i < h.dropped && i < h.spans[n].lo && forall j :: 0 <= j < n ==> s.jobs[j].answered
    ensures var t := Step(s, Answer(n, Some(text)), estimate);
      var k := Followed(h, s, Answer(n, Some(text)), t);
      Forgotten(k, t, i) && k.shown == AnswerTo(n, text) && AllAnswered(t)
  {
  }

  /**
    Once every request is answered, the next summary forgets all that was dropped before it, and with that all
    that the summary it replaces had told.
   */
  lemma {:induction false} NextSummaryForgets(h: History, s: State, threshold: nat, text: string, i: nat, estimate: Estimate)
    requires Shape(s) && Tells(h, s) && !s.compacting && estimate(s.messages) > threshold && |Turns(s.messages)| > KEEP_RECENT
    requires AllAnswered(s) && i < h.dropped
    ensures var t, a := Step(s, Check(threshold), estimate), Answer(|s.jobs|, Some(text));
      var u := Step(t, a, estimate);
      var k := Followed(Followed(h, s, Check(threshold), t), t, a, u);
      Forgotten(k, u, i) && k.shown == AnswerTo(|s.jobs|, text) && AllAnswered(u)
  {
    TruncationStarts(s, threshold, estimate);
    TruncationFollowed(h, s, threshold, estimate);
    var t := Step(s, Check(threshold), estimate);
    forall j | 0 <= j < |s.jobs| ensures t.jobs[j].answered {
      assert t.jobs[j] == t.jobs[..|s.jobs|][j];
    }
    LastAnswerForgets(Followed(h, s, Check(threshold), t), t, |s.jobs|, text, i, estimate);
  }

  lemma {:induction false} ReachedTells(prompt: string, estimate: Estimate, h: History, s: State)
    requires !IsSummary(Plain(Role.System, prompt)) && Reached(prompt, estimate, h, s)
    ensures Shape(s) && Tells(h, s)
  {
    var actions :| ReachedBy(prompt, estimate, actions, h, s);
    RunTells(START, Fresh(prompt), actions, estimate);
  }

  lemma {:induction false} ReachPushes(prompt: string, estimate: Estimate, h: History, s: State, m: Message, n: nat)
      returns (k: History, t: State)
    requires !IsSummary(Plain(Role.System, prompt)) && Reached(prompt, estimate, h, s) && !IsSummary(m)
    ensures Reached(prompt, estimate, k, t) && t == s.(messages := t.messages) && k == h.(talks := k.talks)
    ensures |Turns(t.messages)| == |Turns(s.messages)| + n
  {
    if n == 0 {
      k, t := h, s;
    } else {
      var before, u := ReachPushes(prompt, estimate, h, s, m, n - 1);
      ReachedTells(prompt, estimate, before, u);
      ReachStep(prompt, estimate, before, u, Push(m));
      AppendTurn(u.messages, m);
      t := Step(u, Push(m), estimate);
      k := Followed(before, u, Push(m), t);
    }
  }

  lemma {:induction false} AnswerLeaves(s: State, n: nat, text: string, estimate: Estimate)
    requires Shape(s) && |s.jobs| == n + 1 && Open(s, n) && !s.jobs[n].settled
    requires forall j :: 0 <= j < n ==> s.jobs[j].answered
    ensures var t := Step(s, Answer(n, Some(text)), estimate);
      AllAnswered(t) && |t.jobs| == n + 1 && !t.jobs[n].settled && Turns(t.messages) == Turns(s.messages)
  {
    InstallReplaces(s, BuildSummary(text, |s.jobs[n].compacted|));
  }

  /** Truncated and summarised: four turns are left, and every request is answered. */
  lemma {:induction false} SummaryLeaves(s: State, text: string, estimate: Estimate)
    requires Shape(s) && !s.compacting && estimate(s.messages) > 0 && |Turns(s.messages)| > KEEP_RECENT && AllAnswered(s)
    ensures var t, n := Step(s, Check(0), estimate), |s.jobs|;
      var u := Step(t, Answer(n, Some(text)), estimate);
      AllAnswered(u) && |u.jobs| == n + 1 && !u.jobs[n].settled && |Turns(u.messages)| == KEEP_RECENT
  {
    var t, n := Step(s, Check(0), estimate), |s.jobs|;
    TruncationStarts(s, 0, estimate);
    StepKeepsShape(s, Check(0), estimate);
    forall j | 0 <= j < n ensures t.jobs[j].answered {
      assert t.jobs[j] == t.jobs[..n][j];
    }
    AnswerLeaves(t, n, text, estimate);
  }

  lemma {:induction false} ReachSummary(prompt: string, estimate: Estimate, h: History, s: State, text: string)
      returns (k: History, u: State)
    requires !IsSummary(Plain(Role.System, prompt)) && Reached(prompt, estimate, h, s)
    requires !s.compacting && estimate(s.messages) > 0 && |Turns(s.messages)| > KEEP_RECENT && AllAnswered(s)
    ensures var t, a := Step(s, Check(0), estimate), Answer(|s.jobs|, Some(text));
      && h.talks != [] && u == Step(t, a, estimate) && k == Followed(Followed(h, s, Check(0), t), t, a, u)
    ensures Reached(prompt, estimate, k, u) && AllAnswered(u) && |u.jobs| == |s.jobs| + 1 && !u.jobs[|s.jobs|].settled
    ensures |Turns(u.messages)| == KEEP_RECENT && k.dropped == h.dropped + |Turns(s.messages)| - KEEP_RECENT
  {
    ReachedTells(prompt, estimate, h, s);
    TruncationFollowed(h, s, 0, estimate);
    SummaryLeaves(s, text, estimate);
    ReachStep(prompt, estimate, h, s, Check(0));
    var t, a := Step(s, Check(0), estimate), Answer(|s.jobs|, Some(text));
    var middle := Followed(h, s, Check(0), t);
    ReachStep(prompt, estimate, middle, t, a);
    u := Step(t, a, estimate);
    k := Followed(middle, t, a, u);
  }

  lemma {:induction false} SettleIsQuiet(h: History, s: State, j: nat, estimate: Estimate)
    requires h.talks != [] && j < |s.jobs| && !s.jobs[j].settled && AllAnswered(s)
    ensures var t := Step(s, Settle(j), estimate);
      && Followed(h, s, Settle(j), t) == h && t.messages == s.messages && !t.compacting
      && AllAnswered(t) && |t.jobs| == |s.jobs|
  {
  }

  lemma {:induction false} OneSummary(prompt: string, m: Message, text: string, estimate: Estimate)
      returns (h: History, s: State)
    requires !IsSummary(Plain(Role.System, prompt)) && !IsSummary(m) && forall ms :: ms != [] ==> estimate(ms) > 0
    ensures Reached(prompt, estimate, h, s) && !s.compacting && AllAnswered(s) && |s.jobs| == 1
    ensures h.dropped == 2 && |Turns(s.messages)| == KEEP_RECENT + 3
  {
    assert ReachedBy(prompt, estimate, [], START, Fresh(prompt));
    h, s := ReachPushes(prompt, estimate, START, Fresh(prompt), m, 6);
    h, s := ReachSummary(prompt, estimate, h, s, text);
    ReachStep(prompt, estimate, h, s, Settle(0));
    SettleIsQuiet(h, s, 0, estimate);
    s := Step(s, Settle(0), estimate);
    h, s := ReachPushes(prompt, estimate, h, s, m, 3);
  }

  /** From the start: two truncations, both summarised, and the first turns are lost for good. */
  lemma {:induction false} SecondSummaryForgets(prompt: string, m: Message, first: string, second: string, estimate: Estimate)
      returns (h: History, s: State)
    requires !IsSummary(Plain(Role.System, prompt)) && !IsSummary(m) && forall ms :: ms != [] ==> estimate(ms) > 0
    ensures Reached(prompt, estimate, h, s) && AllAnswered(s) && h.shown == AnswerTo(1, second)
    ensures Forgotten(h, s, 0) && Forgotten(h, s, 1)
  {
    h, s := OneSummary(prompt, m, first, estimate);
    ReachedTells(prompt, estimate, h, s);
    NextSummaryForgets(h, s, 0, second, 0, estimate);
    NextSummaryForgets(h, s, 0, second, 1, estimate);
    h, s := ReachSummary(prompt, estimate, h, s, second);
  }
}
