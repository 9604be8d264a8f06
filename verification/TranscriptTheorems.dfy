/** What the rebuilt conversation guarantees, and what a recovery leaves behind. */
module TranscriptTheorems {
  import opened Common
  import opened Journal
  import opened HarnessStore
  import opened Transcript

  // ----- the shape of a run's messages -------------------------------------------------------

  /** The calls asked for by the nearest message that is no tool message. */
  function Lead(es: seq<Entry>): seq<string> {
    if es == [] then []
    else
      var last := es[|es| - 1];
      if last.Replied? then Lead(es[..|es| - 1]) else if last.Asked? then last.calls else []
  }

  function CallIds(es: seq<Entry>): seq<string> {
    if es == [] then []
    else CallIds(es[..|es| - 1]) + (if es[|es| - 1].Asked? then es[|es| - 1].calls else [])
  }

  ghost predicate HasReply(es: seq<Entry>, id: string) {
    exists i :: 0 <= i < |es| && es[i].Replied? && es[i].id == id
  }

  /** A placeholder without a final answer. */
  ghost predicate OpenAt(es: seq<Entry>, i: nat) {
    i < |es| && es[i].body.Waiting? && !Answered(es, es[i])
  }

  ghost predicate HasOpen(es: seq<Entry>) {
    exists i: nat :: OpenAt(es, i)
  }

  ghost predicate NewIds(calls: seq<string>, before: seq<Entry>) {
    && (forall i :: 0 <= i < |calls| ==> calls[i] != "" && calls[i] !in CallIds(before))
    && (forall i, j :: 0 <= i < j < |calls| ==> calls[i] != calls[j])
  }

  /** A row a run may append: ids are unique, and no one speaks before the approvals of the last round are through. */
  ghost predicate Fits(before: seq<Entry>, e: Entry) {
    match e
    case Said(_, body) => !body.Waiting? && !HasOpen(before)
    case Asked(body, calls) => !body.Waiting? && !HasOpen(before) && NewIds(calls, before)
    case Replied(_, id, body) =>
      id in Lead(before) && (if body.Waiting? then !HasReply(before, id) else !HasFinal(before, id))
  }

  ghost predicate WellFormed(es: seq<Entry>) {
    es == [] || (WellFormed(es[..|es| - 1]) && Fits(es[..|es| - 1], es[|es| - 1]))
  }

  /** A tool message answers the nearest message before it that is none; a call id is asked for once. */
  ghost predicate Linked(before: seq<Entry>, e: Entry) {
    match e
    case Said(_, _) => true
    case Asked(_, calls) => forall i :: 0 <= i < |calls| ==> calls[i] !in CallIds(before)
    case Replied(_, id, _) => id in Lead(before)
  }

  ghost predicate Anchored(es: seq<Entry>) {
    forall k :: 0 <= k < |es| ==> Linked(es[..k], es[k])
  }

  lemma {:induction false} AnchoredSnoc(es: seq<Entry>, e: Entry)
    requires Anchored(es) && Linked(es, e)
    ensures Anchored(es + [e])
  {
    var longer := es + [e];
    forall k | 0 <= k < |longer|
      ensures Linked(longer[..k], longer[k])
    {
      if k < |es| { assert longer[..k] == es[..k]; } else { assert longer[..k] == es; }
    }
  }

  lemma {:induction false} LeadSnoc(es: seq<Entry>, e: Entry)
    ensures Lead(es + [e]) == if e.Replied? then Lead(es) else if e.Asked? then e.calls else []
    ensures CallIds(es + [e]) == CallIds(es) + if e.Asked? then e.calls else []
  {
  }

  // ----- the rebuilt conversation ------------------------------------------------------------

  function RowFate(e: Entry, all: seq<Entry>, d: Db): Fate {
    FateOf(e, Answered(all, e), d)
  }

  lemma {:induction false} RebuildStep(rows: seq<Entry>, all: seq<Entry>, d: Db)
    requires rows != []
    ensures var last, r := rows[|rows| - 1], Rebuild(rows[..|rows| - 1], all, d);
      var fate := RowFate(last, all, d);
      && Rebuild(rows, all, d).messages == r.messages + Shown(last, fate)
      && Rebuild(rows, all, d).persist == r.persist + Replacement(last, fate)
      && (Rebuild(rows, all, d).pending == [] <==> r.pending == [] && !fate.StillOpen?)
  {
  }

  /** No placeholder is left, whatever the rows. */
  lemma {:induction false} NoPlaceholder(rows: seq<Entry>, all: seq<Entry>, d: Db)
    ensures forall e :: e in Rebuild(rows, all, d).messages ==> !e.body.Waiting?
    ensures forall e :: e in Rebuild(rows, all, d).persist ==> e.Replied? && !e.body.Waiting?
  {
    if rows != [] {
      NoPlaceholder(rows[..|rows| - 1], all, d);
    }
  }

  function Speakers(es: seq<Entry>): seq<Entry> {
    if es == [] then []
    else Speakers(es[..|es| - 1]) + (if es[|es| - 1].Replied? then [] else [es[|es| - 1]])
  }

  lemma {:induction false} SpeakersSnoc(es: seq<Entry>, e: Entry)
    ensures Speakers(es + [e]) == Speakers(es) + if e.Replied? then [] else [e]
  {
  }

  ghost predicate Plainspoken(es: seq<Entry>) {
    forall i :: 0 <= i < |es| && es[i].body.Waiting? ==> es[i].Replied?
  }

  lemma {:induction false} OnlyToolsWait(es: seq<Entry>)
    requires WellFormed(es)
    ensures Plainspoken(es)
  {
    if es != [] {
      OnlyToolsWait(es[..|es| - 1]);
    }
  }

  /** One row shows one message of its own kind and id at most; only a tool message can vanish. */
  lemma {:induction false} RowShows(e: Entry, fate: Fate)
    requires !e.Replied? ==> fate.Kept?
    ensures if e.Replied? then |Shown(e, fate)| <= 1 && forall m :: m in Shown(e, fate) ==> m.Replied? && m.id == e.id
            else Shown(e, fate) == [e]
  {
  }

  lemma {:induction false} Append(es: seq<Entry>, more: seq<Entry>)
    requires |more| <= 1
    ensures more != [] ==> es + more == es + [more[0]]
    ensures more == [] ==> es + more == es
  {
  }

  lemma {:induction false} LeadSurvives(rows: seq<Entry>, all: seq<Entry>, d: Db)
    requires Plainspoken(rows)
    ensures Lead(Rebuild(rows, all, d).messages) == Lead(rows)
  {
    if rows != [] {
      var init, last := rows[..|rows| - 1], rows[|rows| - 1];
      LeadSurvives(init, all, d);
      RebuildStep(rows, all, d);
      var before, shown := Rebuild(init, all, d).messages, Shown(last, RowFate(last, all, d));
      RowShows(last, RowFate(last, all, d));
      Append(before, shown);
      if shown != [] { LeadSnoc(before, shown[0]); }
    }
  }

  lemma {:induction false} CallIdsSurvive(rows: seq<Entry>, all: seq<Entry>, d: Db)
    requires Plainspoken(rows)
    ensures CallIds(Rebuild(rows, all, d).messages) == CallIds(rows)
  {
    if rows != [] {
      var init, last := rows[..|rows| - 1], rows[|rows| - 1];
      CallIdsSurvive(init, all, d);
      RebuildStep(rows, all, d);
      var before, shown := Rebuild(init, all, d).messages, Shown(last, RowFate(last, all, d));
      RowShows(last, RowFate(last, all, d));
      Append(before, shown);
      if shown != [] { LeadSnoc(before, shown[0]); }
    }
  }

  /** Every message that is no tool message survives, in order and unchanged. */
  lemma {:induction false} SpeakersSurvive(rows: seq<Entry>, all: seq<Entry>, d: Db)
    requires Plainspoken(rows)
    ensures Speakers(Rebuild(rows, all, d).messages) == Speakers(rows)
  {
    if rows != [] {
      var init, last := rows[..|rows| - 1], rows[|rows| - 1];
      SpeakersSurvive(init, all, d);
      RebuildStep(rows, all, d);
      var before, shown := Rebuild(init, all, d).messages, Shown(last, RowFate(last, all, d));
      RowShows(last, RowFate(last, all, d));
      Append(before, shown);
      if shown != [] { SpeakersSnoc(before, shown[0]); }
    }
  }

  lemma {:induction false} FitsLinks(before: seq<Entry>, init: seq<Entry>, last: Entry, e: Entry)
    requires Fits(init, last) && Lead(before) == Lead(init) && CallIds(before) == CallIds(init)
    requires if last.Replied? then e.Replied? && e.id == last.id else e == last
    ensures Linked(before, e)
  {
  }

  /** Every tool message stays behind the message whose call it answers. */
  lemma {:induction false} StaysAnchored(rows: seq<Entry>, all: seq<Entry>, d: Db)
    requires WellFormed(rows)
    ensures Anchored(Rebuild(rows, all, d).messages)
  {
    if rows != [] {
      var init, last := rows[..|rows| - 1], rows[|rows| - 1];
      StaysAnchored(init, all, d);
      OnlyToolsWait(rows);
      LeadSurvives(init, all, d);
      CallIdsSurvive(init, all, d);
      RebuildStep(rows, all, d);
      var before, shown := Rebuild(init, all, d).messages, Shown(last, RowFate(last, all, d));
      RowShows(last, RowFate(last, all, d));
      Append(before, shown);
      if shown != [] {
        FitsLinks(before, init, last, shown[0]);
        AnchoredSnoc(before, shown[0]);
      }
    }
  }

  // ----- exactly one answer ------------------------------------------------------------------

  function Replies(es: seq<Entry>, id: string): nat {
    if es == [] then 0
    else Replies(es[..|es| - 1], id) + (if es[|es| - 1].Replied? && es[|es| - 1].id == id then 1 else 0)
  }

  function Placeholders(es: seq<Entry>, id: string): nat {
    if es == [] then 0
    else
      var last := es[|es| - 1];
      Placeholders(es[..|es| - 1], id) + (if last.Replied? && last.id == id && last.body.Waiting? then 1 else 0)
  }

  lemma {:induction false} RepliesSnoc(es: seq<Entry>, e: Entry, id: string)
    ensures Replies(es + [e], id) == Replies(es, id) + if e.Replied? && e.id == id then 1 else 0
  {
  }

  /** What one row contributes to the answers of a call, when it is not pending. */
  lemma {:induction false} RowCounts(before: seq<Entry>, e: Entry, all: seq<Entry>, d: Db, id: string)
    requires id != "" && !RowFate(e, all, d).StillOpen? && (e.body.Waiting? ==> e.Replied?)
    ensures Replies(before + Shown(e, RowFate(e, all, d)), id) == Replies(before, id)
      + if e.Replied? && e.id == id && !(e.body.Waiting? && HasFinal(all, id)) then 1 else 0
  {
    var shown := Shown(e, RowFate(e, all, d));
    Append(before, shown);
    if shown != [] { RepliesSnoc(before, shown[0], id); }
  }

  /** With nothing pending, an id loses exactly its placeholders that have a final answer elsewhere. */
  lemma {:induction false} RebuildCounts(rows: seq<Entry>, all: seq<Entry>, d: Db, id: string)
    requires Plainspoken(rows) && Rebuild(rows, all, d).pending == [] && id != ""
    ensures Placeholders(rows, id) <= Replies(rows, id)
    ensures Replies(Rebuild(rows, all, d).messages, id)
         == Replies(rows, id) - if HasFinal(all, id) then Placeholders(rows, id) else 0
  {
    if rows != [] {
      var init, last := rows[..|rows| - 1], rows[|rows| - 1];
      RebuildStep(rows, all, d);
      RebuildCounts(init, all, d, id);
      RowCounts(Rebuild(init, all, d).messages, last, all, d, id);
    }
  }

  lemma {:induction false} HasReplySnoc(es: seq<Entry>, id: string)
    requires es != []
    ensures HasReply(es, id) <==>
      HasReply(es[..|es| - 1], id) || (es[|es| - 1].Replied? && es[|es| - 1].id == id)
    ensures HasFinal(es, id) <==> HasFinal(es[..|es| - 1], id) || IsFinal(es[|es| - 1], id)
  {
  }

  /** In a well-formed list an id has one placeholder at most and one final answer at most. */
  lemma {:induction false} StoredCounts(rows: seq<Entry>, id: string)
    requires WellFormed(rows) && id != ""
    ensures Placeholders(rows, id) <= 1
    ensures Replies(rows, id) == Placeholders(rows, id) + if HasFinal(rows, id) then 1 else 0
    ensures HasReply(rows, id) <==> Replies(rows, id) > 0
  {
    if rows != [] {
      StoredCounts(rows[..|rows| - 1], id);
      HasReplySnoc(rows, id);
    }
  }

  /** A call that has a row gets exactly one answer, a call that has none gets none. */
  lemma {:induction false} OneAnswer(rows: seq<Entry>, d: Db, id: string)
    requires WellFormed(rows) && Rebuild(rows, rows, d).pending == [] && id != ""
    ensures Replies(Rebuild(rows, rows, d).messages, id) == if HasReply(rows, id) then 1 else 0
  {
    OnlyToolsWait(rows);
    RebuildCounts(rows, rows, d, id);
    StoredCounts(rows, id);
  }

  // ----- before the next message -------------------------------------------------------------

  /** `j` answers `i`: nothing but tool messages stands between. */
  ghost predicate Answers(es: seq<Entry>, i: nat, j: nat) {
    && i < j < |es|
    && es[i].Asked? && es[j].Replied? && es[j].id in es[i].calls
    && forall k :: i < k <= j ==> es[k].Replied?
  }

  lemma {:induction false} LeadAt(es: seq<Entry>, id: string) returns (i: nat)
    requires id in Lead(es)
    ensures i < |es| && es[i].Asked? && id in es[i].calls && forall k :: i < k < |es| ==> es[k].Replied?
    decreases |es|
  {
    var n := |es| - 1;
    if es[n].Replied? {
      i := LeadAt(es[..n], id);
      assert forall k :: 0 <= k < n ==> es[..n][k] == es[k];
    } else {
      i := n;
    }
  }

  lemma {:induction false} AskedIsKnown(es: seq<Entry>, i: nat, id: string)
    requires i < |es| && es[i].Asked? && id in es[i].calls
    ensures id in CallIds(es)
    decreases |es|
  {
    if i < |es| - 1 {
      AskedIsKnown(es[..|es| - 1], i, id);
    }
  }

  lemma {:induction false} OneAsker(es: seq<Entry>, i: nat, j: nat, id: string)
    requires Anchored(es) && i < |es| && j < |es|
    requires es[i].Asked? && id in es[i].calls && es[j].Asked? && id in es[j].calls
    ensures i == j
  {
    if i < j {
      assert Linked(es[..j], es[j]);
      AskedIsKnown(es[..j], i, id);
    } else if j < i {
      assert Linked(es[..i], es[i]);
      AskedIsKnown(es[..i], j, id);
    }
  }

  lemma {:induction false} ReplyAt(es: seq<Entry>, id: string) returns (j: nat)
    requires Replies(es, id) > 0
    ensures j < |es| && es[j].Replied? && es[j].id == id
  {
    var n := |es| - 1;
    if es[n].Replied? && es[n].id == id {
      j := n;
    } else {
      j := ReplyAt(es[..n], id);
    }
  }

  lemma {:induction false} CountsAt(es: seq<Entry>, id: string, j: nat)
    requires j < |es| && es[j].Replied? && es[j].id == id
    ensures Replies(es, id) > 0
    decreases |es|
  {
    if j < |es| - 1 {
      CountsAt(es[..|es| - 1], id, j);
    }
  }

  lemma {:induction false} TwoAnswersCountTwice(es: seq<Entry>, id: string, j: nat, j': nat)
    requires j < j' < |es| && es[j].Replied? && es[j'].Replied? && es[j].id == es[j'].id == id
    ensures Replies(es, id) >= 2
    decreases |es|
  {
    if j' < |es| - 1 {
      TwoAnswersCountTwice(es[..|es| - 1], id, j, j');
    } else {
      CountsAt(es[..|es| - 1], id, j);
    }
  }

  lemma {:induction false} AnswerIsNear(ms: seq<Entry>, i: nat, id: string)
    requires Anchored(ms) && i < |ms| && ms[i].Asked? && id in ms[i].calls && Replies(ms, id) > 0
    ensures exists j: nat :: Answers(ms, i, j) && ms[j].id == id
  {
    var j := ReplyAt(ms, id);
    assert Linked(ms[..j], ms[j]);
    var asker := LeadAt(ms[..j], id);
    OneAsker(ms, i, asker, id);
    assert Answers(ms, i, j);
  }

  ghost predicate AnsweredTwice(ms: seq<Entry>, id: string) {
    exists j, j' :: 0 <= j < j' < |ms| && ms[j].Replied? && ms[j'].Replied? && ms[j].id == id && ms[j'].id == id
  }

  lemma {:induction false} CountDecides(ms: seq<Entry>, id: string)
    ensures Replies(ms, id) == 0 ==> !HasReply(ms, id)
    ensures Replies(ms, id) <= 1 ==> !AnsweredTwice(ms, id)
  {
    if j :| 0 <= j < |ms| && ms[j].Replied? && ms[j].id == id {
      CountsAt(ms, id, j);
    }
    if j, j' :| 0 <= j < j' < |ms| && ms[j].Replied? && ms[j'].Replied? && ms[j].id == id && ms[j'].id == id {
      TwoAnswersCountTwice(ms, id, j, j');
    }
  }

  /**
    The reconstruction. With unique call ids and nothing pending, each call of the rebuilt conversation that
    has any row is answered exactly once, right after the message that asks for it and before the next
    message that is no tool message; a call without a row is not answered at all.
   */
  lemma {:induction false} EachCallAnsweredOnce(rows: seq<Entry>, d: Db, i: nat, id: string)
    requires WellFormed(rows) && Rebuild(rows, rows, d).pending == [] && id != ""
    requires var ms := Rebuild(rows, rows, d).messages; i < |ms| && ms[i].Asked? && id in ms[i].calls
    ensures var ms := Rebuild(rows, rows, d).messages;
      && (if HasReply(rows, id) then exists j: nat :: Answers(ms, i, j) && ms[j].id == id else !HasReply(ms, id))
      && !AnsweredTwice(ms, id)
  {
    var ms := Rebuild(rows, rows, d).messages;
    StaysAnchored(rows, rows, d);
    OneAnswer(rows, d, id);
    CountDecides(ms, id);
    if HasReply(rows, id) { AnswerIsNear(ms, i, id); }
  }

  /** Every call a message asks for has some row, a placeholder or a final answer. */
  ghost predicate AllReplied(es: seq<Entry>) {
    forall i, id :: 0 <= i < |es| && es[i].Asked? && id in es[i].calls ==> HasReply(es, id)
  }

  /** Every call is answered once, behind the message that asks for it and before the next that is no tool message. */
  ghost predicate AnswersAll(ms: seq<Entry>) {
    forall i: nat, id :: i < |ms| && ms[i].Asked? && id in ms[i].calls ==> AnsweredAt(ms, i, id) && !AnsweredTwice(ms, id)
  }

  ghost predicate AnsweredAt(ms: seq<Entry>, i: nat, id: string) {
    exists j: nat :: Answers(ms, i, j) && ms[j].id == id
  }

  lemma {:induction false} AskedSpeak(es: seq<Entry>, e: Entry)
    ensures e in Speakers(es) <==> e in es && !e.Replied?
  {
    if es != [] {
      AskedSpeak(es[..|es| - 1], e);
      assert es == es[..|es| - 1] + [es[|es| - 1]];
    }
  }

  lemma {:induction false} AskedIdsAreNamed(es: seq<Entry>, i: nat, id: string)
    requires WellFormed(es) && i < |es| && es[i].Asked? && id in es[i].calls
    ensures id != ""
  {
    FitsAt(es, i);
  }

  /**
    The whole reconstruction, as an equivalence: with unique call ids and nothing pending, the rebuilt
    conversation answers every call exactly once in its place if and only if the rows have one for every call.
   */
  lemma {:induction false} ReconstructionIsWhole(rows: seq<Entry>, d: Db)
    requires WellFormed(rows) && Rebuild(rows, rows, d).pending == []
    ensures AnswersAll(Rebuild(rows, rows, d).messages) <==> AllReplied(rows)
  {
    var ms := Rebuild(rows, rows, d).messages;
    OnlyToolsWait(rows);
    SpeakersSurvive(rows, rows, d);
    forall i: nat, id | i < |ms| && ms[i].Asked? && id in ms[i].calls && AllReplied(rows)
      ensures AnsweredAt(ms, i, id) && !AnsweredTwice(ms, id)
    {
      AskedSpeak(ms, ms[i]);
      AskedSpeak(rows, ms[i]);
      var k :| 0 <= k < |rows| && rows[k] == ms[i];
      AskedIdsAreNamed(rows, k, id);
      EachCallAnsweredOnce(rows, d, i, id);
    }
    forall k, id | 0 <= k < |rows| && rows[k].Asked? && id in rows[k].calls && AnswersAll(ms)
      ensures HasReply(rows, id)
    {
      AskedSpeak(rows, rows[k]);
      AskedSpeak(ms, rows[k]);
      AskedIdsAreNamed(rows, k, id);
      var i: nat :| i < |ms| && ms[i] == rows[k];
      EachCallAnsweredOnce(rows, d, i, id);
      assert AnsweredAt(ms, i, id);
    }
  }

  /** Tool rows only add answers. */
  lemma {:induction false} RepliesKeepAllReplied(es: seq<Entry>, more: seq<Entry>)
    requires AllReplied(es) && forall i :: 0 <= i < |more| ==> more[i].Replied?
    ensures AllReplied(es + more)
  {
    var all := es + more;
    forall i, id | 0 <= i < |all| && all[i].Asked? && id in all[i].calls
      ensures HasReply(all, id)
    {
      assert all[i] == es[i] && HasReply(es, id);
      var j :| 0 <= j < |es| && es[j].Replied? && es[j].id == id;
      assert all[j].Replied? && all[j].id == id;
    }
  }

  // ----- recovering twice --------------------------------------------------------------------

  lemma {:induction false} FinalsGrow(rows: seq<Entry>, more: seq<Entry>, id: string)
    ensures HasFinal(rows + more, id) <==> HasFinal(rows, id) || HasFinal(more, id)
  {
    var all := rows + more;
    if i :| 0 <= i < |rows| && IsFinal(rows[i], id) { assert IsFinal(all[i], id); }
    if i :| 0 <= i < |more| && IsFinal(more[i], id) { assert IsFinal(all[|rows| + i], id); }
    if i :| 0 <= i < |all| && IsFinal(all[i], id) {
      if i < |rows| { assert IsFinal(rows[i], id); } else { assert IsFinal(more[i - |rows|], id); }
    }
  }

  lemma {:induction false} PersistGrows(rows: seq<Entry>, all: seq<Entry>, d: Db, k: nat)
    requires k <= |rows|
    ensures Rebuild(rows[..k], all, d).persist <= Rebuild(rows, all, d).persist
    decreases |rows|
  {
    if k < |rows| {
      PersistGrows(rows[..|rows| - 1], all, d, k);
      assert rows[..|rows| - 1][..k] == rows[..k];
      RebuildStep(rows, all, d);
    } else {
      assert rows[..k] == rows;
    }
  }

  lemma {:induction false} PersistedAtOnce(rows: seq<Entry>, all: seq<Entry>, d: Db)
    requires rows != [] && RowFate(rows[|rows| - 1], all, d).Replaced? && IdOf(rows[|rows| - 1]) != ""
    ensures HasFinal(Rebuild(rows, all, d).persist, IdOf(rows[|rows| - 1]))
  {
    var last := rows[|rows| - 1];
    var before, told := Rebuild(rows[..|rows| - 1], all, d).persist, Replacement(last, RowFate(last, all, d));
    RebuildStep(rows, all, d);
    ReplacementIsFinal(last, all, d);
    FinalsGrow(before, told, IdOf(last));
  }

  lemma {:induction false} FinalStays(early: seq<Entry>, later: seq<Entry>, id: string)
    requires early <= later && HasFinal(early, id)
    ensures HasFinal(later, id)
  {
  }

  /** What a row persisted is found the next time round. */
  lemma {:induction false} PersistedIsFinal(rows: seq<Entry>, all: seq<Entry>, d: Db, k: nat)
    requires k < |rows| && RowFate(rows[k], all, d).Replaced? && IdOf(rows[k]) != ""
    ensures HasFinal(Rebuild(rows, all, d).persist, IdOf(rows[k]))
  {
    PersistedAtOnce(rows[..k + 1], all, d);
    PersistGrows(rows, all, d, k + 1);
    FinalStays(Rebuild(rows[..k + 1], all, d).persist, Rebuild(rows, all, d).persist, IdOf(rows[k]));
  }

  lemma {:induction false} ReplacementIsFinal(e: Entry, all: seq<Entry>, d: Db)
    requires RowFate(e, all, d).Replaced? && IdOf(e) != ""
    ensures HasFinal(Replacement(e, RowFate(e, all, d)), IdOf(e))
  {
    assert IsFinal(Replacement(e, RowFate(e, all, d))[0], IdOf(e));
  }

  ghost predicate Named(es: seq<Entry>) {
    forall i :: 0 <= i < |es| ==> IdOf(es[i]) != ""
  }

  ghost predicate NamedReplacements(rows: seq<Entry>, all: seq<Entry>, d: Db) {
    forall k :: 0 <= k < |rows| && RowFate(rows[k], all, d).Replaced? ==> IdOf(rows[k]) != ""
  }

  lemma {:induction false} PersistedIds(rows: seq<Entry>, all: seq<Entry>, d: Db)
    ensures Named(Rebuild(rows, all, d).persist) <==> NamedReplacements(rows, all, d)
  {
    if rows != [] {
      var init, last := rows[..|rows| - 1], rows[|rows| - 1];
      PersistedIds(init, all, d);
      RebuildStep(rows, all, d);
      var told := Replacement(last, RowFate(last, all, d));
      NamedAppend(Rebuild(init, all, d).persist, told);
      assert told != [] ==> IdOf(told[0]) == IdOf(last);
      assert rows == init + [last];
    }
  }

  lemma {:induction false} NamedAppend(x: seq<Entry>, y: seq<Entry>)
    ensures Named(x + y) <==> Named(x) && Named(y)
  {
    forall i | 0 <= i < |y| && Named(x + y)
      ensures IdOf(y[i]) != ""
    {
      assert (x + y)[|x| + i] == y[i];
    }
    forall i | 0 <= i < |x| && Named(x + y)
      ensures IdOf(x[i]) != ""
    {
      assert (x + y)[i] == x[i];
    }
  }

  ghost predicate NoReplacements(rows: seq<Entry>, all: seq<Entry>, d: Db) {
    forall k :: 0 <= k < |rows| ==> !RowFate(rows[k], all, d).Replaced?
  }

  lemma {:induction false} NoReplacementsSnoc(rows: seq<Entry>, all: seq<Entry>, d: Db)
    requires rows != []
    ensures NoReplacements(rows, all, d) <==>
      NoReplacements(rows[..|rows| - 1], all, d) && !RowFate(rows[|rows| - 1], all, d).Replaced?
  {
    assert rows == rows[..|rows| - 1] + [rows[|rows| - 1]];
  }

  lemma {:induction false} PersistsNothing(rows: seq<Entry>, all: seq<Entry>, d: Db)
    ensures Rebuild(rows, all, d).persist == [] <==> NoReplacements(rows, all, d)
  {
    if rows != [] {
      PersistsNothing(rows[..|rows| - 1], all, d);
      RebuildStep(rows, all, d);
      NoReplacementsSnoc(rows, all, d);
    }
  }

  /**
    A second recovery persists nothing further: whatever the rows, exactly when every placeholder the first one
    replaced belongs to a call with an id.
   */
  lemma {:induction false} SecondRecoveryIsIdle(rows: seq<Entry>, d: Db)
    ensures var persist := Rebuild(rows, rows, d).persist;
      Rebuild(rows + persist, rows + persist, d).persist == [] <==> Named(persist)
  {
    var persist := Rebuild(rows, rows, d).persist;
    var all := rows + persist;
    NoPlaceholder(rows, rows, d);
    PersistedIds(rows, rows, d);
    PersistsNothing(all, all, d);
    forall k | 0 <= k < |all|
      ensures RowFate(all[k], all, d).Replaced? <==>
        k < |rows| && RowFate(rows[k], rows, d).Replaced? && IdOf(rows[k]) == ""
    {
      if k < |rows| {
        SecondFate(rows, d, k);
      } else {
        assert all[k] == persist[k - |rows|];
      }
    }
  }

  lemma {:induction false} SecondFate(rows: seq<Entry>, d: Db, k: nat)
    requires k < |rows|
    ensures var all := rows + Rebuild(rows, rows, d).persist;
      RowFate(rows[k], all, d).Replaced? <==> RowFate(rows[k], rows, d).Replaced? && IdOf(rows[k]) == ""
  {
    FinalsGrow(rows, Rebuild(rows, rows, d).persist, IdOf(rows[k]));
    if RowFate(rows[k], rows, d).Replaced? && IdOf(rows[k]) != "" {
      PersistedIsFinal(rows, rows, d, k);
    }
  }

  /**
    Nor does any later recovery, with whatever the tables have become, once nothing was pending: every
    placeholder has its final answer, unless its call has no id.
   */
  lemma {:induction false} LaterRecoveriesAreIdle(rows: seq<Entry>, d: Db)
    requires Rebuild(rows, rows, d).pending == []
    ensures var all := rows + Rebuild(rows, rows, d).persist;
      (forall later: Db :: Rebuild(all, all, later).persist == []) <==> Named(Rebuild(rows, rows, d).persist)
  {
    var persist := Rebuild(rows, rows, d).persist;
    var all := rows + persist;
    SecondRecoveryIsIdle(rows, d);
    if Named(persist) {
      forall later: Db
        ensures Rebuild(all, all, later).persist == []
      {
        NothingToReplace(rows, d, later);
        PersistsNothing(all, all, later);
      }
    }
  }

  lemma {:induction false} NothingToReplace(rows: seq<Entry>, d: Db, later: Db)
    requires Rebuild(rows, rows, d).pending == [] && Named(Rebuild(rows, rows, d).persist)
    ensures var all := rows + Rebuild(rows, rows, d).persist; NoReplacements(all, all, later)
  {
    var persist := Rebuild(rows, rows, d).persist;
    var all := rows + persist;
    NoPlaceholder(rows, rows, d);
    PersistedIds(rows, rows, d);
    forall k | 0 <= k < |all|
      ensures !RowFate(all[k], all, later).Replaced?
    {
      if k < |rows| {
        if all[k].body.Waiting? { WaitingIsAnswered(rows, d, k); }
      } else {
        assert all[k] == persist[k - |rows|];
      }
    }
  }

  lemma {:induction false} WaitingIsAnswered(rows: seq<Entry>, d: Db, k: nat)
    requires Rebuild(rows, rows, d).pending == [] && NamedReplacements(rows, rows, d)
    requires k < |rows| && rows[k].body.Waiting?
    ensures Answered(rows + Rebuild(rows, rows, d).persist, rows[k])
  {
    NothingPendingAt(rows, rows, d, k);
    FinalsGrow(rows, Rebuild(rows, rows, d).persist, IdOf(rows[k]));
    if !Answered(rows, rows[k]) { PersistedIsFinal(rows, rows, d, k); }
  }

  // ----- what a recovery leaves behind -------------------------------------------------------

  /** A placeholder without a final answer belongs to the last round. */
  lemma {:induction false} OpenInLead(es: seq<Entry>, i: nat)
    requires WellFormed(es) && OpenAt(es, i)
    ensures es[i].Replied? && es[i].id in Lead(es)
    decreases |es|
  {
    var init, last := es[..|es| - 1], es[|es| - 1];
    if i < |init| {
      assert es == init + [last];
      FinalsGrow(init, [last], IdOf(es[i]));
      assert OpenAt(init, i);
      OpenInLead(init, i);
    }
  }

  lemma {:induction false} LeadOfReplies(es: seq<Entry>, more: seq<Entry>)
    requires forall e :: e in more ==> e.Replied?
    ensures Lead(es + more) == Lead(es)
    decreases |more|
  {
    if more == [] {
      assert es + more == es;
    } else {
      var init, last := more[..|more| - 1], more[|more| - 1];
      LeadOfReplies(es, init);
      LeadSnoc(es + init, last);
      assert es + more == es + init + [last];
      assert last in more;
    }
  }

  lemma {:induction false} PersistedComesFrom(rows: seq<Entry>, all: seq<Entry>, d: Db, e: Entry) returns (k: nat)
    requires e in Rebuild(rows, all, d).persist
    ensures k < |rows| && e.Replied? && e.id == IdOf(rows[k]) && RowFate(rows[k], all, d).Replaced?
  {
    var init, last := rows[..|rows| - 1], rows[|rows| - 1];
    RebuildStep(rows, all, d);
    if e in Rebuild(init, all, d).persist {
      k := PersistedComesFrom(init, all, d, e);
    } else {
      k := |rows| - 1;
    }
  }

  lemma {:induction false} FitsAt(es: seq<Entry>, k: nat)
    requires WellFormed(es) && k < |es|
    ensures Fits(es[..k], es[k])
    decreases |es|
  {
    if k < |es| - 1 {
      FitsAt(es[..|es| - 1], k);
      assert es[..|es| - 1][..k] == es[..k];
    }
  }

  /** The answers one recovery persists are for different calls. */
  lemma {:induction false} NotPersistedBefore(rows: seq<Entry>, d: Db, k: nat)
    requires WellFormed(rows) && k < |rows| && rows[k].body.Waiting?
    ensures !HasFinal(Rebuild(rows[..k], rows, d).persist, IdOf(rows[k]))
  {
    var persist, id := Rebuild(rows[..k], rows, d).persist, IdOf(rows[k]);
    FitsAt(rows, k);
    if i :| 0 <= i < |persist| && IsFinal(persist[i], id) {
      var j := PersistedComesFrom(rows[..k], rows, d, persist[i]);
      assert rows[..k][j].Replied? && rows[..k][j].id == id;
    }
  }

  lemma {:induction false} WellFormedSnoc(es: seq<Entry>, e: Entry)
    requires WellFormed(es) && Fits(es, e)
    ensures WellFormed(es + [e])
  {
  }

  lemma {:induction false} LeadNamed(es: seq<Entry>, id: string)
    requires WellFormed(es) && id in Lead(es)
    ensures id != ""
  {
    var last := es[|es| - 1];
    if last.Replied? { LeadNamed(es[..|es| - 1], id); }
  }

  /** The answer a row persists fits behind everything stored and persisted before. */
  lemma {:induction false} PersistFits(rows: seq<Entry>, d: Db, k: nat)
    requires WellFormed(rows) && k < |rows| && RowFate(rows[k], rows, d).Replaced?
    ensures Fits(rows + Rebuild(rows[..k], rows, d).persist, Replacement(rows[k], RowFate(rows[k], rows, d))[0])
  {
    var persist, id := Rebuild(rows[..k], rows, d).persist, IdOf(rows[k]);
    assert OpenAt(rows, k);
    OpenInLead(rows, k);
    LeadNamed(rows, id);
    NoPlaceholder(rows[..k], rows, d);
    LeadOfReplies(rows, persist);
    NotPersistedBefore(rows, d, k);
    FinalsGrow(rows, persist, id);
  }

  lemma {:induction false} PersistStep(rows: seq<Entry>, d: Db, k: nat)
    requires k < |rows|
    ensures rows + Rebuild(rows[..k + 1], rows, d).persist
         == rows + Rebuild(rows[..k], rows, d).persist + Replacement(rows[k], RowFate(rows[k], rows, d))
  {
    var prefix := rows[..k + 1];
    assert prefix[..k] == rows[..k];
    RebuildStep(prefix, rows, d);
  }

  lemma {:induction false} PrefixStaysWellFormed(rows: seq<Entry>, d: Db, k: nat)
    requires WellFormed(rows) && k <= |rows|
    ensures WellFormed(rows + Rebuild(rows[..k], rows, d).persist)
  {
    if k == 0 {
      assert rows + [] == rows;
    } else {
      PrefixStaysWellFormed(rows, d, k - 1);
      PersistStep(rows, d, k - 1);
      var before, told := rows + Rebuild(rows[..k - 1], rows, d).persist, Replacement(rows[k - 1], RowFate(rows[k - 1], rows, d));
      Append(before, told);
      if told != [] {
        PersistFits(rows, d, k - 1);
        WellFormedSnoc(before, told[0]);
      }
    }
  }

  lemma {:induction false} NothingPendingAt(rows: seq<Entry>, all: seq<Entry>, d: Db, k: nat)
    requires Rebuild(rows, all, d).pending == [] && k < |rows|
    ensures !RowFate(rows[k], all, d).StillOpen?
  {
    RebuildStep(rows, all, d);
    if k < |rows| - 1 { NothingPendingAt(rows[..|rows| - 1], all, d, k); }
  }

  /**
    Persisting what a recovery found keeps the rows well formed; with nothing pending, no placeholder is open
    any more, so the run may go on.
   */
  lemma {:induction false} RecoveryKeepsShape(rows: seq<Entry>, d: Db)
    requires WellFormed(rows)
    ensures var r := Rebuild(rows, rows, d);
      WellFormed(rows + r.persist) && (r.pending == [] ==> !HasOpen(rows + r.persist))
  {
    var r := Rebuild(rows, rows, d);
    var all := rows + r.persist;
    PrefixStaysWellFormed(rows, d, |rows|);
    assert rows[..|rows|] == rows;
    NoPlaceholder(rows, rows, d);
    if r.pending == [] {
      forall i: nat | i < |all|
        ensures !OpenAt(all, i)
      {
        if i >= |rows| {
          assert all[i] == r.persist[i - |rows|];
        } else if all[i].body.Waiting? {
          NothingPendingAt(rows, rows, d, i);
          OpenIsReplaced(rows, d, i);
        }
      }
    }
  }

  lemma {:induction false} OpenIsReplaced(rows: seq<Entry>, d: Db, i: nat)
    requires WellFormed(rows) && i < |rows| && rows[i].body.Waiting? && !RowFate(rows[i], rows, d).StillOpen?
    ensures Answered(rows + Rebuild(rows, rows, d).persist, rows[i])
  {
    FinalsGrow(rows, Rebuild(rows, rows, d).persist, IdOf(rows[i]));
    if !Answered(rows, rows[i]) {
      assert OpenAt(rows, i);
      OpenInLead(rows, i);
      LeadNamed(rows, IdOf(rows[i]));
      PersistedIsFinal(rows, rows, d, i);
    }
  }
}
