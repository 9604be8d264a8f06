/** What the chain protects: equal final hashes mean equal histories, and a row out of time order breaks it. */
module EventLogIntegrity {
  import opened Common
  import opened EventLog

  // ----- the covered text determines the fields ----------------------------------------------

  lemma {:induction false} LineSplits(a: string, b: string, x: string, y: string)
    requires NEWLINE !in a && NEWLINE !in b && Line(a) + x == Line(b) + y
    ensures a == b && x == y
  {
    var s := Line(a) + x;
    assert s[|a|] == NEWLINE && s[|b|] == NEWLINE;
    assert forall k :: 0 <= k < |a| ==> s[k] == a[k];
    assert forall k :: 0 <= k < |b| ==> s[k] == b[k];
    assert |a| == |b|;
    assert a == s[..|a|] && b == s[..|b|];
    assert x == s[|a| + 1..] && y == s[|b| + 1..];
  }

  lemma {:induction false} StampIsLonger(t: nat)
    ensures |Stamp(t)| >= 1 && (t >= 10 ==> |Stamp(t)| >= 2)
  {
  }

  lemma {:induction false} StampInjective(t: nat, u: nat)
    requires Stamp(t) == Stamp(u)
    ensures t == u
  {
    StampIsLonger(t);
    StampIsLonger(u);
    if t >= 10 {
      var n := |Stamp(t)| - 1;
      assert Stamp(t)[..n] == Stamp(t / 10) && Stamp(u)[..n] == Stamp(u / 10);
      StampInjective(t / 10, u / 10);
      assert Stamp(t)[n] == "0123456789"[t % 10] && Stamp(u)[n] == "0123456789"[u % 10];
      DigitInjective(t % 10, u % 10);
    } else {
      DigitInjective(t, u);
    }
  }

  lemma {:induction false} DigitInjective(a: nat, b: nat)
    requires a < 10 && b < 10 && "0123456789"[a] == "0123456789"[b]
    ensures a == b
  {
  }

  /** No field but the last may contain the separator. JSON text never does: it writes it as an escape. */
  predicate OneLineFields(row: Row) {
    NEWLINE !in row.id && NEWLINE !in RunText(row) && NEWLINE !in row.kind && NEWLINE !in row.payload
  }

  /** Equal in every hashed field, a null run id counting as an empty one. */
  predicate SameFields(a: Row, b: Row) {
    && a.id == b.id && RunText(a) == RunText(b) && a.kind == b.kind && a.payload == b.payload
    && a.created == b.created
  }

  lemma {:induction false} CoveredInjective(p: Option<string>, a: Row, q: Option<string>, b: Row)
    requires OneLineFields(a) && OneLineFields(b) && NEWLINE !in Link(p) && NEWLINE !in Link(q)
    requires Covered(p, a) == Covered(q, b)
    ensures Link(p) == Link(q) && SameFields(a, b)
  {
    var a4, b4 := Line(a.payload) + Stamp(a.created), Line(b.payload) + Stamp(b.created);
    var a3, b3 := Line(a.kind) + a4, Line(b.kind) + b4;
    var a2, b2 := Line(RunText(a)) + a3, Line(RunText(b)) + b3;
    var a1, b1 := Line(a.id) + a2, Line(b.id) + b2;
    LineSplits(Link(p), Link(q), a1, b1);
    LineSplits(a.id, b.id, a2, b2);
    LineSplits(RunText(a), RunText(b), a3, b3);
    LineSplits(a.kind, b.kind, a4, b4);
    LineSplits(a.payload, b.payload, Stamp(a.created), Stamp(b.created));
    StampInjective(a.created, b.created);
  }

  // ----- equal heads, equal histories --------------------------------------------------------

  function TextAt(rows: seq<Row>, k: nat): string
    requires k < |rows|
  {
    Covered(Predecessor(rows, k), rows[k])
  }

  /** No two of the texts hashed in these two logs collide. */
  ghost predicate NoCollision(h: Digest, a: seq<Row>, b: seq<Row>) {
    forall i, j :: 0 <= i < |a| && 0 <= j < |b| && h(TextAt(a, i)) == h(TextAt(b, j)) ==> TextAt(a, i) == TextAt(b, j)
  }

  lemma {:induction false} ChainedLinkIsOneLine(h: Digest, rows: seq<Row>, k: nat)
    requires HexDigest(h) && Chained(h, rows) && k < |rows|
    ensures NEWLINE !in Link(Predecessor(rows, k))
    ensures k > 0 ==> Predecessor(rows, k).Some? && Link(Predecessor(rows, k)) != "GENESIS"
  {
    if k > 0 {
      assert LinkOk(h, rows, k - 1);
    }
  }

  lemma {:induction false} SameHashSameRow(h: Digest, a: seq<Row>, b: seq<Row>, i: nat, j: nat)
    requires HexDigest(h) && Chained(h, a) && Chained(h, b) && NoCollision(h, a, b)
    requires forall r :: r in a || r in b ==> OneLineFields(r)
    requires i < |a| && j < |b| && a[i].hash == b[j].hash
    ensures SameFields(a[i], b[j]) && Link(Predecessor(a, i)) == Link(Predecessor(b, j))
  {
    assert LinkOk(h, a, i) && LinkOk(h, b, j);
    assert h(TextAt(a, i)) == h(TextAt(b, j));
    ChainedLinkIsOneLine(h, a, i);
    ChainedLinkIsOneLine(h, b, j);
    assert a[i] in a && b[j] in b;
    CoveredInjective(Predecessor(a, i), a[i], Predecessor(b, j), b[j]);
  }

  /**
    Tamper evidence. Two verified logs that end in the same hash are equally long and agree, row by row, on
    every hashed field: the last hash pins the whole history.
   */
  lemma {:induction false} EqualHeadsEqualHistories(h: Digest, a: seq<Row>, b: seq<Row>)
    requires HexDigest(h) && Chained(h, a) && Chained(h, b) && NoCollision(h, a, b)
    requires forall r :: r in a || r in b ==> OneLineFields(r)
    requires a != [] && b != [] && a[|a| - 1].hash == b[|b| - 1].hash
    ensures |a| == |b| && forall k :: 0 <= k < |a| ==> SameFields(a[k], b[k]) && a[k].hash == b[k].hash
  {
    WalkBack(h, a, b, |a| - 1, |b| - 1);
  }

  lemma {:induction false} WalkBack(h: Digest, a: seq<Row>, b: seq<Row>, i: nat, j: nat)
    requires HexDigest(h) && Chained(h, a) && Chained(h, b) && NoCollision(h, a, b)
    requires forall r :: r in a || r in b ==> OneLineFields(r)
    requires i < |a| && j < |b| && a[i].hash == b[j].hash
    ensures i == j && forall k :: 0 <= k <= i ==> SameFields(a[k], b[k]) && a[k].hash == b[k].hash
  {
    SameHashSameRow(h, a, b, i, j);
    ChainedLinkIsOneLine(h, a, i);
    ChainedLinkIsOneLine(h, b, j);
    if i > 0 && j > 0 {
      assert LinkOk(h, a, i - 1) && LinkOk(h, b, j - 1);
      WalkBack(h, a, b, i - 1, j - 1);
    }
  }

  // ----- a clock that goes back --------------------------------------------------------------

  /** Adding one row at the end of the texts already hashed. */
  ghost predicate FreshText(h: Digest, rows: seq<Row>, text: string) {
    forall k :: 0 <= k < |rows| ==> (h(TextAt(rows, k)) == h(text) ==> TextAt(rows, k) == text)
  }

  /** A row hashed after all others but listed before some breaks the chain, and only then. */
  lemma {:induction false} SpliceBreaks(h: Digest, earlier: seq<Row>, later: seq<Row>, row: Row)
    requires HexDigest(h) && Chained(h, earlier + later)
    requires forall r :: r in earlier + later ==> OneLineFields(r) && r.id != row.id
    requires OneLineFields(row)
    requires var last := Predecessor(earlier + later, |earlier + later|);
      Links(h, last, row) && FreshText(h, earlier + later, Covered(last, row))
    ensures Chained(h, earlier + [row] + later) <==> later == []
  {
    var old', new' := earlier + later, earlier + [row] + later;
    if later == [] {
      assert old' == earlier && new' == earlier + [row];
      ChainSnoc(h, earlier, row);
    } else {
      var n := |earlier|;
      assert old'[n] == later[0] == new'[n + 1] && new'[n] == row;
      assert LinkOk(h, old', n);
      if n > 0 {
        assert LinkOk(h, old', n - 1);
        assert old'[n - 1] in old';
        DifferentIdsDifferentHash(h, old', n - 1, row);
      }
      assert new'[n + 1].previousHash == Predecessor(old', n) && row.hash.Some?;
      assert Predecessor(new', n + 1) == row.hash && !LinkOk(h, new', n + 1);
    }
  }

  lemma {:induction false} DifferentIdsDifferentHash(h: Digest, rows: seq<Row>, k: nat, row: Row)
    requires HexDigest(h) && Chained(h, rows) && k < |rows|
    requires OneLineFields(rows[k]) && OneLineFields(row) && rows[k].id != row.id
    requires var last := Predecessor(rows, |rows|); Links(h, last, row) && FreshText(h, rows, Covered(last, row))
    ensures rows[k].hash != row.hash
  {
    var last := Predecessor(rows, |rows|);
    assert LinkOk(h, rows, k) && LinkOk(h, rows, |rows| - 1);
    if rows[k].hash == row.hash {
      assert h(TextAt(rows, k)) == h(Covered(last, row));
      ChainedLinkIsOneLine(h, rows, k);
      CoveredInjective(Predecessor(rows, k), rows[k], last, row);
      assert false;
    }
  }

  /** The table lists its rows in their order. */
  ghost predicate Sorted(rows: seq<Row>) {
    forall i, j :: 0 <= i < j < |rows| ==> Before(rows[i], rows[j])
  }

  lemma {:induction false} TextOrder(a: string, b: string, c: string)
    ensures TextAtMost(a, b) && TextAtMost(b, c) ==> TextAtMost(a, c)
    ensures TextAtMost(a, b) && TextAtMost(b, a) ==> a == b
  {
    if a != "" && b != "" {
      if c != "" { TextOrder(a[1..], b[1..], c[1..]); } else { TextOrder(a[1..], b[1..], ""); }
      assert a == [a[0]] + a[1..] && b == [b[0]] + b[1..];
    }
  }

  lemma {:induction false} BeforeOrder(a: Row, b: Row, c: Row)
    ensures Before(a, b) && Before(b, c) ==> Before(a, c)
  {
    TextOrder(a.id, b.id, c.id);
    TextOrder(a.id, b.id, b.id);
  }

  /** Where the order puts a new row. */
  function Place(rows: seq<Row>, row: Row): (p: nat)
    ensures p <= |rows|
  {
    if rows == [] || !Before(row, rows[|rows| - 1]) then |rows| else Place(rows[..|rows| - 1], row)
  }

  lemma {:induction false} InsertedAtPlace(rows: seq<Row>, row: Row)
    ensures var p := Place(rows, row);
      && Inserted(rows, row) == rows[..p] + [row] + rows[p..]
      && (forall k :: p <= k < |rows| ==> Before(row, rows[k]))
      && (p > 0 ==> !Before(row, rows[p - 1]))
  {
    if rows == [] || !Before(row, rows[|rows| - 1]) {
      assert rows[..|rows|] == rows;
    } else {
      var init, p := rows[..|rows| - 1], Place(rows, row);
      InsertedAtPlace(init, row);
      assert rows[..p] == init[..p] && rows[p..] == init[p..] + [rows[|rows| - 1]];
    }
  }

  lemma {:induction false} AfterIsPlaced(rows: seq<Row>, row: Row, k: nat)
    requires Sorted(rows) && k < |rows|
    ensures Before(row, rows[k]) <==> Place(rows, row) <= k
  {
    var p := Place(rows, row);
    InsertedAtPlace(rows, row);
    if k + 1 < p {
      BeforeOrder(row, rows[k], rows[p - 1]);
    }
  }

  lemma {:induction false} TextIsTotal(a: string, b: string)
    ensures TextAtMost(a, b) || TextAtMost(b, a)
  {
    if a != "" && b != "" {
      TextIsTotal(a[1..], b[1..]);
    }
  }

  /** Whatever its timestamp, a row under a new id is listed in order. */
  lemma {:induction false} InsertedStaysSorted(rows: seq<Row>, row: Row)
    requires Sorted(rows) && forall k :: 0 <= k < |rows| ==> rows[k].id != row.id
    ensures Sorted(Inserted(rows, row))
  {
    var p, listed := Place(rows, row), Inserted(rows, row);
    InsertedAtPlace(rows, row);
    forall i, j | 0 <= i < j < |listed| ensures Before(listed[i], listed[j]) {
      if i == p {
        AfterIsPlaced(rows, row, j - 1);
      } else if j == p {
        AfterIsPlaced(rows, row, i);
        TextIsTotal(rows[i].id, row.id);
      }
    }
  }

  /** Some hashed row is listed after the new one. */
  ghost predicate Overtaken(rows: seq<Row>, row: Row) {
    exists k :: 0 <= k < |rows| && Hashed(rows[k]) && Before(row, rows[k])
  }

  lemma {:induction false} OvertakenIsRest(rows: seq<Row>, row: Row)
    requires Sorted(rows)
    ensures Overtaken(rows, row) <==> HashedRows(rows[Place(rows, row)..]) != []
  {
    var rest := rows[Place(rows, row)..];
    HashedHas(rest);
    if k :| 0 <= k < |rows| && Hashed(rows[k]) && Before(row, rows[k]) {
      AfterIsPlaced(rows, row, k);
      assert rest[k - Place(rows, row)] == rows[k];
    }
    if k :| 0 <= k < |rest| && Hashed(rest[k]) {
      AfterIsPlaced(rows, row, Place(rows, row) + k);
    }
  }

  lemma {:induction false} HashedHas(rows: seq<Row>)
    ensures HashedRows(rows) != [] <==> exists k :: 0 <= k < |rows| && Hashed(rows[k])
    ensures forall r :: r in HashedRows(rows) ==> r in rows
  {
    if rows != [] {
      var init := rows[..|rows| - 1];
      HashedHas(init);
      assert forall k :: 0 <= k < |init| ==> init[k] == rows[k];
    }
  }

  lemma {:induction false} HashedInserted(rows: seq<Row>, row: Row)
    requires Hashed(row)
    ensures var p := Place(rows, row);
      && HashedRows(rows) == HashedRows(rows[..p]) + HashedRows(rows[p..])
      && HashedRows(Inserted(rows, row)) == HashedRows(rows[..p]) + [row] + HashedRows(rows[p..])
  {
    var p := Place(rows, row);
    InsertedAtPlace(rows, row);
    HashedAppend(rows[..p], rows[p..]);
    assert rows[..p] + rows[p..] == rows;
    HashedAppend(rows[..p] + [row], rows[p..]);
    HashedAppend(rows[..p], [row]);
    HashedOne(row);
  }

  lemma {:induction false} HashedOne(row: Row)
    requires Hashed(row)
    ensures HashedRows([row]) == [row]
  {
    assert [row][..0] == [];
  }

  lemma {:induction false} NewRowLinks(h: Digest, rows: seq<Row>, e: Entry)
    requires HexDigest(h)
    ensures var row := NewRow(h, rows, e.id, e.run, e.kind, e.payload, e.created);
      && Hashed(row) && Links(h, NewestHash(rows), row) && row.id == e.id && row.created == e.created
  {
    var row := NewRow(h, rows, e.id, e.run, e.kind, e.payload, e.created);
    assert Covered(NewestHash(rows), row) == Covered(NewestHash(rows), row.(hash := None));
  }

  /**
    The clock restarts with each process, so a restart under a wall clock set back can hand out a timestamp
    older than the newest row. Appending to a time-ordered log that verifies gives one that verifies if and
    only if no hashed row is listed after the new one.
   */
  lemma {:induction false} OutOfOrderBreaks(h: Digest, rows: seq<Row>, e: Entry)
    requires HexDigest(h) && Sorted(rows) && Chained(h, HashedRows(rows))
    requires HashedOrNot(rows)
    requires forall r :: r in rows ==> OneLineFields(r) && r.id != e.id
    requires var row := NewRow(h, rows, e.id, e.run, e.kind, e.payload, e.created);
      OneLineFields(row) && FreshText(h, HashedRows(rows), Covered(NewestHash(rows), row))
    ensures var row := NewRow(h, rows, e.id, e.run, e.kind, e.payload, e.created);
      Chained(h, HashedRows(Inserted(rows, row))) <==> !Overtaken(rows, row)
  {
    var row := NewRow(h, rows, e.id, e.run, e.kind, e.payload, e.created);
    var p := Place(rows, row);
    NewRowLinks(h, rows, e);
    HashedInserted(rows, row);
    OvertakenIsRest(rows, row);
    NewestIsLast(rows);
    HashedHas(rows);
    SpliceBreaks(h, HashedRows(rows[..p]), HashedRows(rows[p..]), row);
  }

  // ----- clock, append and verification together ---------------------------------------------

  lemma {:induction false} TwoOutOfOrder(h: Digest, first: Entry, second: Entry)
    requires HexDigest(h) && second.created < first.created
    ensures var hs := HashedRows(Journal(h, [], [first, second]));
      && |hs| == 2 && hs[0].id == second.id && !Chained(h, hs)
      && forall k :: 0 <= k <= |hs| && Chained(h, hs[..k]) ==> k == 0
  {
    TwoRows(h, first, second);
    var a := NewRow(h, [], first.id, first.run, first.kind, first.payload, first.created);
    var b := NewRow(h, [a], second.id, second.run, second.kind, second.payload, second.created);
    NewRowLinks(h, [], first);
    NewRowLinks(h, [a], second);
    HashedAppend([b], [a]);
    HashedOne(a);
    HashedOne(b);
    assert Journal(h, [], [first, second]) == [b] + [a];
    assert !LinkOk(h, [b] + [a], 0);
    forall k | 0 < k <= 2 ensures !Chained(h, ([b] + [a])[..k]) {
      assert !LinkOk(h, ([b] + [a])[..k], 0);
    }
  }

  lemma {:induction false} TwoRows(h: Digest, first: Entry, second: Entry)
    requires second.created < first.created
    ensures var a := NewRow(h, [], first.id, first.run, first.kind, first.payload, first.created);
      var b := NewRow(h, [a], second.id, second.run, second.kind, second.payload, second.created);
      Inserted([], a) == [a] && Inserted([a], b) == [b, a] && Journal(h, [], [first, second]) == [b, a]
  {
    var a := NewRow(h, [], first.id, first.run, first.kind, first.payload, first.created);
    var b := NewRow(h, [a], second.id, second.run, second.kind, second.payload, second.created);
    assert [first, second][..1] == [first] && [first][..0] == [] && Journal(h, [], []) == [];
    assert Journal(h, [], [first]) == [a];
    assert [a][..0] == [] && Inserted([], b) == [b];
  }

  /** One row, a restart of the process with its wall clock set back, another row. */
  method Restarted(h: Digest, first: Entry, second: Entry, wall: nat, earlier: nat)
    returns (log: EventLog, t: nat, u: nat)
    requires 0 < earlier < wall
    ensures fresh(log) && t == wall && u == earlier
    ensures log.rows == Journal(h, [], [first.(created := t), second.(created := u)])
  {
    log := new EventLog();
    var clock := new Clock();
    t := clock.Now(wall);
    log.Append(h, first.id, first.run, first.kind, first.payload, t);
    clock := new Clock();
    u := clock.Now(earlier);
    TwoRows(h, first.(created := t), second.(created := u));
    log.Append(h, second.id, second.run, second.kind, second.payload, u);
  }

  /** A witness for every digest: nobody touched this log, and it does not verify. */
  method ClockSetBack(h: Digest, first: Entry, second: Entry, wall: nat, earlier: nat) returns (v: Verdict)
    requires HexDigest(h) && 0 < earlier < wall
    ensures v == Verdict(false, 0, Some(second.id))
  {
    var log, t, u := Restarted(h, first, second, wall, earlier);
    TwoOutOfOrder(h, first.(created := t), second.(created := u));
    v := log.VerifyChain(h);
  }

  /**
    One process on any log that verifies: if its clock starts beyond the newest row, everything it writes
    verifies, however the wall clock moves after that, and no row that was there is touched.
   */
  method OneProcess(log: EventLog, h: Digest, entries: seq<Entry>, walls: seq<nat>) returns (v: Verdict)
    requires HexDigest(h) && HashedOrNot(log.rows) && Chained(h, HashedRows(log.rows))
    requires |walls| == |entries|
    requires log.rows != [] && entries != [] ==> log.rows[|log.rows| - 1].created < walls[0]
    modifies log
    ensures v == Verdict(true, |HashedRows(old(log.rows))| + |entries|, None)
    ensures old(log.rows) <= log.rows && |log.rows| == |old(log.rows)| + |entries|
  {
    var clock := new Clock();
    ghost var before, written: seq<Entry> := log.rows, [];
    for k := 0 to |entries|
      invariant |written| == k && TimesIncrease(written) && fresh(clock)
      invariant k > 0 ==> written[k - 1].created == clock.last
      invariant k == 0 ==> clock.last == 0
      invariant StartsLater(before, written) && log.rows == Journal(h, before, written)
    {
      var e := entries[k];
      var t := clock.Now(walls[k]);
      ghost var longer := written + [e.(created := t)];
      assert longer[..k] == written;
      log.Append(h, e.id, e.run, e.kind, e.payload, t);
      written := longer;
    }
    AppendsVerify(h, before, written);
    v := log.VerifyChain(h);
  }
}
