/** The walk succeeds exactly on finite unfoldings, returns the unfolding, and every failure shows what is wrong. */
module DurableJsonTheorems {
  import opened Common
  import opened Filters
  import opened DurableJson

  // ----- unfoldings --------------------------------------------------------------------------

  function Size(j: Json): nat {
    match j
    case JObject(fields) => 1 + FieldsSize(fields)
    case JArray(items) => 1 + ItemsSize(items)
    case _ => 0
  }

  function FieldsSize(fields: seq<Field>): nat {
    if fields == [] then 0 else 1 + Size(fields[0].value) + FieldsSize(fields[1..])
  }

  function ItemsSize(items: seq<Json>): nat {
    if items == [] then 0 else 1 + Size(items[0]) + ItemsSize(items[1..])
  }

  lemma {:induction false} FieldIsSmaller(fields: seq<Field>, k: nat)
    requires k < |fields|
    ensures Size(fields[k].value) < FieldsSize(fields)
  {
    if k > 0 {
      FieldIsSmaller(fields[1..], k - 1);
    }
  }

  lemma {:induction false} ItemIsSmaller(items: seq<Json>, k: nat)
    requires k < |items|
    ensures Size(items[k]) < ItemsSize(items)
  {
    if k > 0 {
      ItemIsSmaller(items[1..], k - 1);
    }
  }

  /** A value has at most one unfolding. */
  lemma {:induction false} UnfoldingIsUnique(heap: Heap, v: Value, j: Json, j': Json, away: set<Ref>, away': set<Ref>)
    requires Unfolds(heap, v, j, away) && Unfolds(heap, v, j', away')
    ensures j == j'
    decreases j
  {
    if v.Object? {
      match heap[v.ref]
      case Plain(members, _) =>
        var shown := Visible(members);
        forall k | 0 <= k < |shown| ensures j.fields[k] == j'.fields[k] {
          UnfoldingIsUnique(heap, shown[k].property.value, j.fields[k].value, j'.fields[k].value, away, away');
        }
      case Array(elements, _, _) =>
        forall k | 0 <= k < |elements| ensures j.items[k] == j'.items[k] {
          UnfoldingIsUnique(heap, elements[k].value.value, j.items[k], j'.items[k], away, away');
        }
      case Exotic =>
    }
  }

  lemma {:induction false} UnfoldsWithLessAway(heap: Heap, v: Value, j: Json, away: set<Ref>, fewer: set<Ref>)
    requires Unfolds(heap, v, j, away) && fewer <= away
    ensures Unfolds(heap, v, j, fewer)
    decreases j
  {
    if v.Object? {
      match heap[v.ref]
      case Plain(members, _) =>
        var shown := Visible(members);
        forall k | 0 <= k < |shown| ensures Unfolds(heap, shown[k].property.value, j.fields[k].value, fewer) {
          UnfoldsWithLessAway(heap, shown[k].property.value, j.fields[k].value, away, fewer);
        }
      case Array(elements, _, _) =>
        forall k | 0 <= k < |elements| ensures Unfolds(heap, elements[k].value.value, j.items[k], fewer) {
          UnfoldsWithLessAway(heap, elements[k].value.value, j.items[k], away, fewer);
        }
      case Exotic =>
    }
  }

  /** A part of an object's unfolding never enters the object again: it would have to contain itself. */
  lemma {:induction false} PartsStayAway(heap: Heap, v: Value, j: Json, away: set<Ref>, r: Ref, whole: Json)
    requires Unfolds(heap, v, j, away) && Unfolds(heap, Object(r), whole, away) && Size(j) < Size(whole)
    ensures Unfolds(heap, v, j, away + {r})
    decreases j
  {
    if v.Object? {
      if v.ref == r {
        UnfoldingIsUnique(heap, v, j, whole, away, away);
        assert false;
      }
      match heap[v.ref]
      case Plain(members, _) =>
        var shown := Visible(members);
        forall k | 0 <= k < |shown| ensures Unfolds(heap, shown[k].property.value, j.fields[k].value, away + {r}) {
          FieldIsSmaller(j.fields, k);
          PartsStayAway(heap, shown[k].property.value, j.fields[k].value, away, r, whole);
        }
      case Array(elements, _, _) =>
        forall k | 0 <= k < |elements| ensures Unfolds(heap, elements[k].value.value, j.items[k], away + {r}) {
          ItemIsSmaller(j.items, k);
          PartsStayAway(heap, elements[k].value.value, j.items[k], away, r, whole);
        }
      case Exotic =>
    }
  }

  // ----- the walk is sound and complete ------------------------------------------------------

  ghost predicate MembersUnfold(heap: Heap, shown: seq<Member>, fields: seq<Field>, away: set<Ref>) {
    && |fields| == |shown|
    && forall k :: 0 <= k < |shown| ==>
      fields[k].key == shown[k].key && shown[k].property.Data?
      && Unfolds(heap, shown[k].property.value, fields[k].value, away)
  }

  ghost predicate ElementUnfolds(heap: Heap, e: Option<Property>, j: Json, away: set<Ref>) {
    e.Some? && e.value.Data? && Unfolds(heap, e.value.value, j, away)
  }

  ghost predicate ElementsUnfold(heap: Heap, elements: seq<Option<Property>>, i: nat, items: seq<Json>, away: set<Ref>) {
    && i + |items| == |elements|
    && forall k :: i <= k < |elements| ==> ElementUnfolds(heap, elements[k], items[k - i], away)
  }

  lemma {:induction false} NormSound(heap: Heap, v: Value, path: seq<Segment>, seen: set<Ref>)
    ensures var r := Norm(heap, v, path, seen); r.Ok? ==> Unfolds(heap, v, r.value, seen)
    decreases heap.Keys - seen, 0, 0
  {
    if v.Object? && v.ref !in seen && v.ref in heap && Defect(heap[v.ref]).None? {
      NodeSound(heap, v.ref, path, seen);
    }
  }

  lemma {:induction false} NodeSound(heap: Heap, r: Ref, path: seq<Segment>, seen: set<Ref>)
    requires r in heap && r !in seen && Defect(heap[r]).None?
    ensures var j := NormNode(heap, r, path, seen); j.Ok? ==> NodeUnfolds(heap, heap[r], j.value, seen)
    decreases heap.Keys - seen, 0, 0, 0
  {
    assert r in heap.Keys - seen && r !in heap.Keys - (seen + {r});
    match heap[r]
    case Plain(members, _) =>
      VisibleIsData(members);
      MembersSound(heap, Visible(members), path, seen + {r});
      var fields := NormMembers(heap, Visible(members), path, seen + {r});
      if fields.Ok? {
        forall k | 0 <= k < |fields.value| ensures Unfolds(heap, Visible(members)[k].property.value, fields.value[k].value, seen) {
          UnfoldsWithLessAway(heap, Visible(members)[k].property.value, fields.value[k].value, seen + {r}, seen);
        }
      }
    case Array(elements, _, _) =>
      assert NoElementAccessor(elements);
      ElementsSound(heap, elements, 0, path, seen + {r});
      var items := NormElements(heap, elements, 0, path, seen + {r});
      if items.Ok? {
        forall k | 0 <= k < |items.value| ensures ElementUnfolds(heap, elements[k], items.value[k], seen) {
          assert ElementUnfolds(heap, elements[k], items.value[k - 0], seen + {r});
          UnfoldsWithLessAway(heap, elements[k].value.value, items.value[k], seen + {r}, seen);
        }
      }
    case Exotic =>
  }

  lemma {:induction false} MembersSound(heap: Heap, shown: seq<Member>, path: seq<Segment>, seen: set<Ref>)
    requires AllData(shown)
    ensures var r := NormMembers(heap, shown, path, seen); r.Ok? ==> MembersUnfold(heap, shown, r.value, seen)
    decreases heap.Keys - seen, 1, |shown|
  {
    if shown != [] {
      NormSound(heap, shown[0].property.value, path + [Key(shown[0].key)], seen);
      MembersSound(heap, shown[1..], path, seen);
    }
  }

  lemma {:induction false} ElementsSound(heap: Heap, elements: seq<Option<Property>>, i: nat, path: seq<Segment>, seen: set<Ref>)
    requires NoElementAccessor(elements) && i <= |elements|
    ensures var r := NormElements(heap, elements, i, path, seen); r.Ok? ==> ElementsUnfold(heap, elements, i, r.value, seen)
    decreases heap.Keys - seen, 1, |elements| - i
  {
    if i < |elements| && elements[i].Some? {
      NormSound(heap, elements[i].value.value, path + [Index(i)], seen);
      ElementsSound(heap, elements, i + 1, path, seen);
      var r := NormElements(heap, elements, i, path, seen);
      if r.Ok? {
        forall k | i <= k < |elements| ensures ElementUnfolds(heap, elements[k], r.value[k - i], seen) {
          assert k > i ==> r.value[k - i] == r.value[1..][k - (i + 1)];
        }
      }
    }
  }

  lemma {:induction false} NormComplete(heap: Heap, v: Value, path: seq<Segment>, seen: set<Ref>, j: Json)
    requires Unfolds(heap, v, j, seen)
    ensures Norm(heap, v, path, seen) == Ok(j)
    decreases heap.Keys - seen, 0, 0
  {
    if v.Object? {
      NodeComplete(heap, v.ref, path, seen, j);
    }
  }

  lemma {:induction false} NodeComplete(heap: Heap, r: Ref, path: seq<Segment>, seen: set<Ref>, j: Json)
    requires Unfolds(heap, Object(r), j, seen)
    ensures NormNode(heap, r, path, seen) == Ok(j)
    decreases heap.Keys - seen, 0, 0, 0
  {
    assert r in heap.Keys - seen && r !in heap.Keys - (seen + {r});
    match heap[r]
    case Plain(members, _) =>
      var shown := Visible(members);
      VisibleIsData(members);
      forall k | 0 <= k < |shown| ensures Unfolds(heap, shown[k].property.value, j.fields[k].value, seen + {r}) {
        FieldIsSmaller(j.fields, k);
        PartsStayAway(heap, shown[k].property.value, j.fields[k].value, seen, r, j);
      }
      MembersComplete(heap, shown, path, seen + {r}, j.fields);
    case Array(elements, _, _) =>
      assert NoElementAccessor(elements);
      forall k | 0 <= k < |elements| ensures Unfolds(heap, elements[k].value.value, j.items[k], seen + {r}) {
        ItemIsSmaller(j.items, k);
        PartsStayAway(heap, elements[k].value.value, j.items[k], seen, r, j);
      }
      ElementsComplete(heap, elements, 0, path, seen + {r}, j.items);
    case Exotic =>
  }

  lemma {:induction false} MembersComplete(heap: Heap, shown: seq<Member>, path: seq<Segment>, seen: set<Ref>, fields: seq<Field>)
    requires AllData(shown) && MembersUnfold(heap, shown, fields, seen)
    ensures NormMembers(heap, shown, path, seen) == Ok(fields)
    decreases heap.Keys - seen, 1, |shown|
  {
    if shown != [] {
      NormComplete(heap, shown[0].property.value, path + [Key(shown[0].key)], seen, fields[0].value);
      MembersComplete(heap, shown[1..], path, seen, fields[1..]);
      assert fields == [Field(shown[0].key, fields[0].value)] + fields[1..];
    }
  }

  lemma {:induction false} ElementsComplete(heap: Heap, elements: seq<Option<Property>>, i: nat,
      path: seq<Segment>, seen: set<Ref>, items: seq<Json>)
    requires NoElementAccessor(elements) && i <= |elements| && ElementsUnfold(heap, elements, i, items, seen)
    ensures NormElements(heap, elements, i, path, seen) == Ok(items)
    decreases heap.Keys - seen, 1, |elements| - i
  {
    if i < |elements| {
      assert ElementUnfolds(heap, elements[i], items[i - i], seen);
      NormComplete(heap, elements[i].value.value, path + [Index(i)], seen, items[0]);
      forall k | i + 1 <= k < |elements| ensures ElementUnfolds(heap, elements[k], items[1..][k - (i + 1)], seen) {
        assert items[1..][k - (i + 1)] == items[k - i];
      }
      ElementsComplete(heap, elements, i + 1, path, seen, items[1..]);
      assert items == [items[0]] + items[1..];
    }
  }

  /**
    The normaliser succeeds exactly when the value has a finite unfolding, and then returns it. Shared
    subobjects are no obstacle: an unfolding copies them.
   */
  lemma {:induction false} NormExactly(heap: Heap, v: Value, path: seq<Segment>, j: Json)
    ensures Norm(heap, v, path, {}) == Ok(j) <==> Unfolds(heap, v, j, {})
  {
    NormSound(heap, v, path, {});
    if Unfolds(heap, v, j, {}) {
      NormComplete(heap, v, path, {}, j);
    }
  }

  // ----- the reference graph -----------------------------------------------------------------

  /** Following one segment from an object: an enumerable member of that key, or the element of that index. */
  ghost predicate Leads(heap: Heap, v: Value, segment: Segment, w: Value) {
    v.Object? && v.ref in heap && match heap[v.ref]
      case Plain(members, _) => segment.Key? && exists k :: 0 <= k < |members| && members[k] == Member(segment.key, Data(w, true))
      case Array(elements, _, _) => segment.Index? && segment.index < |elements| && Holds(elements[segment.index], w)
      case Exotic => false
  }

  predicate Holds(p: Option<Property>, w: Value) {
    p.Some? && p.value.Data? && p.value.value == w
  }

  /** The values met along a path. */
  ghost predicate Along(heap: Heap, ws: seq<Value>, path: seq<Segment>) {
    |ws| == |path| + 1 && forall k :: 0 <= k < |path| ==> Leads(heap, ws[k], path[k], ws[k + 1])
  }

  /** Null, a truth value, a finite number or a text; or a fit object without holes, not met before on the way. */
  ghost predicate Clean(heap: Heap, ws: seq<Value>)
    requires ws != []
  {
    var last := ws[|ws| - 1];
    match last
    case Null => true
    case Boolean(_) => true
    case Str(_) => true
    case Num(n) => n.Finite?
    case Object(r) => r in heap && Sound(heap[r]) && NoHoles(heap[r]) && last !in ws[..|ws| - 1]
    case _ => false
  }

  predicate NoHoles(node: Node) {
    node.Array? ==> forall k | 0 <= k < |node.elements| :: node.elements[k].Some?
  }

  /** What a failure says is true of the value its path leads to; a hole is named by its own index. */
  ghost predicate Blames(heap: Heap, ws: seq<Value>, f: Failure)
    requires ws != []
  {
    var last := ws[|ws| - 1];
    match f.reason
    case NotFiniteNumber => Along(heap, ws, f.path) && last == Num(NotFinite)
    case UndefinedValue => Along(heap, ws, f.path) && last == Undefined
    case FunctionFound => Along(heap, ws, f.path) && last == FunctionValue
    case BigIntFound => Along(heap, ws, f.path) && last == BigInt
    case SymbolFound => Along(heap, ws, f.path) && last == Symbol
    case Circular => Along(heap, ws, f.path) && last.Object? && last in ws[..|ws| - 1]
    case Hole =>
      f.path != [] && Along(heap, ws, f.path[..|f.path| - 1]) && f.path[|f.path| - 1].Index?
      && last.Object? && last.ref in heap && heap[last.ref].Array?
      && f.path[|f.path| - 1].index < |heap[last.ref].elements| && heap[last.ref].elements[f.path[|f.path| - 1].index].None?
    case _ =>
      Along(heap, ws, f.path) && last.Object?
      && if last.ref in heap then Shows(heap[last.ref], f.reason) else f.reason.NonPlain?
  }

  lemma {:induction false} BlamedIsUnclean(heap: Heap, ws: seq<Value>, f: Failure)
    requires ws != [] && Blames(heap, ws, f)
    ensures !Clean(heap, ws)
  {
    var last := ws[|ws| - 1];
    if last.Object? && last.ref in heap && Shows(heap[last.ref], f.reason) {
      ShownIsUnsound(heap[last.ref], f.reason);
    }
  }

  lemma {:induction false} ShownIsUnsound(node: Node, reason: Reason)
    requires Shows(node, reason)
    ensures !Sound(node)
  {
  }

  lemma {:induction false} AlongSnoc(heap: Heap, ws: seq<Value>, path: seq<Segment>, segment: Segment, w: Value)
    requires Along(heap, ws, path) && Leads(heap, ws[|ws| - 1], segment, w)
    ensures Along(heap, ws + [w], path + [segment])
  {
  }

  /** A failing walk has followed its path from the value to what it blames. */
  lemma {:induction false} FailureTrail(heap: Heap, v: Value, path: seq<Segment>, seen: set<Ref>, trail: seq<Value>)
    returns (ws: seq<Value>)
    requires Norm(heap, v, path, seen).Err? && Along(heap, trail + [v], path)
    requires forall r :: r in seen ==> Object(r) in trail
    ensures trail + [v] <= ws && Blames(heap, ws, Norm(heap, v, path, seen).error)
    decreases heap.Keys - seen, 0, 0
  {
    ws := trail + [v];
    assert ws[..|ws| - 1] == trail;
    if v.Object? && v.ref !in seen && v.ref in heap && Defect(heap[v.ref]).None? {
      var r := v.ref;
      assert r in heap.Keys - seen && r !in heap.Keys - (seen + {r});
      match heap[r] {
        case Plain(members, _) =>
          VisibleIsData(members);
          VisibleLeads(heap, v, members);
          ws := MembersTrail(heap, Visible(members), 0, path, seen + {r}, ws);
        case Array(elements, _, _) =>
          assert NoElementAccessor(elements);
          ws := ElementsTrail(heap, elements, 0, path, seen + {r}, ws);
        case Exotic =>
      }
    }
  }

  lemma {:induction false} VisibleLeads(heap: Heap, v: Value, members: seq<Member>)
    requires v.Object? && v.ref in heap && heap[v.ref].Plain? && heap[v.ref].members == members
    ensures AllData(Visible(members))
    ensures forall k :: 0 <= k < |Visible(members)| ==>
      Leads(heap, v, Key(Visible(members)[k].key), Visible(members)[k].property.value)
  {
    VisibleIsData(members);
    VisibleAreFiltered(members);
    var at :| Picks(members, at, Visible(members), (m: Member) => IsVisible(m.property));
    forall k | 0 <= k < |Visible(members)|
      ensures Leads(heap, v, Key(Visible(members)[k].key), Visible(members)[k].property.value)
    {
      assert Among(at, at[k]);
    }
  }

  lemma {:induction false} MembersTrail(heap: Heap, shown: seq<Member>, i: nat, path: seq<Segment>,
      seen: set<Ref>, trail: seq<Value>)
    returns (ws: seq<Value>)
    requires AllData(shown) && i <= |shown| && NormMembers(heap, shown[i..], path, seen).Err? && Along(heap, trail, path)
    requires forall r :: r in seen ==> Object(r) in trail
    requires forall k :: 0 <= k < |shown| ==> Leads(heap, trail[|trail| - 1], Key(shown[k].key), shown[k].property.value)
    ensures trail <= ws && Blames(heap, ws, NormMembers(heap, shown[i..], path, seen).error)
    decreases heap.Keys - seen, 1, |shown| - i
  {
    var w := shown[i].property.value;
    assert shown[i..][0] == shown[i] && shown[i..][1..] == shown[i + 1..];
    if Norm(heap, w, path + [Key(shown[i].key)], seen).Err? {
      AlongSnoc(heap, trail, path, Key(shown[i].key), w);
      ws := FailureTrail(heap, w, path + [Key(shown[i].key)], seen, trail);
    } else {
      ws := MembersTrail(heap, shown, i + 1, path, seen, trail);
    }
  }

  lemma {:induction false} ElementsTrail(heap: Heap, elements: seq<Option<Property>>, i: nat,
      path: seq<Segment>, seen: set<Ref>, trail: seq<Value>)
    returns (ws: seq<Value>)
    requires NoElementAccessor(elements) && i <= |elements| && NormElements(heap, elements, i, path, seen).Err?
    requires Along(heap, trail, path) && forall r :: r in seen ==> Object(r) in trail
    requires trail[|trail| - 1].Object? && trail[|trail| - 1].ref in heap
    requires var node := heap[trail[|trail| - 1].ref]; node.Array? && node.elements == elements
    ensures trail <= ws && Blames(heap, ws, NormElements(heap, elements, i, path, seen).error)
    decreases heap.Keys - seen, 1, |elements| - i
  {
    if elements[i].None? {
      ws := trail;
      assert (path + [Index(i)])[..|path|] == path;
    } else {
      var w := elements[i].value.value;
      if Norm(heap, w, path + [Index(i)], seen).Err? {
        assert Holds(elements[i], w);
        AlongSnoc(heap, trail, path, Index(i), w);
        ws := FailureTrail(heap, w, path + [Index(i)], seen, trail);
      } else {
        ws := ElementsTrail(heap, elements, i + 1, path, seen, trail);
      }
    }
  }

  /** Every failure, from the value itself: its path exists, and what it blames there is so. */
  lemma {:induction false} FailureIsTrue(heap: Heap, v: Value) returns (ws: seq<Value>)
    requires Norm(heap, v, [], {}).Err?
    ensures ws != [] && ws[0] == v && Blames(heap, ws, Norm(heap, v, [], {}).error)
  {
    assert [] + [v] == [v];
    ws := FailureTrail(heap, v, [], {}, []);
  }

  lemma {:induction false} PlaceOfVisible(members: seq<Member>, i: nat) returns (k: nat)
    requires i < |members| && IsVisible(members[i].property)
    ensures k < |Visible(members)| && Visible(members)[k] == members[i]
  {
    VisibleAreFiltered(members);
    var at :| Picks(members, at, Visible(members), (m: Member) => IsVisible(m.property));
    assert Among(at, i);
    k :| 0 <= k < |at| && at[k] == i;
  }

  /** Along a path, each value unfolds to something strictly smaller than the one before it. */
  lemma {:induction false} PartIsSmaller(heap: Heap, v: Value, segment: Segment, w: Value, j: Json) returns (part: Json)
    requires Unfolds(heap, v, j, {}) && Leads(heap, v, segment, w)
    ensures Unfolds(heap, w, part, {}) && Size(part) < Size(j)
  {
    match heap[v.ref] {
      case Plain(members, _) =>
        var i :| 0 <= i < |members| && members[i] == Member(segment.key, Data(w, true));
        var k := PlaceOfVisible(members, i);
        FieldIsSmaller(j.fields, k);
        part := j.fields[k].value;
      case Array(elements, _, _) =>
        ItemIsSmaller(j.items, segment.index);
        part := j.items[segment.index];
    }
  }

  lemma {:induction false} PathShrinks(heap: Heap, ws: seq<Value>, path: seq<Segment>, i: nat, k: nat, j: Json) returns (part: Json)
    requires Along(heap, ws, path) && i <= k < |ws| && Unfolds(heap, ws[i], j, {})
    ensures Unfolds(heap, ws[k], part, {}) && (i < k ==> Size(part) < Size(j)) && (i == k ==> part == j)
    decreases k - i
  {
    if i == k {
      part := j;
    } else {
      var next := PartIsSmaller(heap, ws[i], path[i], ws[i + 1], j);
      part := PathShrinks(heap, ws, path, i + 1, k, next);
    }
  }

  /** Whatever a value that unfolds leads to is clean. */
  lemma {:induction false} UnfoldingsAreClean(heap: Heap, ws: seq<Value>, path: seq<Segment>, j: Json)
    requires Along(heap, ws, path) && Unfolds(heap, ws[0], j, {})
    ensures Clean(heap, ws)
  {
    var n := |ws| - 1;
    var last := PathShrinks(heap, ws, path, 0, n, j);
    if ws[n] in ws[..n] {
      var i :| 0 <= i < n && ws[..n][i] == ws[n];
      var first := PathShrinks(heap, ws, path, 0, i, j);
      var again := PathShrinks(heap, ws, path, i, n, first);
      UnfoldingIsUnique(heap, ws[n], first, again, {}, {});
    }
  }

  /**
    Success in terms of the reference graph: the normaliser succeeds if and only if everything the value leads to
    is clean, that is, no unfit object, no hole, no unusable primitive, and no way back to an object on the path.
   */
  lemma {:induction false} SucceedsOnCleanAcyclicGraphs(heap: Heap, v: Value)
    ensures Norm(heap, v, [], {}).Ok? <==>
      forall ws, path :: Along(heap, ws, path) && ws[0] == v ==> Clean(heap, ws)
  {
    if Norm(heap, v, [], {}).Ok? {
      var j := Norm(heap, v, [], {}).value;
      NormSound(heap, v, [], {});
      forall ws, path | Along(heap, ws, path) && ws[0] == v ensures Clean(heap, ws) {
        UnfoldingsAreClean(heap, ws, path, j);
      }
    } else {
      var ws := FailureIsTrue(heap, v);
      BlamedIsUnclean(heap, ws, Norm(heap, v, [], {}).error);
    }
  }
}
