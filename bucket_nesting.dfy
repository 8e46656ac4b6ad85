/**
 * The column-order logic of the Lens bucket nesting editor: `nestColumn`
 * and the non-rendering decisions of `BucketNestingEditor` (which other
 * columns it offers, whether it shows anything, which column precedes the
 * edited one, and what the radio toggle and the dropdown pass on).
 *
 * Column ids are strings; a layer's `columnOrder` is a sequence of ids and
 * its `columns` record is a sequence of (id, column) entries in the record's
 * enumeration order, the order `Object.entries` yields.
 */
module BucketNesting {
  import opened Wrappers

  // ---------------------------------------------------------------------
  // Sequence helpers: `Array.prototype.filter(c => c !== x)` and `indexOf`
  // ---------------------------------------------------------------------

  /** `s.filter(c => c !== x)`: every occurrence of `x` removed. */
  function Without(s: seq<string>, x: string): (r: seq<string>)
    ensures x !in r
    ensures |r| <= |s|
  {
    if s == [] then []
    else (if s[0] == x then [] else [s[0]]) + Without(s[1..], x)
  }

  /** `Without` keeps every other element. */
  lemma {:induction false} WithoutMembers(s: seq<string>, x: string)
    ensures forall y | y != x :: y in Without(s, x) <==> y in s
  {
    if s != [] {
      WithoutMembers(s[1..], x);
    }
  }

  /** `Without` keeps every other element with its multiplicity. */
  lemma {:induction false} WithoutMultiset(s: seq<string>, x: string)
    ensures multiset(Without(s, x)) == multiset(s)[x := 0]
  {
    if s != [] {
      assert s == [s[0]] + s[1..];
      WithoutMultiset(s[1..], x);
    }
  }

  /** `s.indexOf(x)`: the first position of `x`, or -1 when `x` is absent. */
  function IndexOf(s: seq<string>, x: string): (r: int)
    ensures -1 <= r < |s|
    ensures r == -1 <==> x !in s
    ensures 0 <= r ==> s[r] == x && x !in s[..r]
  {
    if s == [] then -1
    else if s[0] == x then 0
    else
      var k := IndexOf(s[1..], x);
      if k == -1 then -1
      else
        assert s[..k + 1] == [s[0]] + s[1..][..k];
        k + 1
  }

  /** The first occurrence is the only position before which `x` is absent. */
  lemma FirstIndexUnique(s: seq<string>, x: string, i: nat)
    requires i < |s| && s[i] == x && x !in s[..i]
    ensures IndexOf(s, x) == i
  {
  }

  lemma {:induction false} WithoutAppend(a: seq<string>, b: seq<string>, x: string)
    ensures Without(a + b, x) == Without(a, x) + Without(b, x)
  {
    if a == [] {
      assert a + b == b;
    } else {
      var c := a + b;
      var head := if a[0] == x then [] else [a[0]];
      assert c[0] == a[0] && c[1..] == a[1..] + b;
      WithoutAppend(a[1..], b, x);
      assert Without(c, x) == head + (Without(a[1..], x) + Without(b, x));
      assert Without(a, x) == head + Without(a[1..], x);
    }
  }

  lemma WithoutSingle(x: string)
    ensures Without([x], x) == []
  {
    assert [x][1..] == [];
  }

  lemma {:induction false} WithoutAbsent(s: seq<string>, x: string)
    requires x !in s
    ensures Without(s, x) == s
  {
    if s != [] {
      WithoutAbsent(s[1..], x);
    }
  }

  /** An element that occurs once does not occur again after its position. */
  lemma OnlyOccurrence(s: seq<string>, i: nat)
    requires i < |s| && multiset(s)[s[i]] == 1
    ensures s[i] !in s[i + 1..]
  {
    assert s == s[..i + 1] + s[i + 1..];
    assert multiset(s[..i + 1])[s[i]] >= 1;
  }

  lemma Reassemble(s: seq<string>, i: nat)
    requires i < |s|
    ensures s[..i] + [s[i]] + s[i + 1..] == s
  {
  }

  /** Removing an element that occurs only at position `i` closes the gap it leaves. */
  lemma WithoutAt(s: seq<string>, i: nat)
    requires i < |s| && s[i] !in s[..i] && s[i] !in s[i + 1..]
    ensures Without(s, s[i]) == s[..i] + s[i + 1..]
  {
    assert s == s[..i] + [s[i]] + s[i + 1..];
    WithoutDropsOne(s[..i], s[i], s[i + 1..]);
  }

  /** Removing the one `x` that sits between two `x`-free parts just joins the parts. */
  lemma WithoutDropsOne(a: seq<string>, x: string, b: seq<string>)
    requires x !in a && x !in b
    ensures Without(a + [x] + b, x) == a + b
  {
    assert Without(a + [x], x) == a by {
      WithoutAppend(a, [x], x);
      WithoutSingle(x);
      WithoutAbsent(a, x);
    }
    WithoutAppend(a + [x], b, x);
    WithoutAbsent(b, x);
  }

  // ---------------------------------------------------------------------
  // nestColumn
  // ---------------------------------------------------------------------

  /**
   * `nestColumn(columnOrder, outer, inner)`: drop every `inner`, then splice
   * one `inner` in just after the first `outer` of what is left; when `outer`
   * is not left, `indexOf` answers -1 and `inner` goes to the front. The splice
   * acts on the fresh copy `filter` returned, so the model builds that copy as
   * a value. The result is a permutation of the input with the copies of
   * `inner` collapsed to exactly one.
   */
  function NestColumn(columnOrder: seq<string>, outer: string, inner: string): (r: seq<string>)
    ensures multiset(r) == multiset(columnOrder)[inner := 1]
    ensures |r| == |columnOrder| - multiset(columnOrder)[inner] + 1
  {
    var rest := Without(columnOrder, inner);
    var outerPosition := IndexOf(rest, outer);
    WithoutMultiset(columnOrder, inner);
    SpliceMultiset(rest, outerPosition + 1, inner);
    assert multiset(rest) + multiset{inner} == multiset(columnOrder)[inner := 1];
    rest[..outerPosition + 1] + [inner] + rest[outerPosition + 1..]
  }

  /** Splicing one element into a sequence adds exactly that element to its multiset. */
  lemma SpliceMultiset(s: seq<string>, k: nat, x: string)
    requires k <= |s|
    ensures multiset(s[..k] + [x] + s[k..]) == multiset(s) + multiset{x}
  {
    assert s == s[..k] + s[k..];
  }

  /**
   * Where `inner` lands: one past `outer`'s position in the filtered list, so
   * at the front when `outer` is not there.
   */
  lemma NestInnerPosition(columnOrder: seq<string>, outer: string, inner: string)
    ensures var r := NestColumn(columnOrder, outer, inner);
            IndexOf(r, inner) == IndexOf(Without(columnOrder, inner), outer) + 1
  {
    var rest := Without(columnOrder, inner);
    var p := IndexOf(rest, outer);
    var r := NestColumn(columnOrder, outer, inner);
    assert r[..p + 1] == rest[..p + 1];
    assert inner !in r[..p + 1];
    FirstIndexUnique(r, inner, p + 1);
  }

  /** With `outer` present and distinct from `inner`, `inner` ends up right after it. */
  lemma NestPlacesInnerAfterOuter(columnOrder: seq<string>, outer: string, inner: string)
    requires outer != inner && outer in columnOrder
    ensures var r := NestColumn(columnOrder, outer, inner);
            0 <= IndexOf(r, outer) && IndexOf(r, inner) == IndexOf(r, outer) + 1
  {
    var rest := Without(columnOrder, inner);
    var r := NestColumn(columnOrder, outer, inner);
    WithoutMembers(columnOrder, inner);
    assert outer in rest;
    var p := IndexOf(rest, outer);
    assert r[..p] == rest[..p];
    assert r[p] == outer;
    FirstIndexUnique(r, outer, p);
    NestInnerPosition(columnOrder, outer, inner);
  }

  /**
   * With `outer` absent from the filtered list (it equals `inner`, or it is not
   * a column at all, like the dropdown's '' entry), `inner` moves to the front
   * and everything else keeps its order.
   */
  lemma NestAtFront(columnOrder: seq<string>, outer: string, inner: string)
    requires outer == inner || outer !in columnOrder
    ensures NestColumn(columnOrder, outer, inner) == [inner] + Without(columnOrder, inner)
  {
    var rest := Without(columnOrder, inner);
    WithoutMembers(columnOrder, inner);
    assert outer !in rest;
    assert IndexOf(rest, outer) == -1;
    assert rest[..0] + [inner] + rest[0..] == [inner] + rest;
  }

  /** Deleting `inner` again gives the input with `inner` deleted: all other columns keep their relative order. */
  lemma NestKeepsOthersInOrder(columnOrder: seq<string>, outer: string, inner: string)
    ensures Without(NestColumn(columnOrder, outer, inner), inner) == Without(columnOrder, inner)
  {
    var rest := Without(columnOrder, inner);
    var p := IndexOf(rest, outer);
    var front, back := rest[..p + 1], rest[p + 1..];
    assert NestColumn(columnOrder, outer, inner) == front + [inner] + back;
    assert inner !in front && inner !in back;
    WithoutDropsOne(front, inner, back);
    assert front + back == rest;
  }

  /** Nesting the same pair twice changes nothing the second time. */
  lemma NestIdempotent(columnOrder: seq<string>, outer: string, inner: string)
    ensures NestColumn(NestColumn(columnOrder, outer, inner), outer, inner)
         == NestColumn(columnOrder, outer, inner)
  {
    NestKeepsOthersInOrder(columnOrder, outer, inner);
  }

  /**
   * The facts above pin the result down: any order that holds `inner` once,
   * at the position `NestInnerPosition` gives, and that lists the other
   * columns as the input does, is the result of `NestColumn`.
   */
  lemma NestDetermined(columnOrder: seq<string>, outer: string, inner: string, r: seq<string>)
    requires multiset(r)[inner] == 1
    requires Without(r, inner) == Without(columnOrder, inner)
    requires IndexOf(r, inner) == IndexOf(Without(columnOrder, inner), outer) + 1
    ensures r == NestColumn(columnOrder, outer, inner)
  {
    var rest := Without(columnOrder, inner);
    var q := IndexOf(r, inner);
    OnlyOccurrence(r, q);
    WithoutAt(r, q);
    var p := IndexOf(rest, outer);
    assert NestColumn(columnOrder, outer, inner) == rest[..p + 1] + [inner] + rest[p + 1..];
    assert rest[..p + 1] == r[..q] && rest[p + 1..] == r[q + 1..];
    Reassemble(r, q);
  }

  // ---------------------------------------------------------------------
  // BucketNestingEditor
  // ---------------------------------------------------------------------

  /** The part of a Lens column the editor looks at. */
  datatype Column = Column(columnLabel: string, isBucketed: bool)

  /** One `[id, column]` pair of `Object.entries(layer.columns)`. */
  datatype ColumnEntry = ColumnEntry(id: string, column: Column)

  datatype Layer = Layer(columns: seq<ColumnEntry>, columnOrder: seq<string>)

  /** `layer.columns[columnId]`, or `None` for `undefined`. */
  function LookupColumn(columns: seq<ColumnEntry>, columnId: string): (c: Option<Column>)
    ensures c.None? <==> forall e | e in columns :: e.id != columnId
    ensures c.Some? ==> ColumnEntry(columnId, c.value) in columns
  {
    if columns == [] then None
    else if columns[0].id == columnId then Some(columns[0].column)
    else LookupColumn(columns[1..], columnId)
  }

  /**
   * `aggColumns`, reduced to the ids: the entries that are bucketed and are
   * not the edited column, in enumeration order.
   */
  function AggColumns(columns: seq<ColumnEntry>, columnId: string): (ids: seq<string>)
    ensures |ids| <= |columns|
    ensures columnId !in ids
    ensures forall id :: id in ids <==>
      exists e | e in columns :: e.id == id && e.id != columnId && e.column.isBucketed
  {
    if columns == [] then []
    else
      var e := columns[0];
      assert forall f | f in columns :: f == e || f in columns[1..];
      (if e.id != columnId && e.column.isBucketed then [e.id] else []) + AggColumns(columns[1..], columnId)
  }

  /** The ids of a `columns` record are distinct, as the keys of an object are. */
  predicate DistinctIds(columns: seq<ColumnEntry>) {
    forall i, j | 0 <= i < j < |columns| :: columns[i].id != columns[j].id
  }

  /** No id occurs twice. */
  predicate NoRepeats(s: seq<string>) {
    forall i, j | 0 <= i < j < |s| :: s[i] != s[j]
  }

  lemma NoRepeatsCons(x: string, s: seq<string>)
    requires NoRepeats(s) && x !in s
    ensures NoRepeats([x] + s)
  {
    var t := [x] + s;
    forall i, j | 0 <= i < j < |t| ensures t[i] != t[j] {
      assert t[j] == s[j - 1] && s[j - 1] in s;
      if i > 0 {
        assert t[i] == s[i - 1];
      }
    }
  }

  /** A sequence without repeats has as many distinct elements as it is long. */
  lemma {:induction false} NoRepeatsCard(s: seq<string>)
    requires NoRepeats(s)
    ensures |set y | y in s| == |s|
  {
    if s != [] {
      var t := s[1..];
      assert NoRepeats(t) by {
        forall i, j | 0 <= i < j < |t| ensures t[i] != t[j] {
          assert t[i] == s[i + 1] && t[j] == s[j + 1];
        }
      }
      NoRepeatsCard(t);
      assert s[0] !in t by {
        forall k | 0 <= k < |t| ensures t[k] != s[0] {
          assert t[k] == s[k + 1];
        }
      }
      assert (set y | y in s) == {s[0]} + (set y | y in t);
    }
  }

  /** Over a record with distinct ids, each candidate is offered once. */
  lemma {:induction false} AggColumnsDistinct(columns: seq<ColumnEntry>, columnId: string)
    requires DistinctIds(columns)
    ensures NoRepeats(AggColumns(columns, columnId))
  {
    if columns != [] {
      var e := columns[0];
      var tail := columns[1..];
      var head := if e.id != columnId && e.column.isBucketed then [e.id] else [];
      var rest := AggColumns(tail, columnId);
      assert DistinctIds(tail) by {
        forall i, j | 0 <= i < j < |tail| ensures tail[i].id != tail[j].id {
          assert tail[i] == columns[i + 1] && tail[j] == columns[j + 1];
        }
      }
      AggColumnsDistinct(tail, columnId);
      forall f | f in tail ensures f.id != e.id {
        var k :| 0 <= k < |tail| && tail[k] == f;
        assert columns[k + 1] == f;
      }
      assert e.id !in rest;
      assert AggColumns(columns, columnId) == head + rest;
      if head == [] {
        assert head + rest == rest;
      } else {
        NoRepeatsCons(e.id, rest);
      }
    }
  }

  /**
   * With distinct ids, exactly one bucketed column besides the edited (and
   * bucketed) one gives the two radios over that column, not the dropdown.
   */
  lemma SingleCandidateGivesToggle(layer: Layer, columnId: string, e: ColumnEntry)
    requires DistinctIds(layer.columns)
    requires LookupColumn(layer.columns, columnId).Some? && LookupColumn(layer.columns, columnId).value.isBucketed
    requires e in layer.columns && e.id != columnId && e.column.isBucketed
    requires forall f | f in layer.columns && f.id != columnId && f.column.isBucketed :: f.id == e.id
    ensures BucketNestingEditor(layer, columnId).NestingToggle?
    ensures BucketNestingEditor(layer, columnId).target == e.id
  {
    var ids := AggColumns(layer.columns, columnId);
    AggColumnsDistinct(layer.columns, columnId);
    assert e.id in ids;
    forall i | 0 <= i < |ids| ensures ids[i] == e.id {
      assert ids[i] in ids;
    }
    NoRepeatsCard(ids);
    assert (set y | y in ids) == {e.id};
    assert |ids| == 1 && ids[0] == e.id;
    assert ids == [e.id];
  }

  /**
   * `layer.columnOrder[layer.columnOrder.indexOf(columnId) - 1]`: the entry
   * just before the first `columnId`; `undefined` when `columnId` comes first
   * or is missing (the index is then -1 or -2).
   */
  function PrevColumn(columnOrder: seq<string>, columnId: string): (prev: Option<string>)
    ensures prev.None? <==> columnId !in columnOrder || columnOrder[0] == columnId
    ensures prev.Some? ==> exists i | 0 < i < |columnOrder| ::
      columnOrder[i] == columnId && columnId !in columnOrder[..i] && prev.value == columnOrder[i - 1]
  {
    var i := IndexOf(columnOrder, columnId);
    if i <= 0 then None else Some(columnOrder[i - 1])
  }

  /** JavaScript truthiness of an optional id: `undefined` and '' are false. */
  predicate Truthy(v: Option<string>) {
    v.Some? && v.value != ""
  }

  /** What the editor renders, with the rendering itself left out. */
  datatype Control =
    | Hidden
      /** Two radios over the single candidate; `topLevel` says whether the "top level" one is checked. */
    | NestingToggle(target: string, topLevel: bool)
      /** A dropdown: the '' "Entire data set" entry, then the candidates; `selected` is its value. */
    | NestingSelect(options: seq<string>, selected: Option<string>)

  /** The decisions of `BucketNestingEditor` for one layer and edited column. */
  function BucketNestingEditor(layer: Layer, columnId: string): (c: Control)
    ensures c.Hidden? <==>
      || LookupColumn(layer.columns, columnId).None?
      || !LookupColumn(layer.columns, columnId).value.isBucketed
      || AggColumns(layer.columns, columnId) == []
    ensures c.NestingToggle? ==>
      && AggColumns(layer.columns, columnId) == [c.target]
      && c.target != columnId
      && (c.topLevel <==> !Truthy(PrevColumn(layer.columnOrder, columnId)))
    ensures c.NestingSelect? ==>
      && |AggColumns(layer.columns, columnId)| >= 2
      && c.options == [""] + AggColumns(layer.columns, columnId)
      && c.selected == PrevColumn(layer.columnOrder, columnId)
  {
    var column := LookupColumn(layer.columns, columnId);
    var aggColumns := AggColumns(layer.columns, columnId);
    if column.None? || !column.value.isBucketed || |aggColumns| == 0 then Hidden
    else
      var prevColumn := PrevColumn(layer.columnOrder, columnId);
      if |aggColumns| == 1 then NestingToggle(aggColumns[0], !Truthy(prevColumn))
      else NestingSelect([""] + aggColumns, prevColumn)
  }

  /**
   * `toggleNesting`: the new column order either radio hands to `setColumns`.
   * Only the column that is nested moves (the target when the edited column
   * has a truthy predecessor, the edited column otherwise): it ends up there
   * once, and every other column keeps its place relative to the rest.
   */
  function ToggleNesting(layer: Layer, columnId: string, target: string): (r: seq<string>)
    ensures var moved := if Truthy(PrevColumn(layer.columnOrder, columnId)) then target else columnId;
      && multiset(r)[moved] == 1
      && Without(r, moved) == Without(layer.columnOrder, moved)
  {
    if Truthy(PrevColumn(layer.columnOrder, columnId)) then
      NestKeepsOthersInOrder(layer.columnOrder, columnId, target);
      NestColumn(layer.columnOrder, columnId, target)
    else
      NestKeepsOthersInOrder(layer.columnOrder, target, columnId);
      NestColumn(layer.columnOrder, target, columnId)
  }

  /**
   * The dropdown's `onChange`: the chosen id ('' for "Entire data set") becomes
   * the outer column. Only the edited column moves, and it is there once.
   */
  function SelectNesting(layer: Layer, columnId: string, choice: string): (r: seq<string>)
    ensures multiset(r)[columnId] == 1
    ensures Without(r, columnId) == Without(layer.columnOrder, columnId)
  {
    NestKeepsOthersInOrder(layer.columnOrder, choice, columnId);
    NestColumn(layer.columnOrder, choice, columnId)
  }

  /**
   * The "top level" radio (`checked={!prevColumn}`) is checked exactly when the
   * edited column has no predecessor or its predecessor is the id ''; the
   * other radio (`checked={!!prevColumn}`) in every other case.
   */
  lemma TopLevelWhenNoPredecessor(columnOrder: seq<string>, columnId: string)
    ensures !Truthy(PrevColumn(columnOrder, columnId)) <==>
      || columnId !in columnOrder
      || columnOrder[0] == columnId
      || columnOrder[IndexOf(columnOrder, columnId) - 1] == ""
  {
    var i := IndexOf(columnOrder, columnId);
    if columnId in columnOrder && columnOrder[0] != columnId {
      assert 1 <= i;
      assert PrevColumn(columnOrder, columnId) == Some(columnOrder[i - 1]);
    } else {
      assert PrevColumn(columnOrder, columnId) == None;
    }
  }

  /**
   * The toggle when the edited column has a truthy predecessor: the target is
   * nested right after the edited column.
   */
  lemma ToggleFromNested(layer: Layer, columnId: string, target: string)
    requires Truthy(PrevColumn(layer.columnOrder, columnId))
    requires target != columnId
    ensures var r := ToggleNesting(layer, columnId, target);
            && r == NestColumn(layer.columnOrder, columnId, target)
            && PrevColumn(r, target) == Some(columnId)
  {
    var r := NestColumn(layer.columnOrder, columnId, target);
    NestPlacesInnerAfterOuter(layer.columnOrder, columnId, target);
    var i := IndexOf(r, columnId);
    FirstIndexUnique(r, target, i + 1);
  }

  /**
   * The toggle when the edited column is at the top level: it is nested
   * right after the target, so afterwards the target is its predecessor and
   * the "top level" radio is no longer checked.
   */
  lemma ToggleFromTopLevel(layer: Layer, columnId: string, target: string)
    requires !Truthy(PrevColumn(layer.columnOrder, columnId))
    requires target != columnId && target != "" && target in layer.columnOrder
    ensures var r := ToggleNesting(layer, columnId, target);
            && r == NestColumn(layer.columnOrder, target, columnId)
            && PrevColumn(r, columnId) == Some(target)
            && Truthy(PrevColumn(r, columnId))
  {
    var r := NestColumn(layer.columnOrder, target, columnId);
    NestPlacesInnerAfterOuter(layer.columnOrder, target, columnId);
  }

  /** Choosing a column in the dropdown makes it the edited column's predecessor. */
  lemma SelectNestsUnderChoice(layer: Layer, columnId: string, choice: string)
    requires choice != columnId && choice in layer.columnOrder
    ensures PrevColumn(SelectNesting(layer, columnId, choice), columnId) == Some(choice)
  {
    NestPlacesInnerAfterOuter(layer.columnOrder, choice, columnId);
  }

  /**
   * Choosing "Entire data set" (value '') moves the edited column to the front
   * and leaves it without a predecessor, as long as no column is named ''.
   */
  lemma SelectEntireDataSet(layer: Layer, columnId: string)
    requires "" !in layer.columnOrder
    ensures var r := SelectNesting(layer, columnId, "");
            && r == [columnId] + Without(layer.columnOrder, columnId)
            && PrevColumn(r, columnId) == None
  {
    NestAtFront(layer.columnOrder, "", columnId);
  }

  /** Worked example: nesting "c" under "a" in a, b, c. */
  lemma NestColumnExampleUnderFirst()
    ensures NestColumn(["a", "b", "c"], "a", "c") == ["a", "c", "b"]
  {
    assert Without(["a", "b", "c"], "c") == ["a", "b"] by {
      WithoutDropsOne(["a", "b"], "c", []);
      assert ["a", "b"] + ["c"] + [] == ["a", "b", "c"];
    }
    assert IndexOf(["a", "b"], "a") == 0;
    assert ["a", "b"][..1] + ["c"] + ["a", "b"][1..] == ["a", "c", "b"];
  }

  /** Worked example: nesting "a" under "c" in a, b, c moves "a" to the end. */
  lemma NestColumnExampleUnderLast()
    ensures NestColumn(["a", "b", "c"], "c", "a") == ["b", "c", "a"]
  {
    assert Without(["a", "b", "c"], "a") == ["b", "c"] by {
      assert ["a", "b", "c"][1..] == ["b", "c"];
      WithoutAbsent(["b", "c"], "a");
    }
    assert IndexOf(["b", "c"], "c") == 1 by {
      FirstIndexUnique(["b", "c"], "c", 1);
    }
  }
}
