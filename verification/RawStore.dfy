/** The append-only history of one asset. */
module RawStores {
  // One partition per calendar month; the first row of a timestamp wins.

  import opened Samples
  import opened Results

  /** A row: its instant and its non-null cells. Rows from frames with different columns concatenate
      by name, so a missing channel is just an absent cell. */
  datatype Row = Row(ts: int, cells: map<string, Score>)

  /** A calendar month, counted from a fixed one. */
  datatype Period = Period(index: int)

  type Partitions = map<Period, seq<Row>>

  // ---- canonical partitions ------------------------------------------------------------

  ghost predicate Ascending(rows: seq<Row>) {
    forall i, j :: 0 <= i < j < |rows| ==> rows[i].ts < rows[j].ts
  }

  /** First row of every timestamp. */
  function ByTs(rows: seq<Row>): map<int, Row> {
    if rows == [] then map[] else ByTs(rows[1..])[rows[0].ts := rows[0]]
  }

  predicate HasTs(rows: seq<Row>, ts: int) {
    exists i :: 0 <= i < |rows| && rows[i].ts == ts
  }

  function UniqueFirst(rows: seq<Row>): seq<Row>
    decreases |rows|
  {
    if rows == [] then []
    else
      var n := |rows| - 1;
      UniqueFirst(rows[..n]) + if HasTs(rows[..n], rows[n].ts) then [] else [rows[n]]
  }

  function InsertRow(r: Row, rows: seq<Row>): seq<Row> {
    if rows == [] || r.ts <= rows[0].ts then [r] + rows else [rows[0]] + InsertRow(r, rows[1..])
  }

  function SortRows(rows: seq<Row>): seq<Row> {
    if rows == [] then [] else InsertRow(rows[0], SortRows(rows[1..]))
  }

  /** Drop repeated timestamps, first wins, then sort. */
  function Canonical(rows: seq<Row>): seq<Row> { SortRows(UniqueFirst(rows)) }

  ghost predicate DistinctTs(rows: seq<Row>) {
    forall i, j :: 0 <= i < j < |rows| ==> rows[i].ts != rows[j].ts
  }

  lemma {:induction false} ByTsKeys(rows: seq<Row>, ts: int)
    ensures ts in ByTs(rows) <==> HasTs(rows, ts)
    ensures ts in ByTs(rows) ==> ByTs(rows)[ts].ts == ts && ByTs(rows)[ts] in rows
  {
    if rows != [] {
      ByTsKeys(rows[1..], ts);
      if HasTs(rows[1..], ts) {
        var i :| 0 <= i < |rows[1..]| && rows[1..][i].ts == ts;
        assert rows[i + 1].ts == ts;
      }
      if HasTs(rows, ts) && rows[0].ts != ts {
        var i :| 0 <= i < |rows| && rows[i].ts == ts;
        assert rows[1..][i - 1].ts == ts;
      }
    }
  }

  lemma {:induction false} ByTsConcat(a: seq<Row>, b: seq<Row>)
    ensures ByTs(a + b) == ByTs(b) + ByTs(a)
  {
    if a == [] {
      assert a + b == b;
    } else {
      assert (a + b)[1..] == a[1..] + b;
      ByTsConcat(a[1..], b);
    }
  }

  lemma {:induction false} ByTsSnoc(rows: seq<Row>, r: Row)
    ensures ByTs(rows + [r]) == if r.ts in ByTs(rows) then ByTs(rows) else ByTs(rows)[r.ts := r]
  {
    ByTsConcat(rows, [r]);
    assert ByTs([r]) == map[r.ts := r];
  }

  lemma {:induction false} UniqueFirstFacts(rows: seq<Row>)
    ensures DistinctTs(UniqueFirst(rows)) && ByTs(UniqueFirst(rows)) == ByTs(rows)
    decreases |rows|
  {
    if rows != [] {
      var n := |rows| - 1;
      var front, last := rows[..n], rows[n];
      UniqueFirstFacts(front);
      assert rows == front + [last];
      hide ByTs;
      ByTsSnoc(front, last);
      ByTsKeys(front, last.ts);
      if HasTs(front, last.ts) {
        assert UniqueFirst(rows) == UniqueFirst(front);
      } else {
        ByTsSnoc(UniqueFirst(front), last);
        ByTsKeys(UniqueFirst(front), last.ts);
        assert forall i :: 0 <= i < |UniqueFirst(front)| ==> UniqueFirst(front)[i].ts != last.ts;
      }
    }
  }

  lemma {:induction false} InsertRowOrder(r: Row, rows: seq<Row>)
    requires Ascending(rows) && !HasTs(rows, r.ts)
    ensures Ascending(InsertRow(r, rows)) && |InsertRow(r, rows)| == |rows| + 1
    ensures InsertRow(r, rows)[0] == if rows == [] || r.ts < rows[0].ts then r else rows[0]
  {
    if rows != [] && r.ts > rows[0].ts {
      var t := rows[1..];
      assert forall i :: 0 <= i < |t| ==> t[i] == rows[i + 1];
      InsertRowOrder(r, t);
      PrependSmallest(rows[0], InsertRow(r, t));
    } else {
      assert rows != [] ==> rows[0].ts != r.ts;
      PrependSmallest(r, rows);
    }
  }

  lemma {:induction false} InsertRowByTs(r: Row, rows: seq<Row>)
    requires Ascending(rows) && !HasTs(rows, r.ts)
    ensures ByTs(InsertRow(r, rows)) == ByTs(rows)[r.ts := r]
  {
    if rows != [] && r.ts > rows[0].ts {
      var t := rows[1..];
      assert forall i :: 0 <= i < |t| ==> t[i] == rows[i + 1];
      InsertRowByTs(r, t);
      assert InsertRow(r, rows)[1..] == InsertRow(r, t);
    } else {
      assert ([r] + rows)[1..] == rows;
    }
  }

  lemma {:induction false} InsertRowFacts(r: Row, rows: seq<Row>)
    requires Ascending(rows) && !HasTs(rows, r.ts)
    ensures Ascending(InsertRow(r, rows)) && |InsertRow(r, rows)| == |rows| + 1
    ensures InsertRow(r, rows)[0] == if rows == [] || r.ts < rows[0].ts then r else rows[0]
    ensures ByTs(InsertRow(r, rows)) == ByTs(rows)[r.ts := r]
  {
    InsertRowOrder(r, rows);
    InsertRowByTs(r, rows);
  }

  lemma {:induction false} PrependSmallest(r: Row, rows: seq<Row>)
    requires Ascending(rows) && (rows == [] || r.ts < rows[0].ts)
    ensures Ascending([r] + rows)
  {
  }

  lemma {:induction false} SortRowsFacts(rows: seq<Row>)
    requires DistinctTs(rows)
    ensures Ascending(SortRows(rows)) && ByTs(SortRows(rows)) == ByTs(rows) && |SortRows(rows)| == |rows|
  {
    if rows != [] {
      var t := rows[1..];
      assert forall i :: 0 <= i < |t| ==> t[i] == rows[i + 1];
      SortRowsFacts(t);
      ByTsKeys(t, rows[0].ts);
      ByTsKeys(SortRows(t), rows[0].ts);
      InsertRowFacts(rows[0], SortRows(t));
    }
  }

  lemma {:induction false} CanonicalFacts(rows: seq<Row>)
    ensures Ascending(Canonical(rows)) && ByTs(Canonical(rows)) == ByTs(rows)
  {
    UniqueFirstFacts(rows);
    SortRowsFacts(UniqueFirst(rows));
  }

  lemma {:induction false} AscendingTail(rows: seq<Row>)
    requires Ascending(rows) && rows != []
    ensures Ascending(rows[1..]) && !HasTs(rows[1..], rows[0].ts)
    ensures rows[0].ts in ByTs(rows) && forall t :: t in ByTs(rows) ==> rows[0].ts <= t
    ensures ByTs(rows[1..]) == ByTs(rows) - {rows[0].ts}
  {
    ByTsKeys(rows[1..], rows[0].ts);
    forall t | t in ByTs(rows)
      ensures rows[0].ts <= t
    {
      ByTsKeys(rows, t);
    }
  }

  /** A sorted partition is determined by its content. */
  lemma {:induction false} AscendingUnique(a: seq<Row>, b: seq<Row>)
    requires Ascending(a) && Ascending(b) && ByTs(a) == ByTs(b)
    ensures a == b
  {
    if a == [] || b == [] {
      if a != [] {
        AscendingTail(a);
      }
      if b != [] {
        AscendingTail(b);
      }
    } else {
      AscendingTail(a);
      AscendingTail(b);
      assert a[0] == ByTs(a)[a[0].ts] == b[0];
      AscendingUnique(a[1..], b[1..]);
      assert a == [a[0]] + a[1..] && b == [b[0]] + b[1..];
    }
  }

  lemma {:induction false} AscendingSize(rows: seq<Row>)
    requires Ascending(rows)
    ensures |rows| == |ByTs(rows)|
  {
    if rows != [] {
      AscendingTail(rows);
      AscendingSize(rows[1..]);
      assert ByTs(rows).Keys == ByTs(rows[1..]).Keys + {rows[0].ts};
    }
  }

  // ---- one append, partition by partition ------------------------------------------------

  function Existing(s: Partitions, m: Period): seq<Row> { if m in s then s[m] else [] }

  function PartOf(rows: seq<Row>, month: int -> Period, m: Period): seq<Row> {
    if rows == [] then []
    else (if month(rows[0].ts) == m then [rows[0]] else []) + PartOf(rows[1..], month, m)
  }

  ghost predicate Rising(ms: seq<Period>) { forall i, j :: 0 <= i < j < |ms| ==> ms[i].index < ms[j].index }

  function InsertMonth(m: Period, ms: seq<Period>): (r: seq<Period>)
    requires Rising(ms)
    ensures Rising(r) && r != [] && r[0] == (if ms == [] || m.index <= ms[0].index then m else ms[0])
    ensures forall x :: x in r <==> x == m || x in ms
  {
    if ms == [] || m.index < ms[0].index then [m] + ms
    else if m == ms[0] then ms
    else
      assert ms == [ms[0]] + ms[1..];
      [ms[0]] + InsertMonth(m, ms[1..])
  }

  /** The months a frame touches, in the order they are written. */
  function MonthsOf(rows: seq<Row>, month: int -> Period): (ms: seq<Period>)
    ensures Rising(ms)
  {
    if rows == [] then [] else InsertMonth(month(rows[0].ts), MonthsOf(rows[1..], month))
  }

  lemma {:induction false} MonthsOfMembers(rows: seq<Row>, month: int -> Period, m: Period)
    ensures m in MonthsOf(rows, month) <==> exists i :: 0 <= i < |rows| && month(rows[i].ts) == m
  {
    if rows != [] {
      MonthsOfMembers(rows[1..], month, m);
      if m in MonthsOf(rows[1..], month) {
        var i :| 0 <= i < |rows[1..]| && month(rows[1..][i].ts) == m;
        assert rows[i + 1] == rows[1..][i];
      }
      if i :| 0 < i < |rows| && month(rows[i].ts) == m {
        assert rows[1..][i - 1] == rows[i];
      }
    }
  }

  lemma {:induction false} MonthsAreDistinct(ms: seq<Period>, i: nat)
    requires Rising(ms) && i < |ms|
    ensures ms[i] !in ms[..i] && ms[i] in ms && ms[..i + 1] == ms[..i] + [ms[i]]
  {
  }

  function Merged(s: Partitions, rows: seq<Row>, month: int -> Period, m: Period): seq<Row> {
    Canonical(Existing(s, m) + PartOf(rows, month, m))
  }

  /** The store after the partitions of these months have been replaced. */
  function AppendMonths(s: Partitions, rows: seq<Row>, month: int -> Period, ms: seq<Period>): Partitions
    decreases |ms|
  {
    if ms == [] then s
    else
      var n := |ms| - 1;
      AppendMonths(s, rows, month, ms[..n])[ms[n] := Merged(s, rows, month, ms[n])]
  }

  function AppendAll(s: Partitions, rows: seq<Row>, month: int -> Period): Partitions {
    AppendMonths(s, rows, month, MonthsOf(rows, month))
  }

  ghost predicate ValidStore(s: Partitions, month: int -> Period) {
    forall m :: m in s ==> s[m] != [] && Ascending(s[m]) && forall i :: 0 <= i < |s[m]| ==> month(s[m][i].ts) == m
  }

  lemma {:induction false} AppendMonthsAt(s: Partitions, rows: seq<Row>, month: int -> Period, ms: seq<Period>, m: Period)
    ensures m in AppendMonths(s, rows, month, ms) <==> m in s || m in ms
    ensures Existing(AppendMonths(s, rows, month, ms), m) == if m in ms then Merged(s, rows, month, m) else Existing(s, m)
    decreases |ms|
  {
    hide Merged;
    if ms != [] {
      var n := |ms| - 1;
      AppendMonthsAt(s, rows, month, ms[..n], m);
      assert ms == ms[..n] + [ms[n]];
    }
  }

  lemma {:induction false} SamePartitions(a: Partitions, b: Partitions)
    requires forall m :: m in a <==> m in b
    requires forall m :: Existing(a, m) == Existing(b, m)
    ensures a == b
  {
    forall m
      ensures m in a.Keys <==> m in b.Keys
      ensures m in a.Keys ==> a[m] == b[m]
    {
      assert Existing(a, m) == Existing(b, m);
      assert m in a <==> m in b;
    }
  }

  /** Appending the same rows twice to one partition is appending them once. */
  lemma {:induction false} MergeIdempotent(e: seq<Row>, p: seq<Row>)
    ensures Canonical(Canonical(e + p) + p) == Canonical(e + p)
  {
    hide Canonical, ByTs, Ascending;
    CanonicalFacts(e + p);
    CanonicalFacts(Canonical(e + p) + p);
    ByTsConcat(e, p);
    ByTsConcat(Canonical(e + p), p);
    assert ByTs(p) + (ByTs(p) + ByTs(e)) == ByTs(p) + ByTs(e);
    AscendingUnique(Canonical(Canonical(e + p) + p), Canonical(e + p));
  }

  /** Crash after any prefix of the partition replacements, then replay: the same store as an
      uninterrupted append. */
  lemma {:induction false} ReplayAfterCrash(s: Partitions, rows: seq<Row>, month: int -> Period, k: nat)
    requires k <= |MonthsOf(rows, month)|
    ensures AppendAll(AppendMonths(s, rows, month, MonthsOf(rows, month)[..k]), rows, month) == AppendAll(s, rows, month)
  {
    hide Canonical;
    var ms := MonthsOf(rows, month);
    var crashed := AppendMonths(s, rows, month, ms[..k]);
    forall m
      ensures m in AppendAll(crashed, rows, month) <==> m in AppendAll(s, rows, month)
      ensures Existing(AppendAll(crashed, rows, month), m) == Existing(AppendAll(s, rows, month), m)
    {
      AppendMonthsAt(s, rows, month, ms[..k], m);
      AppendMonthsAt(s, rows, month, ms, m);
      AppendMonthsAt(crashed, rows, month, ms, m);
      assert m in ms[..k] ==> m in ms;
      MergeIdempotent(Existing(s, m), PartOf(rows, month, m));
    }
    SamePartitions(AppendAll(crashed, rows, month), AppendAll(s, rows, month));
  }

  lemma {:induction false} ByTsOfMember(rows: seq<Row>, i: nat)
    requires Ascending(rows) && i < |rows|
    ensures rows[i].ts in ByTs(rows) && ByTs(rows)[rows[i].ts] == rows[i]
  {
    if i > 0 {
      AscendingTail(rows);
      ByTsOfMember(rows[1..], i - 1);
    }
  }

  lemma {:induction false} MergeKeeps(e: seq<Row>, p: seq<Row>, i: nat)
    requires Ascending(e) && i < |e|
    ensures e[i] in Canonical(e + p)
  {
    hide Canonical;
    ByTsOfMember(e, i);
    ByTsConcat(e, p);
    CanonicalFacts(e + p);
    ByTsKeys(Canonical(e + p), e[i].ts);
  }

  lemma {:induction false} PartOfMonth(rows: seq<Row>, month: int -> Period, m: Period)
    ensures forall i :: 0 <= i < |PartOf(rows, month, m)| ==> month(PartOf(rows, month, m)[i].ts) == m
    ensures forall t :: t in ByTs(PartOf(rows, month, m)) <==> t in ByTs(rows) && month(t) == m
  {
    if rows != [] {
      PartOfMonth(rows[1..], month, m);
      if month(rows[0].ts) == m {
        assert PartOf(rows, month, m)[1..] == PartOf(rows[1..], month, m);
      } else {
        assert PartOf(rows, month, m) == PartOf(rows[1..], month, m);
      }
    }
  }

  lemma {:induction false} MergeInMonth(e: seq<Row>, p: seq<Row>, month: int -> Period, m: Period, i: nat)
    requires forall j :: 0 <= j < |e| ==> month(e[j].ts) == m
    requires forall j :: 0 <= j < |p| ==> month(p[j].ts) == m
    requires i < |Canonical(e + p)|
    ensures month(Canonical(e + p)[i].ts) == m
  {
    hide Canonical;
    CanonicalFacts(e + p);
    ByTsOfMember(Canonical(e + p), i);
    ByTsKeys(e + p, Canonical(e + p)[i].ts);
    assert forall j: int :: 0 <= j < |e + p| ==> month((e + p)[j].ts) == m;
  }

  /** At every moment of an append, and after it: partitions stay sorted with unique timestamps in
      their own month, and every stored row is still stored unchanged. */
  lemma {:induction false} AppendKeepsEverything(s: Partitions, rows: seq<Row>, month: int -> Period, k: nat)
    requires ValidStore(s, month) && k <= |MonthsOf(rows, month)|
    ensures ValidStore(AppendMonths(s, rows, month, MonthsOf(rows, month)[..k]), month)
    ensures forall m, i :: m in s && 0 <= i < |s[m]| ==>
              s[m][i] in Existing(AppendMonths(s, rows, month, MonthsOf(rows, month)[..k]), m)
  {
    hide Canonical;
    var ms := MonthsOf(rows, month)[..k];
    var after: Partitions := AppendMonths(s, rows, month, ms);
    forall m: Period | m in after
      ensures after[m] != [] && Ascending(after[m])
      ensures forall i :: 0 <= i < |after[m]| ==> month(after[m][i].ts) == m
    {
      AppendMonthsAt(s, rows, month, ms, m);
      if m in ms {
        assert m in MonthsOf(rows, month);
        MergedIsPartition(s, rows, month, m);
      }
    }
    forall m, i | m in s && 0 <= i < |s[m]|
      ensures s[m][i] in Existing(after, m)
    {
      AppendMonthsAt(s, rows, month, ms, m);
      if m in ms {
        MergeKeeps(s[m], PartOf(rows, month, m), i);
      }
    }
  }

  lemma {:induction false} MergedIsPartition(s: Partitions, rows: seq<Row>, month: int -> Period, m: Period)
    requires ValidStore(s, month) && m in MonthsOf(rows, month)
    ensures Merged(s, rows, month, m) != [] && Ascending(Merged(s, rows, month, m))
    ensures forall i :: 0 <= i < |Merged(s, rows, month, m)| ==> month(Merged(s, rows, month, m)[i].ts) == m
  {
    hide Canonical;
    var e, p := Existing(s, m), PartOf(rows, month, m);
    CanonicalFacts(e + p);
    PartOfMonth(rows, month, m);
    MonthsOfMembers(rows, month, m);
    var j :| 0 <= j < |rows| && month(rows[j].ts) == m;
    ByTsKeys(rows, rows[j].ts);
    ByTsConcat(e, p);
    assert rows[j].ts in ByTs(e + p);
    assert Merged(s, rows, month, m) != [] by {
      ByTsKeys(Canonical(e + p), rows[j].ts);
    }
    forall i | 0 <= i < |Canonical(e + p)|
      ensures month(Canonical(e + p)[i].ts) == m
    {
      MergeInMonth(e, p, month, m, i);
    }
  }

  // ---- which rows an append stores ---------------------------------------------------------

  ghost predicate Stored(s: Partitions, r: Row) { exists m :: m in s && r in s[m] }

  /** Row i of a frame is new: no row before it in the frame, and no stored one, has its timestamp. */
  ghost predicate IsNew(s: Partitions, rows: seq<Row>, i: nat) {
    && i < |rows|
    && (forall j :: 0 <= j < i ==> rows[j].ts != rows[i].ts)
    && (forall r :: Stored(s, r) ==> r.ts != rows[i].ts)
  }

  ghost predicate BroughtBy(s: Partitions, rows: seq<Row>, r: Row) { exists i: nat :: IsNew(s, rows, i) && rows[i] == r }

  lemma {:induction false} ByTsIsFirst(rows: seq<Row>, i: nat)
    requires i < |rows| && forall j :: 0 <= j < i ==> rows[j].ts != rows[i].ts
    ensures rows[i].ts in ByTs(rows) && ByTs(rows)[rows[i].ts] == rows[i]
  {
    if i > 0 {
      ByTsIsFirst(rows[1..], i - 1);
    }
  }

  lemma {:induction false} FirstWith(rows: seq<Row>, ts: int) returns (i: nat)
    requires ts in ByTs(rows)
    ensures i < |rows| && rows[i] == ByTs(rows)[ts] && rows[i].ts == ts && forall j :: 0 <= j < i ==> rows[j].ts != ts
  {
    if rows[0].ts == ts {
      i := 0;
    } else {
      i := FirstWith(rows[1..], ts);
      assert forall j :: 1 <= j < i + 1 ==> rows[j] == rows[1..][j - 1];
      i := i + 1;
    }
  }

  /** The part of a frame in one month holds that month's rows as they came. */
  lemma {:induction false} PartOfRows(rows: seq<Row>, month: int -> Period, m: Period, t: int)
    ensures t in ByTs(PartOf(rows, month, m)) <==> t in ByTs(rows) && month(t) == m
    ensures t in ByTs(PartOf(rows, month, m)) ==> ByTs(PartOf(rows, month, m))[t] == ByTs(rows)[t]
  {
    if rows != [] {
      PartOfRows(rows[1..], month, m, t);
      if month(rows[0].ts) == m {
        assert PartOf(rows, month, m)[1..] == PartOf(rows[1..], month, m);
      } else {
        assert PartOf(rows, month, m) == PartOf(rows[1..], month, m);
      }
    }
  }

  lemma {:induction false} MemberByTs(rows: seq<Row>, r: Row)
    requires Ascending(rows)
    ensures r in rows <==> r.ts in ByTs(rows) && ByTs(rows)[r.ts] == r
  {
    ByTsKeys(rows, r.ts);
    if r in rows {
      var i :| 0 <= i < |rows| && rows[i] == r;
      ByTsOfMember(rows, i);
    }
  }

  /** One merged partition holds what it held, and of the frame the first rows of its month's other timestamps. */
  lemma {:induction false} MergedRows(e: seq<Row>, rows: seq<Row>, month: int -> Period, m: Period, r: Row)
    requires Ascending(e)
    ensures r in Canonical(e + PartOf(rows, month, m)) <==>
              r in e || (!HasTs(e, r.ts) && month(r.ts) == m && r.ts in ByTs(rows) && ByTs(rows)[r.ts] == r)
  {
    var p := PartOf(rows, month, m);
    hide Canonical, PartOf, Ascending, HasTs;
    CanonicalFacts(e + p);
    MemberByTs(Canonical(e + p), r);
    MemberByTs(e, r);
    ByTsConcat(e, p);
    ByTsKeys(e, r.ts);
    PartOfRows(rows, month, m, r.ts);
  }

  lemma {:induction false} StoredInMonth(s: Partitions, month: int -> Period, r: Row)
    requires ValidStore(s, month)
    ensures Stored(s, r) <==> r in Existing(s, month(r.ts))
  {
    if m :| m in s && r in s[m] {
      var i :| 0 <= i < |s[m]| && s[m][i] == r;
      assert month(s[m][i].ts) == m;
    }
  }

  lemma {:induction false} TimeTaken(s: Partitions, month: int -> Period, ts: int)
    requires ValidStore(s, month)
    ensures HasTs(Existing(s, month(ts)), ts) <==> exists r :: Stored(s, r) && r.ts == ts
  {
    var e := Existing(s, month(ts));
    if HasTs(e, ts) {
      var i :| 0 <= i < |e| && e[i].ts == ts;
      assert e[i] in e;
      StoredInMonth(s, month, e[i]);
    }
    if r :| Stored(s, r) && r.ts == ts {
      StoredInMonth(s, month, r);
      var i :| 0 <= i < |e| && e[i] == r;
    }
  }

  lemma {:induction false} NewIsFirst(s: Partitions, rows: seq<Row>, r: Row)
    ensures BroughtBy(s, rows, r) <==>
              r.ts in ByTs(rows) && ByTs(rows)[r.ts] == r && !exists q :: Stored(s, q) && q.ts == r.ts
  {
    hide Stored;
    if BroughtBy(s, rows, r) {
      var i: nat :| IsNew(s, rows, i) && rows[i] == r;
      ByTsIsFirst(rows, i);
    } else if r.ts in ByTs(rows) && ByTs(rows)[r.ts] == r {
      var i := FirstWith(rows, r.ts);
      assert !IsNew(s, rows, i);
    }
  }

  /** After an append exactly those rows are stored that were before, and the new ones of the frame, as they came. */
  lemma {:induction false} AppendStores(s: Partitions, rows: seq<Row>, month: int -> Period, r: Row)
    requires ValidStore(s, month)
    ensures Stored(AppendAll(s, rows, month), r) <==> Stored(s, r) || BroughtBy(s, rows, r)
  {
    var ms, after, m := MonthsOf(rows, month), AppendAll(s, rows, month), month(r.ts);
    hide Stored, BroughtBy, MonthsOf, PartOf, Canonical, HasTs, Ascending;
    assert ms[..|ms|] == ms;
    AppendKeepsEverything(s, rows, month, |ms|);
    StoredInMonth(after, month, r);
    StoredInMonth(s, month, r);
    TimeTaken(s, month, r.ts);
    NewIsFirst(s, rows, r);
    AppendMonthsAt(s, rows, month, ms, m);
    PartitionAscends(s, month, m);
    MergedRows(Existing(s, m), rows, month, m, r);
    OfItsMonth(rows, month, r);
    hide AppendMonths, ValidStore;
  }

  /** A store holds exactly what another did, and the new rows of a frame, cells and all. */
  ghost predicate StoresBesides(after: Partitions, before: Partitions, rows: seq<Row>) {
    forall r :: Stored(after, r) <==> Stored(before, r) || BroughtBy(before, rows, r)
  }

  lemma {:induction false} AppendStoresBesides(s: Partitions, rows: seq<Row>, month: int -> Period)
    requires ValidStore(s, month)
    ensures StoresBesides(AppendAll(s, rows, month), s, rows)
  {
    forall r
      ensures Stored(AppendAll(s, rows, month), r) <==> Stored(s, r) || BroughtBy(s, rows, r)
    {
      AppendStores(s, rows, month, r);
    }
  }

  /** So a table read back whole after an append holds, sorted, exactly the rows there were and the new ones. */
  lemma {:induction false} ReadBack(s: Partitions, rows: seq<Row>, month: int -> Period, all: seq<Row>)
    requires ValidStore(s, month) && IsHistory(all, AppendAll(s, rows, month))
    ensures Ascending(all) && forall r :: r in all <==> Stored(s, r) || BroughtBy(s, rows, r)
  {
    AppendStoresBesides(s, rows, month);
  }

  lemma {:induction false} PartitionAscends(s: Partitions, month: int -> Period, m: Period)
    requires ValidStore(s, month)
    ensures Ascending(Existing(s, m))
  {
  }

  lemma {:induction false} OfItsMonth(rows: seq<Row>, month: int -> Period, r: Row)
    ensures r.ts in ByTs(rows) && ByTs(rows)[r.ts] == r ==> month(r.ts) in MonthsOf(rows, month)
  {
    if r.ts in ByTs(rows) && ByTs(rows)[r.ts] == r {
      var i := FirstWith(rows, r.ts);
      MonthsOfMembers(rows, month, month(r.ts));
    }
  }

  // ---- how many rows are new --------------------------------------------------------------

  /** Timestamps of month m that the frame brings and the store lacks. */
  function NewIn(s: Partitions, rows: seq<Row>, month: int -> Period, m: Period): set<int> {
    ByTs(PartOf(rows, month, m)).Keys - ByTs(Existing(s, m)).Keys
  }

  function NewOver(s: Partitions, rows: seq<Row>, month: int -> Period, ms: seq<Period>): set<int> {
    if ms == [] then {} else NewOver(s, rows, month, ms[..|ms| - 1]) + NewIn(s, rows, month, ms[|ms| - 1])
  }

  ghost function NewCount(s: Partitions, rows: seq<Row>, month: int -> Period, ms: seq<Period>): nat {
    |NewOver(s, rows, month, ms)|
  }

  /** Timestamps of the frame that are not stored yet. */
  ghost function NewTimestamps(s: Partitions, rows: seq<Row>, month: int -> Period): set<int> {
    set t | t in ByTs(rows) && !HasTs(Existing(s, month(t)), t)
  }

  lemma {:induction false} NewOverMembers(s: Partitions, rows: seq<Row>, month: int -> Period, ms: seq<Period>, t: int)
    ensures t in NewOver(s, rows, month, ms) <==> t in ByTs(rows) && month(t) in ms && t !in ByTs(Existing(s, month(t)))
  {
    if ms != [] {
      var n := |ms| - 1;
      NewOverMembers(s, rows, month, ms[..n], t);
      PartOfMonth(rows, month, ms[n]);
      assert ms == ms[..n] + [ms[n]];
    }
  }

  lemma {:induction false} NewOverAll(s: Partitions, rows: seq<Row>, month: int -> Period)
    ensures NewOver(s, rows, month, MonthsOf(rows, month)) == NewTimestamps(s, rows, month)
    ensures NewCount(s, rows, month, MonthsOf(rows, month)) == |NewTimestamps(s, rows, month)|
  {
    forall t
      ensures t in NewOver(s, rows, month, MonthsOf(rows, month)) <==> t in NewTimestamps(s, rows, month)
    {
      NewOverMembers(s, rows, month, MonthsOf(rows, month), t);
      ByTsKeys(rows, t);
      ByTsKeys(Existing(s, month(t)), t);
      MonthsOfMembers(rows, month, month(t));
    }
  }

  lemma {:induction false} MergeGrowth(e: seq<Row>, p: seq<Row>)
    requires Ascending(e)
    ensures |Canonical(e + p)| == |e| + |ByTs(p).Keys - ByTs(e).Keys|
    ensures |Canonical(e + p)| == |e| ==> Canonical(e + p) == e
  {
    hide Canonical;
    CanonicalFacts(e + p);
    AscendingSize(e);
    AscendingSize(Canonical(e + p));
    ByTsConcat(e, p);
    var added := ByTs(p).Keys - ByTs(e).Keys;
    assert ByTs(e + p).Keys == ByTs(e).Keys + added;
    if added == {} {
      assert ByTs(e + p) == ByTs(e);
      AscendingUnique(Canonical(e + p), e);
    }
  }

  lemma {:induction false} NewOverStep(s: Partitions, rows: seq<Row>, month: int -> Period, ms: seq<Period>, m: Period)
    requires m !in ms
    ensures |NewOver(s, rows, month, ms + [m])| == |NewOver(s, rows, month, ms)| + |NewIn(s, rows, month, m)|
  {
    assert (ms + [m])[..|ms|] == ms;
    forall t | t in NewOver(s, rows, month, ms) && t in NewIn(s, rows, month, m)
      ensures false
    {
      NewOverMembers(s, rows, month, ms, t);
      PartOfMonth(rows, month, m);
    }
    assert NewOver(s, rows, month, ms) !! NewIn(s, rows, month, m);
  }

  // ---- the store ----------------------------------------------------------------------------

  /** A content a crash during this append can leave behind. */
  ghost predicate CrashState(p: Partitions, s: Partitions, rows: seq<Row>, month: int -> Period) {
    exists k :: 0 <= k <= |MonthsOf(rows, month)| && p == AppendMonths(s, rows, month, MonthsOf(rows, month)[..k])
  }

  /** Every durable content from index `from` on is one of those. */
  ghost predicate AllCrashStates(durable: seq<Partitions>, from: nat, s: Partitions, rows: seq<Row>, month: int -> Period) {
    from <= |durable| && forall i :: from <= i < |durable| ==> CrashState(durable[i], s, rows, month)
  }

  /** From index `from` on, nothing but the content before a write and the one after it. */
  ghost predicate OldOrNew(durable: seq<Partitions>, from: nat, before: Partitions, after: Partitions) {
    from <= |durable| && forall i :: from <= i < |durable| ==> durable[i] == before || durable[i] == after
  }

  lemma {:induction false} MoreCrashStates(durable: seq<Partitions>, more: seq<Partitions>, p: Partitions, q: Partitions, from: nat,
                                           s: Partitions, rows: seq<Row>, month: int -> Period)
    requires AllCrashStates(durable, from, s, rows, month) && durable <= more && OldOrNew(more, |durable|, p, q)
    requires CrashState(p, s, rows, month) && CrashState(q, s, rows, month)
    ensures AllCrashStates(more, from, s, rows, month)
  {
  }

  lemma {:induction false} PrefixIsCrashState(s: Partitions, rows: seq<Row>, month: int -> Period, k: nat)
    requires k <= |MonthsOf(rows, month)|
    ensures CrashState(AppendMonths(s, rows, month, MonthsOf(rows, month)[..k]), s, rows, month)
  {
  }

  lemma {:induction false} AppendNoMonths(s: Partitions, rows: seq<Row>, month: int -> Period)
    ensures AppendMonths(s, rows, month, []) == s
  {
  }

  /** Before any partition is replaced, and once all have been. */
  lemma {:induction false} WriteFacts(s: Partitions, rows: seq<Row>, month: int -> Period, durable: seq<Partitions>)
    requires ValidStore(s, month)
    ensures AllCrashStates(durable, |durable|, s, rows, month)
    ensures Rising(MonthsOf(rows, month))
    ensures AppendMonths(s, rows, month, MonthsOf(rows, month)) == AppendAll(s, rows, month)
    ensures NewCount(s, rows, month, MonthsOf(rows, month)) == |NewTimestamps(s, rows, month)|
    ensures ValidStore(AppendAll(s, rows, month), month)
  {
    hide NewTimestamps, NewOver, NewCount, CrashState, MonthsOf, AppendMonths, ValidStore, Rising;
    NewOverAll(s, rows, month);
    var ms := MonthsOf(rows, month);
    AppendKeepsEverything(s, rows, month, |ms|);
    assert ms[..|ms|] == ms;
  }

  lemma {:induction false} NoNewOver(s: Partitions, rows: seq<Row>, month: int -> Period)
    ensures NewCount(s, rows, month, []) == 0
  {
  }

  /** Whatever a crash leaves behind, replaying the append completes it, and nothing stored before
      is lost or changed. */
  lemma {:induction false} CrashThenReplay(p: Partitions, s: Partitions, rows: seq<Row>, month: int -> Period)
    requires ValidStore(s, month) && CrashState(p, s, rows, month)
    ensures AppendAll(p, rows, month) == AppendAll(s, rows, month)
    ensures ValidStore(p, month)
    ensures forall m, i :: m in s && 0 <= i < |s[m]| ==> s[m][i] in Existing(p, m)
  {
    var k :| 0 <= k <= |MonthsOf(rows, month)| && p == AppendMonths(s, rows, month, MonthsOf(rows, month)[..k]);
    ReplayAfterCrash(s, rows, month, k);
    AppendKeepsEverything(s, rows, month, k);
  }

  datatype TimeColumn = Missing | NotDatetime | Naive | Zoned

  datatype Frame = Frame(time: TimeColumn, rows: seq<Row>)

  datatype StoreError = NoTimestampColumn | TimestampNotDatetime | NaiveTimestamps

  function Validate(f: Frame): Result<seq<Row>, StoreError> {
    match f.time
    case Missing => Err(NoTimestampColumn)
    case NotDatetime => Err(TimestampNotDatetime)
    case Naive => Err(NaiveTimestamps)
    case Zoned => Ok(f.rows)
  }

  class RawStore {
    const month: int -> Period
    var parts: Partitions
    /** Files that are no partition: written, or half written, beside them. */
    var temps: seq<seq<Row>>
    /** The partitions after every step on files there has been: a crash leaves one of these. */
    ghost var durable: seq<Partitions>

    constructor (m: int -> Period)
      ensures month == m && parts == map[] && durable == []
    {
      month, parts, temps, durable := m, map[], [], [];
    }

    ghost predicate Valid()
      reads this
    {
      ValidStore(parts, month)
    }

    /** Creates a temporary file, fills it and renames it onto the partition. A crash between any two steps leaves
        the partition as it was or as it shall be. */
    method AtomicWrite(m: Period, rows: seq<Row>)
      modifies this
      ensures parts == old(parts)[m := rows] && temps == old(temps)
      ensures old(durable) <= durable && OldOrNew(durable, |old(durable)|, old(parts), parts)
      ensures |durable| == |old(durable)| + 3 && durable[|durable| - 1] == parts
    {
      var tmp := |temps|;
      temps := temps + [[]];
      durable := durable + [parts];
      temps := temps[tmp := rows];
      durable := durable + [parts];
      parts, temps := parts[m := temps[tmp]], temps[..tmp];
      durable := durable + [parts];
    }

    method Append(f: Frame) returns (r: Result<nat, StoreError>)
      requires Valid()
      modifies this
      ensures Valid()
      ensures f.rows == [] ==> r == Ok(0)
      ensures r.Err? <==> f.rows != [] && f.time != Zoned
      ensures r.Err? ==> parts == old(parts) && durable == old(durable)
      ensures r.Ok? ==> parts == AppendAll(old(parts), f.rows, month)
                        && r.value == |NewTimestamps(old(parts), f.rows, month)|
      ensures r.Ok? ==> StoresBesides(parts, old(parts), f.rows)
      ensures old(durable) <= durable && AllCrashStates(durable, |old(durable)|, old(parts), f.rows, month)
    {
      AppendStoresBesides(parts, f.rows, month);
      hide StoresBesides;
      if f.rows == [] {
        assert NewTimestamps(parts, f.rows, month) == {};
        return Ok(0);
      }
      var valid := Validate(f);
      if valid.Err? {
        return Err(valid.error);
      }
      var added := WriteMonths(f.rows);
      return Ok(added);
    }

    /** Replaces the partitions the rows touch, month by month. */
    method WriteMonths(rows: seq<Row>) returns (newRows: nat)
      requires Valid()
      modifies this
      ensures Valid() && parts == AppendAll(old(parts), rows, month)
      ensures newRows == |NewTimestamps(old(parts), rows, month)|
      ensures old(durable) <= durable && AllCrashStates(durable, |old(durable)|, old(parts), rows, month)
    {
      hide NewTimestamps, NewOver, NewCount, CrashState, AllCrashStates, OldOrNew, MonthsOf, Rising, AppendMonths, ValidStore, AppendAll;
      var months := MonthsOf(rows, month);
      ghost var before := parts;
      assert months[..|months|] == months;
      WriteFacts(before, rows, month, durable);
      newRows := 0;
      NoNewOver(before, rows, month);
      AppendNoMonths(before, rows, month);
      for i := 0 to |months|
        invariant parts == AppendMonths(before, rows, month, months[..i])
        invariant newRows == NewCount(before, rows, month, months[..i])
        invariant old(durable) <= durable && AllCrashStates(durable, |old(durable)|, before, rows, month)
      {
        MonthsAreDistinct(months, i);
        ghost var soFar, was := durable, parts;
        PrefixIsCrashState(before, rows, month, i);
        var added := AppendMonth(rows, months[i], before, months[..i]);
        PrefixIsCrashState(before, rows, month, i + 1);
        MoreCrashStates(soFar, durable, was, parts, |old(durable)|, before, rows, month);
        newRows := newRows + added;
      }
    }

    /** One partition of an append, skipped when it brings nothing new. */
    method AppendMonth(rows: seq<Row>, m: Period, ghost before: Partitions, ghost ms: seq<Period>) returns (added: nat)
      requires ValidStore(before, month) && m !in ms && m in MonthsOf(rows, month)
      requires parts == AppendMonths(before, rows, month, ms)
      modifies this
      ensures parts == AppendMonths(before, rows, month, ms + [m])
      ensures old(durable) <= durable && OldOrNew(durable, |old(durable)|, old(parts), parts)
      ensures NewCount(before, rows, month, ms + [m]) == NewCount(before, rows, month, ms) + added
    {
      hide Canonical, NewIn, ValidStore, ByTs;
      MonthContent(before, rows, month, ms, m);
      MonthGrowth(before, rows, month, m);
      NewOverStep(before, rows, month, ms, m);
      var existing := Existing(parts, m);
      var merged := Canonical(existing + PartOf(rows, month, m));
      if m in parts && |merged| == |existing| {
        assert parts[m := merged] == parts;
        return 0;
      }
      AtomicWrite(m, merged);
      return |merged| - |existing|;
    }

    /** The months with a partition, ascending. */
    method Months() returns (ks: seq<Period>)
      ensures AreMonths(ks, parts)
    {
      ks := [];
      var left := parts.Keys;
      while left != {}
        invariant Rising(ks) && left <= parts.Keys
        invariant forall m :: m in ks <==> m in parts && m !in left
        decreases |left|
      {
        var m: Period :| m in left;
        left := left - {m};
        ks := InsertMonth(m, ks);
      }
    }

    /** Exactly the stored rows with start <= ts < end, sorted. */
    method Read(start: Option<int>, end: Option<int>) returns (rows: seq<Row>)
      requires Valid()
      ensures Ascending(rows)
      ensures forall r :: r in rows <==>
                Stored(parts, r) && (start.None? || start.value <= r.ts) && (end.None? || r.ts < end.value)
      ensures start.None? && end.None? ==> IsHistory(rows, parts)
    {
      var ks := Months();
      ConcatPartsFacts(parts, month, ks);
      var all := ConcatParts(parts, ks);
      SortRowsFacts(all);
      SortKeepsMembers(all);
      rows := InRangeOf(SortRows(all), start, end);
      InRangeFacts(SortRows(all), start, end);
    }

    /** The last n stored rows, from the newest `visited` partitions: no more than it takes to hold n rows. */
    method ReadTail(n: nat) returns (rows: seq<Row>, ghost visited: nat)
      requires Valid() && forall a, b :: a <= b ==> month(a).index <= month(b).index
      ensures EndsHistory(rows, parts, n) && IsShortestTail(parts, n, visited)
    {
      var ks := Months();
      assert AreMonths(ks, parts);
      hide ValidStore, EndsHistory, IsShortestTail, LastRows, SortRows, Rising, ConcatParts, TooFew;
      NoneTooFew(parts, ks, n);
      var acc: seq<Row> := [];
      var read := 0;
      while read < |ks| && (read == 0 || |acc| < n)
        invariant read <= |ks| && acc == Newest(parts, ks, read) && TooFew(parts, ks, n, read)
        invariant read == 0 ==> acc == []
      {
        OneMore(parts, ks, n, read);
        acc := parts[ks[|ks| - read - 1]] + acc;
        read := read + 1;
      }
      TailFound(parts, month, ks, read, n);
      rows := LastRows(SortRows(acc), n);
      visited := read;
    }
  }

  lemma {:induction false} MonthContent(s: Partitions, rows: seq<Row>, month: int -> Period, ms: seq<Period>, m: Period)
    requires m !in ms
    ensures Existing(AppendMonths(s, rows, month, ms), m) == Existing(s, m)
    ensures AppendMonths(s, rows, month, ms + [m])
         == AppendMonths(s, rows, month, ms)[m := Canonical(Existing(s, m) + PartOf(rows, month, m))]
  {
    hide Canonical;
    AppendMonthsAt(s, rows, month, ms, m);
    assert (ms + [m])[..|ms|] == ms;
  }

  lemma {:induction false} MonthGrowth(s: Partitions, rows: seq<Row>, month: int -> Period, m: Period)
    requires ValidStore(s, month)
    ensures |Canonical(Existing(s, m) + PartOf(rows, month, m))| == |Existing(s, m)| + |NewIn(s, rows, month, m)|
    ensures |Canonical(Existing(s, m) + PartOf(rows, month, m))| == |Existing(s, m)| ==>
              Canonical(Existing(s, m) + PartOf(rows, month, m)) == Existing(s, m)
  {
    hide Canonical, ByTs, PartOf;
    MergeGrowth(Existing(s, m), PartOf(rows, month, m));
  }

  // ---- reading back ---------------------------------------------------------------------------

  predicate InRange(r: Row, start: Option<int>, end: Option<int>) {
    (start.Some? ==> r.ts >= start.value) && (end.Some? ==> r.ts < end.value)
  }

  /** The whole life of the asset as one sorted table. */
  ghost predicate IsHistory(rows: seq<Row>, s: Partitions) {
    Ascending(rows) && forall r :: r in rows <==> Stored(s, r)
  }

  function LastRows(rows: seq<Row>, n: nat): seq<Row> {
    if |rows| <= n then rows else rows[|rows| - n..]
  }

  function InRangeOf(rows: seq<Row>, start: Option<int>, end: Option<int>): seq<Row> {
    if rows == [] then []
    else (if InRange(rows[0], start, end) then [rows[0]] else []) + InRangeOf(rows[1..], start, end)
  }

  function ConcatParts(s: Partitions, ks: seq<Period>): seq<Row>
    requires forall m :: m in ks ==> m in s
  {
    if ks == [] then []
    else
      assert ks[0] in ks;
      s[ks[0]] + ConcatParts(s, ks[1..])
  }

  /** The months with a partition, ascending. */
  ghost predicate AreMonths(ks: seq<Period>, s: Partitions) { Rising(ks) && forall m :: m in ks <==> m in s }

  /** The newest `visited` partitions are all of them or hold n rows, and fewer, unless none, do not. */
  ghost predicate IsShortestTail(s: Partitions, n: nat, visited: nat) {
    forall ks :: AreMonths(ks, s) ==>
      && visited <= |ks| && (ks != [] ==> visited >= 1)
      && (visited == |ks| || |Newest(s, ks, visited)| >= n)
      && TooFew(s, ks, n, visited)
  }

  /** These are the last n rows of the whole life. */
  ghost predicate EndsHistory(rows: seq<Row>, s: Partitions, n: nat) {
    forall full :: IsHistory(full, s) ==> rows == LastRows(full, n)
  }

  lemma {:induction false} TailFound(s: Partitions, month: int -> Period, ks: seq<Period>, read: nat, n: nat)
    requires ValidStore(s, month) && AreMonths(ks, s) && forall a, b :: a <= b ==> month(a).index <= month(b).index
    requires read <= |ks| && (ks != [] ==> read >= 1) && (read == |ks| || |Newest(s, ks, read)| >= n) && TooFew(s, ks, n, read)
    ensures EndsHistory(LastRows(SortRows(Newest(s, ks, read)), n), s, n) && IsShortestTail(s, n, read)
  {
    hide ValidStore, IsHistory, LastRows, SortRows, Rising, ConcatParts, TooFew;
    TailIsEnough(s, month, ks, |ks| - read, n);
    MonthsAreUnique(s, ks);
  }

  ghost predicate TooFew(s: Partitions, ks: seq<Period>, n: nat, visited: nat)
    requires AreMonths(ks, s) && visited <= |ks|
  {
    forall v :: 1 <= v < visited ==> |Newest(s, ks, v)| < n
  }

  /** The rows of the newest v partitions, oldest first. */
  function Newest(s: Partitions, ks: seq<Period>, v: nat): seq<Row>
    requires (forall m :: m in ks ==> m in s) && v <= |ks|
  {
    ConcatParts(s, ks[|ks| - v..])
  }

  lemma {:induction false} NoneTooFew(s: Partitions, ks: seq<Period>, n: nat)
    requires AreMonths(ks, s)
    ensures Newest(s, ks, 0) == [] && TooFew(s, ks, n, 0)
  {
  }

  lemma {:induction false} OneMore(s: Partitions, ks: seq<Period>, n: nat, v: nat)
    requires AreMonths(ks, s) && v < |ks| && TooFew(s, ks, n, v) && (v == 0 || |Newest(s, ks, v)| < n)
    ensures ks[|ks| - v - 1] in s && Newest(s, ks, v + 1) == s[ks[|ks| - v - 1]] + Newest(s, ks, v)
    ensures TooFew(s, ks, n, v + 1)
  {
    assert ks[|ks| - v - 1] in ks;
    assert ks[|ks| - v - 1..] == [ks[|ks| - v - 1]] + ks[|ks| - v..];
  }

  lemma {:induction false} RisingTail(a: seq<Period>)
    requires Rising(a) && a != []
    ensures Rising(a[1..]) && forall m: Period :: m in a[1..] <==> m in a && m != a[0]
    ensures forall m: Period :: m in a ==> a[0].index <= m.index
  {
    assert a == [a[0]] + a[1..];
  }

  /** Months in order are determined by which they are. */
  lemma {:induction false} RisingUnique(a: seq<Period>, b: seq<Period>)
    requires Rising(a) && Rising(b) && forall m :: m in a <==> m in b
    ensures a == b
  {
    if a == [] {
      assert forall i :: 0 <= i < |b| ==> b[i] in b;
    } else {
      assert a[0] in b;
      RisingTail(a);
      RisingTail(b);
      assert b[0] in a;
      RisingUnique(a[1..], b[1..]);
      assert a == [a[0]] + a[1..] && b == [b[0]] + b[1..];
    }
  }

  lemma {:induction false} MonthsAreUnique(s: Partitions, ks: seq<Period>)
    requires AreMonths(ks, s)
    ensures forall other :: AreMonths(other, s) ==> other == ks
  {
    forall other | AreMonths(other, s)
      ensures other == ks
    {
      RisingUnique(other, ks);
    }
  }

  lemma {:induction false} InRangeMembers(rows: seq<Row>, start: Option<int>, end: Option<int>, r: Row)
    ensures r in InRangeOf(rows, start, end) <==> r in rows && InRange(r, start, end)
  {
    if rows != [] {
      InRangeMembers(rows[1..], start, end, r);
      assert r in rows <==> r == rows[0] || r in rows[1..];
    }
  }

  lemma {:induction false} InRangeAscending(rows: seq<Row>, start: Option<int>, end: Option<int>)
    requires Ascending(rows)
    ensures Ascending(InRangeOf(rows, start, end))
  {
    hide InRange;
    if rows != [] {
      var t := InRangeOf(rows[1..], start, end);
      DropFirst(rows);
      InRangeAscending(rows[1..], start, end);
      if t != [] {
        InRangeMembers(rows[1..], start, end, t[0]);
        assert rows[0].ts < t[0].ts;
      }
      hide Ascending;
      PrependSmallest(rows[0], t);
    }
  }

  lemma {:induction false} InRangeAll(rows: seq<Row>)
    ensures InRangeOf(rows, None, None) == rows
  {
    if rows != [] {
      InRangeAll(rows[1..]);
      assert rows == [rows[0]] + rows[1..];
    }
  }

  lemma {:induction false} DropFirst(rows: seq<Row>)
    requires Ascending(rows) && rows != []
    ensures Ascending(rows[1..])
  {
  }

  lemma {:induction false} InRangeFacts(rows: seq<Row>, start: Option<int>, end: Option<int>)
    requires Ascending(rows)
    ensures Ascending(InRangeOf(rows, start, end))
    ensures forall r :: r in InRangeOf(rows, start, end) <==> r in rows && InRange(r, start, end)
    ensures start.None? && end.None? ==> InRangeOf(rows, start, end) == rows
  {
    InRangeAscending(rows, start, end);
    InRangeAll(rows);
    forall r
      ensures r in InRangeOf(rows, start, end) <==> r in rows && InRange(r, start, end)
    {
      InRangeMembers(rows, start, end, r);
    }
  }

  lemma {:induction false} ConcatPartsMembers(s: Partitions, ks: seq<Period>, r: Row)
    requires forall m :: m in ks ==> m in s
    ensures r in ConcatParts(s, ks) <==> exists m :: m in ks && r in s[m]
  {
    if ks != [] {
      ConcatPartsMembers(s, ks[1..], r);
      assert ks == [ks[0]] + ks[1..];
      if r in s[ks[0]] {
        assert ks[0] in ks;
      } else if m :| m in ks && r in s[m] {
        assert m in ks[1..];
      }
    }
  }

  lemma {:induction false} ConcatPartsFacts(s: Partitions, month: int -> Period, ks: seq<Period>)
    requires ValidStore(s, month) && Rising(ks) && forall m :: m in ks ==> m in s
    ensures DistinctTs(ConcatParts(s, ks))
    ensures forall r :: r in ConcatParts(s, ks) <==> exists m :: m in ks && r in s[m]
  {
    forall r
      ensures r in ConcatParts(s, ks) <==> exists m :: m in ks && r in s[m]
    {
      ConcatPartsMembers(s, ks, r);
    }
    if ks != [] {
      ConcatPartsFacts(s, month, ks[1..]);
      var a, b := s[ks[0]], ConcatParts(s, ks[1..]);
      forall i, j | 0 <= i < |a| && 0 <= j < |b|
        ensures a[i].ts != b[j].ts
      {
        assert b[j] in b;
        var m :| m in ks[1..] && b[j] in s[m];
        assert month(a[i].ts) == ks[0] && month(b[j].ts) == m;
      }
    }
  }

  lemma {:induction false} SortKeepsRows(rows: seq<Row>)
    ensures multiset(SortRows(rows)) == multiset(rows)
  {
    if rows != [] {
      SortKeepsRows(rows[1..]);
      InsertKeepsMembers(rows[0], SortRows(rows[1..]));
      assert rows == [rows[0]] + rows[1..];
    }
  }

  lemma {:induction false} SortKeepsMembers(rows: seq<Row>)
    ensures multiset(SortRows(rows)) == multiset(rows)
    ensures forall r :: r in SortRows(rows) <==> r in rows
  {
    SortKeepsRows(rows);
    hide SortRows;
    assert forall r :: r in SortRows(rows) <==> r in multiset(SortRows(rows));
    assert forall r :: r in rows <==> r in multiset(rows);
  }

  lemma {:induction false} InsertKeepsMembers(r: Row, rows: seq<Row>)
    ensures multiset(InsertRow(r, rows)) == multiset(rows) + multiset{r}
  {
    if rows != [] && r.ts > rows[0].ts {
      InsertKeepsMembers(r, rows[1..]);
      assert rows == [rows[0]] + rows[1..];
    }
  }

  lemma {:induction false} ConcatAscending(s: Partitions, month: int -> Period, ks: seq<Period>)
    requires ValidStore(s, month) && Rising(ks) && forall m :: m in ks ==> m in s
    requires forall a, b :: a <= b ==> month(a).index <= month(b).index
    ensures Ascending(ConcatParts(s, ks))
  {
    if ks != [] {
      ConcatAscending(s, month, ks[1..]);
      var a, b := s[ks[0]], ConcatParts(s, ks[1..]);
      forall i, j | 0 <= i < |a| && 0 <= j < |b|
        ensures a[i].ts < b[j].ts
      {
        assert b[j] in b;
        ConcatPartsMembers(s, ks[1..], b[j]);
        var m :| m in ks[1..] && b[j] in s[m];
        assert month(a[i].ts) == ks[0] && ks[0].index < m.index && m == month(b[j].ts);
      }
    }
  }

  lemma {:induction false} ConcatSplit(s: Partitions, a: seq<Period>, b: seq<Period>)
    requires forall m :: m in a + b ==> m in s
    ensures forall m :: m in a ==> m in a + b
    ensures forall m :: m in b ==> m in a + b
    ensures ConcatParts(s, a + b) == ConcatParts(s, a) + ConcatParts(s, b)
  {
    assert forall m :: m in a ==> m in a + b;
    assert forall m :: m in b ==> m in a + b;
    if a == [] {
      assert a + b == b;
    } else {
      assert (a + b)[1..] == a[1..] + b;
      ConcatSplit(s, a[1..], b);
    }
  }

  lemma {:induction false} SameMembersSameRows(a: seq<Row>, b: seq<Row>)
    requires Ascending(a) && Ascending(b) && forall r :: r in a <==> r in b
    ensures a == b
  {
    forall t
      ensures t in ByTs(a) <==> t in ByTs(b)
      ensures t in ByTs(a) && t in ByTs(b) ==> ByTs(a)[t] == ByTs(b)[t]
    {
      ByTsKeys(a, t);
      ByTsKeys(b, t);
      if t in ByTs(a) {
        MemberLookup(a, b, t);
      }
      if t in ByTs(b) {
        MemberLookup(b, a, t);
      }
    }
    assert ByTs(a).Keys == ByTs(b).Keys;
    AscendingUnique(a, b);
  }

  lemma {:induction false} MemberLookup(a: seq<Row>, b: seq<Row>, t: int)
    requires Ascending(b) && t in ByTs(a) && forall r :: r in a ==> r in b
    ensures t in ByTs(b) && ByTs(b)[t] == ByTs(a)[t]
  {
    ByTsKeys(a, t);
    var r := ByTs(a)[t];
    var i :| 0 <= i < |b| && b[i] == r;
    ByTsOfMember(b, i);
  }

  /** The newest partitions, once they hold n rows or are all there are, end with the last n rows. */
  lemma {:induction false} TailIsEnough(s: Partitions, month: int -> Period, ks: seq<Period>, i: nat, n: nat)
    requires ValidStore(s, month) && Rising(ks) && forall m :: m in ks <==> m in s
    requires forall a, b :: a <= b ==> month(a).index <= month(b).index
    requires i <= |ks| && (i == 0 || |ConcatParts(s, ks[i..])| >= n)
    ensures forall full :: IsHistory(full, s) ==> LastRows(SortRows(ConcatParts(s, ks[i..])), n) == LastRows(full, n)
  {
    var acc, all := ConcatParts(s, ks[i..]), ConcatParts(s, ks);
    SortedAlready(s, month, ks[i..]);
    assert ks == ks[..i] + ks[i..];
    ConcatSplit(s, ks[..i], ks[i..]);
    forall full | IsHistory(full, s)
      ensures LastRows(acc, n) == LastRows(full, n)
    {
      HistoryIsConcat(s, month, ks, full);
      assert i == 0 ==> ks[i..] == ks;
      LastOfConcat(ConcatParts(s, ks[..i]), acc, n);
    }
  }

  lemma {:induction false} LastOfConcat(a: seq<Row>, b: seq<Row>, n: nat)
    ensures |b| >= n ==> LastRows(a + b, n) == LastRows(b, n)
  {
  }

  lemma {:induction false} SortedAlready(s: Partitions, month: int -> Period, ks: seq<Period>)
    requires ValidStore(s, month) && Rising(ks) && forall m :: m in ks ==> m in s
    requires forall a, b :: a <= b ==> month(a).index <= month(b).index
    ensures SortRows(ConcatParts(s, ks)) == ConcatParts(s, ks)
  {
    ConcatAscending(s, month, ks);
    SortRowsFacts(ConcatParts(s, ks));
    AscendingUnique(SortRows(ConcatParts(s, ks)), ConcatParts(s, ks));
  }

  lemma {:induction false} HistoryIsConcat(s: Partitions, month: int -> Period, ks: seq<Period>, full: seq<Row>)
    requires ValidStore(s, month) && Rising(ks) && forall m :: m in ks <==> m in s
    requires forall a, b :: a <= b ==> month(a).index <= month(b).index
    requires IsHistory(full, s)
    ensures full == ConcatParts(s, ks)
  {
    ConcatAscending(s, month, ks);
    forall r
      ensures r in full <==> r in ConcatParts(s, ks)
    {
      ConcatPartsMembers(s, ks, r);
    }
    SameMembersSameRows(full, ConcatParts(s, ks));
  }
}
