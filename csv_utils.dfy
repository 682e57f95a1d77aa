/** Reading an uploaded table into a clean (day, value) series. */
module CsvUtils {
  import opened Wrappers
  import opened Sorting
  import opened Series

  /**
   * A table cell: `Blank` is pandas' missing value, `Stamp` a cell that
   * already holds a parsed date (as in a frame `normalize` returned).
   */
  datatype Cell = Blank | Num(x: real) | Text(s: string) | Stamp(day: int)

  /** A table: column names and rows of cells. */
  datatype Frame = Frame(columns: seq<string>, rows: seq<seq<Cell>>)

  /** Every row has one cell per column. */
  predicate Rectangular(f: Frame) {
    forall i :: 0 <= i < |f.rows| ==> |f.rows[i]| == |f.columns|
  }

  // ---------------------------------------------------------------------
  // preview_csv

  /** `fillna('')` on one row: a missing cell becomes the empty string. */
  function FillNa(row: seq<Cell>): (r: seq<Cell>)
    ensures |r| == |row|
    ensures forall i :: 0 <= i < |row| ==> r[i] != Blank
    ensures forall i :: 0 <= i < |row| ==> row[i] == Blank ==> r[i] == Text("")
    ensures forall i :: 0 <= i < |row| ==> row[i] != Blank ==> r[i] == row[i]
  {
    if row == [] then []
    else [if row[0] == Blank then Text("") else row[0]] + FillNa(row[1..])
  }

  function FillNaRows(rows: seq<seq<Cell>>): (r: seq<seq<Cell>>)
    ensures |r| == |rows|
    ensures forall i :: 0 <= i < |rows| ==> r[i] == FillNa(rows[i])
  {
    if rows == [] then [] else [FillNa(rows[0])] + FillNaRows(rows[1..])
  }

  /** How many rows `DataFrame.head(limit)` keeps; a negative limit drops that many from the end. */
  function HeadCount(n: nat, limit: int): (k: nat)
    ensures k <= n
    ensures limit >= 0 ==> k == if limit < n then limit else n
    ensures limit < 0 ==> k == if n + limit > 0 then n + limit else 0
  {
    if limit >= 0 then (if limit < n then limit else n)
    else (if n + limit > 0 then n + limit else 0)
  }

  /** The column names and the first rows of the table, missing cells shown as ''. */
  function PreviewCsv(f: Frame, limit: int): (r: (seq<string>, seq<seq<Cell>>))
    ensures r.0 == f.columns
    ensures |r.1| <= |f.rows|
    ensures limit >= 0 ==> |r.1| == if limit < |f.rows| then limit else |f.rows|
    ensures limit < 0 ==> |r.1| == if |f.rows| + limit > 0 then |f.rows| + limit else 0
    ensures forall i :: 0 <= i < |r.1| ==> r.1[i] == FillNa(f.rows[i])
    ensures forall i, j :: 0 <= i < |r.1| && 0 <= j < |r.1[i]| ==> r.1[i][j] != Blank
  {
    (f.columns, FillNaRows(f.rows[..HeadCount(|f.rows|, limit)]))
  }

  // ---------------------------------------------------------------------
  // normalize

  /** A row after projection and date parsing: `ds` and `y`, each possibly missing. */
  datatype Raw = Raw(date: Option<int>, value: Option<real>)

  /** The projection fails the way pandas' column lookup does. */
  datatype NormalizeError = KeyError

  function IndexOf(cols: seq<string>, name: string): (r: Option<nat>)
    ensures r.None? <==> name !in cols
    ensures r.Some? ==> r.value < |cols| && cols[r.value] == name
  {
    if cols == [] then None
    else if cols[0] == name then Some(0)
    else match IndexOf(cols[1..], name)
      case None => None
      case Some(k) => Some(k + 1)
  }

  /** The number in a value cell; a blank (or non-numeric) cell has none. */
  function ValueOf(c: Cell): (v: Option<real>)
    ensures v.Some? <==> c.Num?
    ensures v.Some? ==> c == Num(v.value)
  {
    match c
    case Num(x) => Some(x)
    case _ => None
  }

  /**
   * Keep the date and value columns, renamed to `ds` and `y`, and parse the
   * dates with `toDate` (None where `to_datetime(errors='coerce')` gives NaT).
   */
  function Project(f: Frame, di: nat, vi: nat, toDate: Cell -> Option<int>): (r: seq<Raw>)
    requires Rectangular(f) && di < |f.columns| && vi < |f.columns|
    ensures |r| == |f.rows|
    ensures forall i :: 0 <= i < |f.rows| ==>
      r[i].date == toDate(f.rows[i][di]) && r[i].value == ValueOf(f.rows[i][vi])
  {
    seq(|f.rows|, i requires 0 <= i < |f.rows| => Raw(toDate(f.rows[i][di]), ValueOf(f.rows[i][vi])))
  }

  /** `dropna(subset=['ds', 'y'])`: the rows that have both a date and a value. */
  function DropInvalid(p: seq<Raw>): (r: seq<Obs>)
    ensures |r| <= |p|
    ensures forall o :: o in r ==> Raw(Some(o.ds), Some(o.y)) in p
    ensures forall i :: 0 <= i < |p| && p[i].date.Some? && p[i].value.Some? ==>
      Obs(p[i].date.value, p[i].value.value) in r
    ensures SubsequenceOf(Lift(r), p)
  {
    if p == [] then []
    else
      var rest := DropInvalid(p[1..]);
      assert forall i :: 1 <= i < |p| ==> p[i] == p[1..][i - 1];
      if p[0].date.Some? && p[0].value.Some? then
        var r := [Obs(p[0].date.value, p[0].value.value)] + rest;
        LiftCons(r);
        assert r[1..] == rest;
        r
      else rest
  }

  /** The positions of the rows that have both a date and a value. */
  function Complete(p: seq<Raw>): set<int> {
    set i | 0 <= i < |p| && p[i].date.Some? && p[i].value.Some?
  }

  /** Appending a row adds its position when it is complete. */
  lemma CompleteSnoc(p: seq<Raw>)
    requires p != []
    ensures var n := |p| - 1;
      Complete(p) == Complete(p[..n]) + (if p[n].date.Some? && p[n].value.Some? then {n} else {})
  {
    var n := |p| - 1;
    assert forall i :: 0 <= i < n ==> p[..n][i] == p[i];
  }

  /** `dropna` works row by row, so it distributes over concatenation. */
  lemma {:induction false} DropInvalidAppend(a: seq<Raw>, b: seq<Raw>)
    ensures DropInvalid(a + b) == DropInvalid(a) + DropInvalid(b)
  {
    if a == [] {
      assert a + b == b;
    } else {
      assert (a + b)[1..] == a[1..] + b;
      DropInvalidAppend(a[1..], b);
    }
  }

  /** `dropna` keeps one row per complete input row. */
  lemma {:induction false} DropInvalidCount(p: seq<Raw>)
    ensures |DropInvalid(p)| == |Complete(p)|
  {
    if p != [] {
      var n := |p| - 1;
      assert p == p[..n] + [p[n]];
      DropInvalidAppend(p[..n], [p[n]]);
      assert |DropInvalid([p[n]])| == if p[n].date.Some? && p[n].value.Some? then 1 else 0 by {
        assert [p[n]][1..] == [];
      }
      DropInvalidCount(p[..n]);
      CompleteSnoc(p);
    }
  }

  /** The last row of s dated d, if any. */
  function LastWith(s: seq<Obs>, d: int): (r: Option<Obs>)
    ensures r.Some? <==> d in Dates(s)
    ensures r.Some? ==> r.value in s && r.value.ds == d
  {
    if s == [] then None
    else
      assert s == [s[0]] + s[1..];
      var later := LastWith(s[1..], d);
      if later.Some? then later
      else if s[0].ds == d then Some(s[0])
      else None
  }

  /** No day occurs twice. */
  predicate DistinctDates(s: seq<Obs>) {
    forall i, j :: 0 <= i < j < |s| ==> s[i].ds != s[j].ds
  }

  /** r is s with some elements left out, the others kept in their order. */
  predicate SubsequenceOf<T(==)>(r: seq<T>, s: seq<T>)
    decreases |s|
  {
    r == [] || (s != [] && ((r[0] == s[0] && SubsequenceOf(r[1..], s[1..])) || SubsequenceOf(r, s[1..])))
  }

  /**
   * `drop_duplicates(subset=['ds'], keep='last')`: a row survives when no
   * later row has its day. This works on any order.
   */
  function DropDuplicatesKeepLast(s: seq<Obs>): (r: seq<Obs>)
    ensures |r| <= |s|
    ensures forall o :: o in r ==> o in s
    ensures SubsequenceOf(r, s)
  {
    if s == [] then []
    else
      var rest := DropDuplicatesKeepLast(s[1..]);
      if s[0].ds in Dates(s[1..]) then rest else [s[0]] + rest
  }

  /** Dropping duplicates loses no day. */
  lemma {:induction false} DropDuplicatesDates(s: seq<Obs>)
    ensures Dates(DropDuplicatesKeepLast(s)) == Dates(s)
  {
    if s != [] {
      assert s == [s[0]] + s[1..];
      assert Dates(s) == {s[0].ds} + Dates(s[1..]);
      DropDuplicatesDates(s[1..]);
      var rest := DropDuplicatesKeepLast(s[1..]);
      if s[0].ds !in Dates(s[1..]) {
        assert Dates([s[0]] + rest) == {s[0].ds} + Dates(rest);
      }
    }
  }

  /** Dropping duplicates leaves each day once. */
  lemma {:induction false} DropDuplicatesDistinctDates(s: seq<Obs>)
    ensures DistinctDates(DropDuplicatesKeepLast(s))
  {
    if s != [] {
      DropDuplicatesDistinctDates(s[1..]);
      DropDuplicatesDates(s[1..]);
      var rest := DropDuplicatesKeepLast(s[1..]);
      if s[0].ds !in Dates(s[1..]) {
        var r := [s[0]] + rest;
        forall i, j | 0 <= i < j < |r| ensures r[i].ds != r[j].ds {
          assert r[j] == rest[j - 1];
          assert r[j].ds in Dates(rest);
          if i > 0 { assert r[i] == rest[i - 1]; }
        }
      }
    }
  }

  /** The row kept for a day is the last row of that day. */
  lemma {:induction false} DropDuplicatesKeepsLast(s: seq<Obs>)
    ensures forall o :: o in DropDuplicatesKeepLast(s) ==> LastWith(s, o.ds) == Some(o)
  {
    if s != [] {
      DropDuplicatesKeepsLast(s[1..]);
    }
  }

  /** On a date-sorted series, dropping duplicates leaves the days strictly increasing. */
  lemma SortedHeadFirst(s: seq<Obs>)
    requires |s| > 0 && SortedBy(s, DateKey)
    ensures SortedBy(s[1..], DateKey)
    ensures forall o :: o in s[1..] ==> s[0].ds <= o.ds
  {
    forall o | o in s[1..] ensures s[0].ds <= o.ds {
      var k :| 0 <= k < |s[1..]| && s[1..][k] == o;
      assert DateKey(s[0]) <= DateKey(s[k + 1]);
    }
  }

  lemma ConsIncreasing(x: Obs, rest: seq<Obs>)
    requires StrictlyIncreasing(rest)
    requires forall o :: o in rest ==> x.ds < o.ds
    ensures StrictlyIncreasing([x] + rest)
  {
    var r := [x] + rest;
    forall i, j | 0 <= i < j < |r| ensures r[i].ds < r[j].ds {
      assert r[j] == rest[j - 1];
      if i > 0 { assert r[i] == rest[i - 1]; }
    }
  }

  lemma {:induction false} DropDuplicatesIncreasing(s: seq<Obs>)
    requires SortedBy(s, DateKey)
    ensures StrictlyIncreasing(DropDuplicatesKeepLast(s))
  {
    if s != [] {
      var tail := s[1..];
      SortedHeadFirst(s);
      DropDuplicatesIncreasing(tail);
      var rest := DropDuplicatesKeepLast(tail);
      if s[0].ds !in Dates(tail) {
        forall o | o in rest ensures s[0].ds < o.ds {
          assert o in tail && o.ds in Dates(tail);
        }
        ConsIncreasing(s[0], rest);
      }
    }
  }

  /** Inserting x before the rows of its own day or later leaves each day's last row in place. */
  lemma {:induction false} LastWithInsert(x: Obs, t: seq<Obs>, d: int)
    ensures LastWith(InsertBy(x, t, DateKey), d) == LastWith([x] + t, d)
  {
    if t != [] && DateKey(t[0]) < DateKey(x) {
      LastWithInsert(x, t[1..], d);
      var i := InsertBy(x, t[1..], DateKey);
      assert InsertBy(x, t, DateKey) == [t[0]] + i;
      assert ([t[0]] + i)[1..] == i;
      assert ([x] + t)[1..] == t;
      assert ([x] + t[1..])[1..] == t[1..];
      assert t == [t[0]] + t[1..];
    }
  }

  /** The stable sort keeps, for every day, the same last row. */
  lemma {:induction false} SortKeepsLastWith(s: seq<Obs>, d: int)
    ensures LastWith(SortBy(s, DateKey), d) == LastWith(s, d)
  {
    if s != [] {
      var sorted := SortBy(s[1..], DateKey);
      SortKeepsLastWith(s[1..], d);
      LastWithInsert(s[0], sorted, d);
      assert ([s[0]] + sorted)[1..] == sorted;
      assert s == [s[0]] + s[1..];
    }
  }

  /** Two sequences with the same elements have the same days. */
  lemma SameElementsSameDates(a: seq<Obs>, b: seq<Obs>)
    requires multiset(a) == multiset(b)
    ensures Dates(a) == Dates(b)
    ensures forall o :: o in a <==> o in b
  {
    assert forall o :: o in a <==> o in multiset(a);
    assert forall o :: o in b <==> o in multiset(b);
  }

  /** Sort by day (stably), then keep the last row of each day. */
  function SortAndDedupe(valid: seq<Obs>): (r: seq<Obs>)
    ensures StrictlyIncreasing(r)
    ensures |r| <= |valid|
    ensures forall o :: o in r ==> o in valid
    ensures Dates(r) == Dates(valid)
    ensures forall o :: o in r ==> LastWith(valid, o.ds) == Some(o)
  {
    var sorted := SortBy(valid, DateKey);
    SameElementsSameDates(sorted, valid);
    DropDuplicatesDates(sorted);
    DropDuplicatesKeepsLast(sorted);
    DropDuplicatesIncreasing(sorted);
    var r := DropDuplicatesKeepLast(sorted);
    forall o | o in r ensures LastWith(valid, o.ds) == Some(o) {
      SortKeepsLastWith(valid, o.ds);
    }
    r
  }

  /**
   * `sort_values` is not asked to be stable, so rows sharing a day may come
   * out in any order. Whatever that order, dropping duplicates afterwards
   * gives a strictly increasing series over the same days, made of input rows.
   */
  lemma DedupeAnyTieOrder(valid: seq<Obs>, sorted: seq<Obs>)
    requires multiset(sorted) == multiset(valid)
    requires SortedBy(sorted, DateKey)
    ensures StrictlyIncreasing(DropDuplicatesKeepLast(sorted))
    ensures Dates(DropDuplicatesKeepLast(sorted)) == Dates(valid)
    ensures forall o :: o in DropDuplicatesKeepLast(sorted) ==> o in valid
  {
    SameElementsSameDates(sorted, valid);
    DropDuplicatesDates(sorted);
    DropDuplicatesIncreasing(sorted);
  }

  /**
   * Lines 15-19 once the columns are chosen: drop incomplete rows, sort by
   * day, keep each day's last row.
   */
  function Clean(p: seq<Raw>): (r: seq<Obs>)
    ensures StrictlyIncreasing(r)
    ensures |r| <= |p|
    ensures forall o :: o in r ==> Raw(Some(o.ds), Some(o.y)) in p
    ensures forall i :: 0 <= i < |p| && p[i].date.Some? && p[i].value.Some? ==> p[i].date.value in Dates(r)
    ensures forall o :: o in r ==> LastWith(DropInvalid(p), o.ds) == Some(o)
  {
    var valid := DropInvalid(p);
    var r := SortAndDedupe(valid);
    forall i | 0 <= i < |p| && p[i].date.Some? && p[i].value.Some? ensures p[i].date.value in Dates(r) {
      var o := Obs(p[i].date.value, p[i].value.value);
      assert o in valid;
      assert o.ds in Dates(valid);
    }
    r
  }

  /** A series seen again as raw rows, every date and value present. */
  function Lift(s: seq<Obs>): seq<Raw> {
    seq(|s|, i requires 0 <= i < |s| => Raw(Some(s[i].ds), Some(s[i].y)))
  }

  lemma {:induction false} DropInvalidLift(s: seq<Obs>)
    ensures DropInvalid(Lift(s)) == s
  {
    if s != [] {
      LiftCons(s);
      DropInvalidLift(s[1..]);
      DropInvalidCons(Lift(s), s[0], DropInvalid(Lift(s[1..])));
    }
  }

  /** Lifting a non-empty series lifts its first row, then the rest. */
  lemma LiftCons(s: seq<Obs>)
    requires s != []
    ensures Lift(s)[0] == Raw(Some(s[0].ds), Some(s[0].y))
    ensures Lift(s)[1..] == Lift(s[1..])
  {}

  /** A complete first row is kept in front of whatever the rest keeps. */
  lemma DropInvalidCons(p: seq<Raw>, o: Obs, rest: seq<Obs>)
    requires p != [] && p[0] == Raw(Some(o.ds), Some(o.y)) && DropInvalid(p[1..]) == rest
    ensures DropInvalid(p) == [o] + rest
  {}

  lemma {:induction false} DropDuplicatesDistinct(s: seq<Obs>)
    requires DistinctDates(s)
    ensures DropDuplicatesKeepLast(s) == s
  {
    if s != [] {
      assert DistinctDates(s[1..]);
      DropDuplicatesDistinct(s[1..]);
      forall o | o in s[1..] ensures o.ds != s[0].ds {
        var k :| 0 <= k < |s[1..]| && s[1..][k] == o;
        assert s[k + 1] == o;
      }
      assert s[0].ds !in Dates(s[1..]);
      assert s == [s[0]] + s[1..];
    }
  }

  /** Cleaning a clean series gives it back. */
  lemma CleanIdempotent(p: seq<Raw>)
    ensures Clean(Lift(Clean(p))) == Clean(p)
  {
    var out := Clean(p);
    DropInvalidLift(out);
    assert SortedBy(out, DateKey);
    SortBySorted(out, DateKey);
    DropDuplicatesDistinct(out);
  }

  /** The frame `normalize` returns: columns `ds` and `y`. */
  function AsFrame(s: seq<Obs>): (f: Frame)
    ensures Rectangular(f)
  {
    Frame(["ds", "y"], seq(|s|, i requires 0 <= i < |s| => [Stamp(s[i].ds), Num(s[i].y)]))
  }

  /**
   * `normalize(df, date_col, value_col)`. Selecting an absent column raises
   * KeyError; so does naming one column for both roles, since the renaming
   * then leaves no `ds` column.
   */
  function Normalize(f: Frame, dateCol: string, valueCol: string, toDate: Cell -> Option<int>)
    : (r: Result<seq<Obs>, NormalizeError>)
    requires Rectangular(f)
    ensures r.Failure? <==> dateCol !in f.columns || valueCol !in f.columns || dateCol == valueCol
    ensures r.Success? ==>
      var di, vi := IndexOf(f.columns, dateCol).value, IndexOf(f.columns, valueCol).value;
      r.value == Clean(Project(f, di, vi, toDate))
  {
    match (IndexOf(f.columns, dateCol), IndexOf(f.columns, valueCol))
    case (Some(di), Some(vi)) =>
      if dateCol == valueCol then Failure(KeyError)
      else Success(Clean(Project(f, di, vi, toDate)))
    case _ => Failure(KeyError)
  }

  /**
   * `normalize` is idempotent: applied to its own output (whose `ds` cells
   * already hold dates, which parsing returns unchanged) it returns the same series.
   */
  lemma NormalizeIdempotent(f: Frame, dateCol: string, valueCol: string, toDate: Cell -> Option<int>)
    requires Rectangular(f)
    requires forall d :: toDate(Stamp(d)) == Some(d)
    requires Normalize(f, dateCol, valueCol, toDate).Success?
    ensures Normalize(AsFrame(Normalize(f, dateCol, valueCol, toDate).value), "ds", "y", toDate)
      == Normalize(f, dateCol, valueCol, toDate)
  {
    var di, vi := IndexOf(f.columns, dateCol).value, IndexOf(f.columns, valueCol).value;
    var p := Project(f, di, vi, toDate);
    var out := Clean(p);
    var g := AsFrame(out);
    assert IndexOf(g.columns, "ds") == Some(0);
    assert IndexOf(g.columns, "y") == Some(1);
    assert Project(g, 0, 1, toDate) == Lift(out);
    CleanIdempotent(p);
  }
}
