/** The MT5 capture file: every append merges, de-duplicates, sorts and caps. */
module BarCapture {
  import opened Types
  import opened Arith

  /** A timestamped row; the bar columns are carried along unread. */
  datatype Row<V> = Row(time: int, bar: V)

  // ---------------------------------------------------------------- what one append computes

  predicate HasTime<V>(rows: seq<Row<V>>, time: int) {
    exists k :: 0 <= k < |rows| && rows[k].time == time
  }

  /** Rows that no later row repeats (`duplicated(keep="last")` negated). */
  function KeepLast<V>(rows: seq<Row<V>>): seq<Row<V>> {
    if rows == [] then []
    else if HasTime(rows[1..], rows[0].time) then KeepLast(rows[1..])
    else [rows[0]] + KeepLast(rows[1..])
  }

  function Insert<V>(sorted: seq<Row<V>>, r: Row<V>): seq<Row<V>> {
    if sorted == [] || r.time < sorted[0].time then [r] + sorted else [sorted[0]] + Insert(sorted[1..], r)
  }

  function SortIndex<V>(rows: seq<Row<V>>): seq<Row<V>> {
    if rows == [] then [] else Insert(SortIndex(rows[1..]), rows[0])
  }

  /** `iloc[-cap:]` when a positive cap is exceeded. */
  function Tail<T>(s: seq<T>, cap: int): seq<T> {
    if cap > 0 && |s| > cap then s[|s| - cap..] else s
  }

  function Clean<V>(rows: seq<Row<V>>): seq<Row<V>> { SortIndex(KeepLast(rows)) }

  function Appended<V>(file: Option<seq<Row<V>>>, df: seq<Row<V>>, cap: int): Option<seq<Row<V>>> {
    if df == [] then file else Some(Tail(Clean((if file.Some? then file.value else []) + df), cap))
  }

  class CaptureFile<V> {
    const cap: int
    var file: Option<seq<Row<V>>>

    constructor (cap: int)
      ensures this.cap == cap && file == None
    {
      this.cap, file := cap, None;
    }

    /** A missing or empty frame changes nothing and reports 0; so does a failing file system. */
    method AppendBars(df: Option<seq<Row<V>>>, fails: bool) returns (total: nat)
      modifies this
      ensures file == if df.None? || fails then old(file) else Appended(old(file), df.value, cap)
      ensures total == if df.None? || df.value == [] || fails then 0 else |file.value|
    {
      if df.None? || |df.value| == 0 {
        return 0;
      }
      if fails {
        return 0;
      }
      var merged := df.value;
      assert [] + df.value == df.value;
      if file.Some? {
        merged := file.value + merged;
      }
      merged := SortIndex(KeepLast(merged));
      if cap > 0 && |merged| > cap {
        merged := merged[|merged| - cap..];
      }
      file := Some(merged);
      return |merged|;
    }
  }

  // ---------------------------------------------------------------- tables as maps

  /** The table a sequence of writes leaves: the last row written for a time wins. */
  function Table<V>(rows: seq<Row<V>>): map<int, V> {
    if rows == [] then map[] else Table(rows[..|rows| - 1])[rows[|rows| - 1].time := rows[|rows| - 1].bar]
  }

  predicate Increasing<V>(rows: seq<Row<V>>) {
    forall j, k :: 0 <= j < k < |rows| ==> rows[j].time < rows[k].time
  }

  lemma {:induction false} TableKeys<V>(rows: seq<Row<V>>)
    ensures forall t :: t in Table(rows) <==> HasTime(rows, t)
  {
    if rows != [] {
      var n := |rows| - 1;
      TableKeys(rows[..n]);
      forall t ensures t in Table(rows) <==> HasTime(rows, t) {
        if HasTime(rows, t) {
          var k :| 0 <= k < |rows| && rows[k].time == t;
          if k < n { assert rows[..n][k].time == t; }
        }
        if HasTime(rows[..n], t) {
          var k :| 0 <= k < n && rows[..n][k].time == t;
          assert rows[k].time == t;
        }
        assert rows[n].time == t ==> HasTime(rows, t);
      }
    }
  }

  lemma {:induction false} TableAppends<V>(a: seq<Row<V>>, b: seq<Row<V>>)
    ensures Table(a + b) == Table(a) + Table(b)
  {
    if b == [] {
      assert a + b == a;
    } else {
      var n := |b| - 1;
      assert (a + b)[..|a + b| - 1] == a + b[..n];
      TableAppends(a, b[..n]);
    }
  }

  lemma TableOfOne<V>(r: Row<V>)
    ensures Table([r]) == map[r.time := r.bar]
  {
    assert [r][..0] == [];
  }

  /** The first row first: it matters only if nothing later repeats its time. */
  lemma TableFirst<V>(rows: seq<Row<V>>)
    requires rows != []
    ensures Table(rows) == map[rows[0].time := rows[0].bar] + Table(rows[1..])
  {
    assert rows == [rows[0]] + rows[1..];
    TableAppends([rows[0]], rows[1..]);
    TableOfOne(rows[0]);
  }

  predicate NoRepeats<V>(rows: seq<Row<V>>) {
    forall j, k :: 0 <= j < k < |rows| ==> rows[j].time != rows[k].time
  }

  lemma {:induction false} KeepLastKeepsTable<V>(rows: seq<Row<V>>)
    ensures NoRepeats(KeepLast(rows)) && Table(KeepLast(rows)) == Table(rows)
  {
    if rows != [] {
      KeepLastKeepsTable(rows[1..]);
      TableFirst(rows);
      TableKeys(rows[1..]);
      if !HasTime(rows[1..], rows[0].time) {
        var kept := KeepLast(rows[1..]);
        TableKeys(kept);
        NotAgain(kept, rows[0].time);
        TableFirst([rows[0]] + kept);
        assert ([rows[0]] + kept)[1..] == kept;
      }
    }
  }

  lemma NotAgain<V>(rows: seq<Row<V>>, time: int)
    requires !HasTime(rows, time)
    ensures forall k :: 0 <= k < |rows| ==> rows[k].time != time
  {}

  lemma NotIn<V>(rows: seq<Row<V>>, time: int)
    requires forall k :: 0 <= k < |rows| ==> rows[k].time != time
    ensures !HasTime(rows, time)
  {}

  lemma {:induction false} InsertKeepsTable<V>(sorted: seq<Row<V>>, r: Row<V>)
    requires forall k :: 0 <= k < |sorted| ==> sorted[k].time != r.time
    ensures Table(Insert(sorted, r)) == Table(sorted)[r.time := r.bar]
  {
    hide HasTime, Table;
    var out := Insert(sorted, r);
    TableFirst(out);
    if sorted == [] || r.time < sorted[0].time {
      assert out[1..] == sorted;
      NotIn(sorted, r.time);
      TableKeys(sorted);
    } else {
      assert out[1..] == Insert(sorted[1..], r);
      InsertKeepsTable(sorted[1..], r);
      TableFirst(sorted);
    }
  }

  lemma InsertTimes<V>(sorted: seq<Row<V>>, r: Row<V>, low: int)
    requires forall k :: 0 <= k < |sorted| ==> low < sorted[k].time && sorted[k].time != r.time
    requires low < r.time
    ensures forall k :: 0 <= k < |Insert(sorted, r)| ==> low < Insert(sorted, r)[k].time
  {
    var out := Insert(sorted, r);
    forall k | 0 <= k < |out| ensures low < out[k].time {
      InsertKeepsTable(sorted, r);
      TableKeys(out);
      TableKeys(sorted);
      assert HasTime(out, out[k].time);
    }
  }

  lemma {:induction false} InsertSorts<V>(sorted: seq<Row<V>>, r: Row<V>)
    requires Increasing(sorted) && forall k :: 0 <= k < |sorted| ==> sorted[k].time != r.time
    ensures Increasing(Insert(sorted, r))
  {
    if !(sorted == [] || r.time < sorted[0].time) {
      InsertSorts(sorted[1..], r);
      InsertTimes(sorted[1..], r, sorted[0].time);
    }
  }

  lemma HeadIsAlone<V>(rows: seq<Row<V>>)
    requires rows != [] && NoRepeats(rows)
    ensures NoRepeats(rows[1..]) && !HasTime(rows[1..], rows[0].time)
  {
    NotIn(rows[1..], rows[0].time);
  }

  /** A time that one table lacks is on no row of another listing of it. */
  lemma SameTableSameTimes<V>(a: seq<Row<V>>, b: seq<Row<V>>, time: int)
    requires Table(a) == Table(b) && !HasTime(b, time)
    ensures time !in Table(b) && forall k :: 0 <= k < |a| ==> a[k].time != time
  {
    hide Table, HasTime;
    TableKeys(a);
    TableKeys(b);
    NotAgain(a, time);
  }

  lemma FirstOrLast<V>(t: map<int, V>, time: int, bar: V)
    requires time !in t
    ensures map[time := bar] + t == t[time := bar]
  {}

  lemma {:induction false} SortKeepsTable<V>(rows: seq<Row<V>>)
    requires NoRepeats(rows)
    ensures Increasing(SortIndex(rows)) && Table(SortIndex(rows)) == Table(rows)
  {
    hide Table, Increasing, HasTime, Insert, NoRepeats, SortIndex;
    if rows == [] {
      SortEmpty(rows);
    } else {
      var sorted, r := SortIndex(rows[1..]), rows[0];
      HeadIsAlone(rows);
      SortKeepsTable(rows[1..]);
      SameTableSameTimes(sorted, rows[1..], r.time);
      InsertSorts(sorted, r);
      InsertKeepsTable(sorted, r);
      TableFirst(rows);
      FirstOrLast(Table(rows[1..]), r.time, r.bar);
      SortOne(rows);
    }
  }

  lemma SortEmpty<V>(rows: seq<Row<V>>)
    requires rows == []
    ensures Increasing(SortIndex(rows)) && Table(SortIndex(rows)) == Table(rows)
  {}

  lemma SortOne<V>(rows: seq<Row<V>>)
    requires rows != []
    ensures SortIndex(rows) == Insert(SortIndex(rows[1..]), rows[0])
  {}

  /** Cleaning lists the table of the writes in increasing time order. */
  lemma CleanLists<V>(rows: seq<Row<V>>)
    ensures Increasing(Clean(rows)) && Table(Clean(rows)) == Table(rows)
  {
    KeepLastKeepsTable(rows);
    SortKeepsTable(KeepLast(rows));
  }

  lemma LastIsGreatest<V>(rows: seq<Row<V>>, t: int)
    requires rows != [] && Increasing(rows) && t in Table(rows)
    ensures t <= rows[|rows| - 1].time
  {
    TableKeys(rows);
  }

  lemma EmptyListing<V>(rows: seq<Row<V>>)
    ensures rows == [] <==> Table(rows) == map[]
  {
    TableKeys(rows);
    if rows != [] { assert HasTime(rows, rows[0].time); }
  }

  /** A table has one listing. */
  lemma {:induction false} ListingIsUnique<V>(a: seq<Row<V>>, b: seq<Row<V>>)
    requires Increasing(a) && Increasing(b) && Table(a) == Table(b)
    ensures a == b
  {
    TableKeys(a);
    TableKeys(b);
    EmptyListing(a);
    EmptyListing(b);
    if a != [] && b != [] {
      var m, n := |a| - 1, |b| - 1;
      assert a[m].time in Table(a) && b[n].time in Table(b);
      LastIsGreatest(a, b[n].time);
      LastIsGreatest(b, a[m].time);
      TableKeys(a[..m]);
      TableKeys(b[..n]);
      NotIn(a[..m], a[m].time);
      NotIn(b[..n], b[n].time);
      assert Table(a[..m]) == Table(a) - {a[m].time};
      assert Table(b[..n]) == Table(b) - {b[n].time};
      ListingIsUnique(a[..m], b[..n]);
    }
  }

  lemma {:induction false} TableSize<V>(rows: seq<Row<V>>)
    requires Increasing(rows)
    ensures |Table(rows)| == |rows|
  {
    if rows != [] {
      var n := |rows| - 1;
      TableSize(rows[..n]);
      TableKeys(rows[..n]);
      NotIn(rows[..n], rows[n].time);
      assert Table(rows).Keys == Table(rows[..n]).Keys + {rows[n].time};
    }
  }

  // ---------------------------------------------------------------- capping early or late

  /** The listed rows from time `x` on. */
  function From<V>(rows: seq<Row<V>>, x: int): seq<Row<V>> {
    if rows == [] || rows[0].time >= x then rows else From(rows[1..], x)
  }

  function Above<V>(table: map<int, V>, x: int): map<int, V> {
    map t | t in table && t >= x :: table[t]
  }

  lemma {:induction false} FromIsSuffix<V>(rows: seq<Row<V>>, x: int)
    requires Increasing(rows)
    ensures |From(rows, x)| <= |rows| && From(rows, x) == rows[|rows| - |From(rows, x)|..] && Increasing(From(rows, x))
  {
    if rows != [] && rows[0].time < x { FromIsSuffix(rows[1..], x); }
  }

  lemma {:induction false} FromLists<V>(rows: seq<Row<V>>, x: int)
    requires Increasing(rows)
    ensures Table(From(rows, x)) == Above(Table(rows), x)
  {
    hide Table, HasTime;
    if rows == [] || rows[0].time >= x {
      AllAbove(rows, x);
    } else {
      FromLists(rows[1..], x);
      TableFirst(rows);
      TableKeys(rows[1..]);
      NotIn(rows[1..], rows[0].time);
    }
  }

  lemma AllAbove<V>(rows: seq<Row<V>>, x: int)
    requires Increasing(rows) && (rows != [] ==> rows[0].time >= x)
    ensures Table(rows) == Above(Table(rows), x)
  {
    TableKeys(rows);
  }

  lemma {:induction false} FromAt<V>(rows: seq<Row<V>>, i: nat)
    requires Increasing(rows) && i < |rows|
    ensures From(rows, rows[i].time) == rows[i..]
  {
    if i > 0 { FromAt(rows[1..], i - 1); }
  }

  lemma SmallerTable<V>(a: map<int, V>, b: map<int, V>)
    requires a.Keys <= b.Keys
    ensures |a| <= |b|
  {
    SubsetIsSmaller(a.Keys, b.Keys);
  }

  /** Rows dropped by the cap are older than everything kept, so merging into the capped listing and
      capping again gives what merging into the full listing and capping gives. */
  lemma CapThenMerge<V>(c: seq<Row<V>>, b: seq<Row<V>>, cap: int)
    ensures Tail(Clean(Tail(Clean(c), cap) + b), cap) == Tail(Clean(c + b), cap)
  {
    hide Clean, Table, Above;
    var full := Clean(c);
    var kept := Tail(full, cap);
    CleanLists(c);
    CleanLists(c + b);
    CleanLists(kept + b);
    TableAppends(c, b);
    TableAppends(kept, b);
    if kept == full {
      ListingIsUnique(Clean(kept + b), Clean(c + b));
    } else {
      var x := kept[0].time;
      FromAt(full, |full| - cap);
      FromLists(full, x);
      FromIsSuffix(full, x);
      TailsAgree(Clean(kept + b), Clean(c + b), kept, Table(c), Table(b), x, cap);
    }
  }

  lemma TailsAgree<V>(u: seq<Row<V>>, w: seq<Row<V>>, kept: seq<Row<V>>, before: map<int, V>, batch: map<int, V>,
                      x: int, cap: int)
    requires Increasing(u) && Increasing(w) && Increasing(kept) && 0 < cap == |kept|
    requires Table(kept) == Above(before, x) && Table(u) == Table(kept) + batch && Table(w) == before + batch
    ensures Tail(u, cap) == Tail(w, cap)
  {
    hide Table, Above, Increasing, From, Tail;
    FromIsSuffix(u, x);
    FromIsSuffix(w, x);
    FromLists(u, x);
    FromLists(w, x);
    AboveIgnoresOlder(before, batch, x);
    ListingIsUnique(From(u, x), From(w, x));
    TableSize(kept);
    TableSize(From(u, x));
    SmallerTable(Table(kept), Above(Table(u), x));
    TailOfSuffix(u, From(u, x), cap);
    TailOfSuffix(w, From(w, x), cap);
  }

  lemma AboveIgnoresOlder<V>(before: map<int, V>, batch: map<int, V>, x: int)
    ensures Above(Above(before, x) + batch, x) == Above(before + batch, x)
    ensures Above(before, x).Keys <= Above(before + batch, x).Keys
  {}

  lemma TailOfSuffix<T>(s: seq<T>, suffix: seq<T>, cap: int)
    requires 0 < cap <= |suffix| <= |s| && suffix == s[|s| - |suffix|..]
    ensures Tail(s, cap) == Tail(suffix, cap)
  {}

  // ---------------------------------------------------------------- any sequence of appends

  /** The file after the batches, from a path that does not exist yet. */
  function Stored<V>(batches: seq<seq<Row<V>>>, cap: int): Option<seq<Row<V>>> {
    if batches == [] then None
    else Appended(Stored(batches[..|batches| - 1], cap), batches[|batches| - 1], cap)
  }

  function Written<V>(batches: seq<seq<Row<V>>>): seq<Row<V>> {
    if batches == [] then [] else Written(batches[..|batches| - 1]) + batches[|batches| - 1]
  }

  /** Capping after every append equals merging every batch and capping once. */
  lemma {:induction false} CaptureIsIncremental<V>(batches: seq<seq<Row<V>>>, cap: int)
    ensures Stored(batches, cap)
            == if Written(batches) == [] then None else Some(Tail(Clean(Written(batches)), cap))
  {
    hide Clean;
    if batches != [] {
      var n := |batches| - 1;
      CaptureIsIncremental(batches[..n], cap);
      CapThenMerge(Written(batches[..n]), batches[n], cap);
      EmptyIsClean<V>();
      assert Written(batches[..n]) == [] ==> [] + batches[n] == Written(batches);
      assert batches[n] == [] ==> Written(batches) == Written(batches[..n]);
    }
  }

  lemma EmptyIsClean<V>()
    ensures Clean<V>([]) == []
  {}

  /** `rows` are the newest `cap` rows of `table`, in increasing time order. */
  ghost predicate IsNewest<V>(rows: seq<Row<V>>, table: map<int, V>, cap: int) {
    && Increasing(rows)
    && (forall k :: 0 <= k < |rows| ==> rows[k].time in table && table[rows[k].time] == rows[k].bar)
    && |rows| == (if 0 < cap < |table| then cap else |table|)
    && (forall t :: t in table && !HasTime(rows, t) ==> forall k :: 0 <= k < |rows| ==> t < rows[k].time)
  }

  lemma {:induction false} ListedRow<V>(rows: seq<Row<V>>, k: nat)
    requires Increasing(rows) && k < |rows|
    ensures rows[k].time in Table(rows) && Table(rows)[rows[k].time] == rows[k].bar
  {
    if k < |rows| - 1 { ListedRow(rows[..|rows| - 1], k); }
  }

  lemma TailIsNewest<V>(listing: seq<Row<V>>, cap: int)
    requires Increasing(listing)
    ensures IsNewest(Tail(listing, cap), Table(listing), cap)
  {
    hide Table, HasTime;
    var rows, d := Tail(listing, cap), |listing| - |Tail(listing, cap)|;
    TableSize(listing);
    forall k | 0 <= k < |rows|
      ensures rows[k].time in Table(listing) && Table(listing)[rows[k].time] == rows[k].bar
    {
      assert rows[k] == listing[d + k];
      ListedRow(listing, d + k);
    }
    forall t | t in Table(listing) && !HasTime(rows, t)
      ensures forall k :: 0 <= k < |rows| ==> t < rows[k].time
    {
      DroppedIsOlder(listing, d, t);
    }
  }

  lemma InSuffix<V>(rows: seq<Row<V>>, d: nat, i: nat)
    requires d <= i < |rows|
    ensures HasTime(rows[d..], rows[i].time)
  {
    assert rows[d..][i - d].time == rows[i].time;
  }

  lemma DroppedIsOlder<V>(listing: seq<Row<V>>, d: nat, t: int)
    requires Increasing(listing) && d <= |listing| && t in Table(listing) && !HasTime(listing[d..], t)
    ensures forall k :: d <= k < |listing| ==> t < listing[k].time
  {
    TableKeys(listing);
    var i :| 0 <= i < |listing| && listing[i].time == t;
    if i >= d { InSuffix(listing, d, i); }
  }

  /** After any sequence of appends the file holds exactly the newest `cap` times ever written, each
      with the row written for it last; with no positive cap, all of them. */
  lemma {:induction false} FileIsTheNewestOfEverything<V>(batches: seq<seq<Row<V>>>, cap: int)
    ensures Stored(batches, cap).Some? <==> Written(batches) != []
    ensures Stored(batches, cap).Some? ==> IsNewest(Stored(batches, cap).value, Table(Written(batches)), cap)
  {
    hide Clean, IsNewest, Table;
    CaptureIsIncremental(batches, cap);
    CleanLists(Written(batches));
    TailIsNewest(Clean(Written(batches)), cap);
  }

  /** That description leaves only one possible file. */
  lemma NewestIsUnique<V>(a: seq<Row<V>>, b: seq<Row<V>>, table: map<int, V>, cap: int)
    requires IsNewest(a, table, cap) && IsNewest(b, table, cap)
    ensures a == b
  {
    NewestTimes(a, b, table, cap);
    NewestTimes(b, a, table, cap);
    forall t ensures t in Table(a) <==> t in Table(b) {
      TableKeys(a);
      TableKeys(b);
    }
    assert Table(a) == Table(b) by {
      forall t | t in Table(a) ensures Table(a)[t] == Table(b)[t] {
        ListedValue(a, table, t);
        ListedValue(b, table, t);
      }
    }
    ListingIsUnique(a, b);
  }

  lemma ListedValue<V>(rows: seq<Row<V>>, table: map<int, V>, t: int)
    requires Increasing(rows) && t in Table(rows)
    requires forall k :: 0 <= k < |rows| ==> rows[k].time in table && table[rows[k].time] == rows[k].bar
    ensures t in table && Table(rows)[t] == table[t]
  {
    TableKeys(rows);
    var k :| 0 <= k < |rows| && rows[k].time == t;
    ListedRow(rows, k);
  }

  /** A time only one of two newest sets holds would make the other strictly larger. */
  lemma NewestTimes<V>(a: seq<Row<V>>, b: seq<Row<V>>, table: map<int, V>, cap: int)
    requires IsNewest(a, table, cap) && IsNewest(b, table, cap)
    ensures forall t :: HasTime(a, t) ==> HasTime(b, t)
  {
    forall t | HasTime(a, t) ensures HasTime(b, t) {
      var k :| 0 <= k < |a| && a[k].time == t;
      if !HasTime(b, t) { NewestOverflow(a, b, table, t); }
    }
  }

  lemma NewestOverflow<V>(a: seq<Row<V>>, b: seq<Row<V>>, table: map<int, V>, t: int)
    requires Increasing(a) && Increasing(b) && HasTime(a, t) && !HasTime(b, t)
    requires forall k :: 0 <= k < |b| ==> b[k].time in table && t < b[k].time
    requires forall s :: s in table && !HasTime(a, s) ==> forall k :: 0 <= k < |a| ==> s < a[k].time
    ensures |a| > |b|
  {
    TableKeys(a);
    TableKeys(b);
    TableSize(a);
    TableSize(b);
    var k :| 0 <= k < |a| && a[k].time == t;
    forall s | s in Table(b).Keys + {t} ensures s in Table(a).Keys {
      if s != t {
        var j :| 0 <= j < |b| && b[j].time == s;
        assert t < b[j].time;
      }
    }
    SubsetIsSmaller(Table(b).Keys + {t}, Table(a).Keys);
  }

  /** Sending the newest batch again changes nothing. */
  lemma ResendChangesNothing<V>(batches: seq<seq<Row<V>>>, cap: int)
    requires batches != []
    ensures Appended(Stored(batches, cap), batches[|batches| - 1], cap) == Stored(batches, cap)
  {
    hide Clean;
    var b := batches[|batches| - 1];
    var again := batches + [b];
    assert again[..|batches|] == batches;
    CaptureIsIncremental(batches, cap);
    CaptureIsIncremental(again, cap);
    var all := Written(batches);
    assert all == Written(batches[..|batches| - 1]) + b;
    TableAppends(Written(batches[..|batches| - 1]), b);
    TableAppends(all, b);
    CleanLists(all);
    CleanLists(all + b);
    assert Table(all + b) == Table(all);
    ListingIsUnique(Clean(all), Clean(all + b));
  }
}
