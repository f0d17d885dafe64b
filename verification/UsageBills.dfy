/**
  Usage and bill queries of the admin service (`onr-admin/internal/service/service.go`): the events of one key are
  grouped by bucket and model for usage and by model for bills. `bucketOf` stands for the calendar bucketing.
 */
module UsageBills {
  import opened Ledger
  import Text
  import SortedSets

  /** The six counters of one group. */
  datatype Sums = Sums(input: int, output: int, cached: int, total: int, amount: int, count: int)

  const NO_SUMS := Sums(0, 0, 0, 0, 0, 0)
  const NUL: char := '\0'

  function TotalTokens(e: Event): int { if e.total > 0 then e.total else e.input + e.output }

  function Plus(x: Sums, y: Sums): Sums {
    Sums(x.input + y.input, x.output + y.output, x.cached + y.cached,
         x.total + y.total, x.amount + y.amount, x.count + y.count)
  }

  function Of(e: Event): Sums { Sums(e.input, e.output, e.cached, TotalTokens(e), e.amount, 1) }

  /** The counters of the events whose class is in `ks`. */
  function SumIn<K(==)>(es: seq<Event>, class_: Event -> K, ks: set<K>): Sums {
    if es == [] then NO_SUMS else
      var rest := SumIn(es[..|es| - 1], class_, ks);
      if class_(es[|es| - 1]) in ks then Plus(rest, Of(es[|es| - 1])) else rest
  }

  function ModelOf(): Event -> string { (e: Event) => e.model }
  function KeyIdOf(): Event -> string { (e: Event) => e.accessKeyId }
  function DimsOf(bucketOf: int -> string): Event -> (string, string) {
    (e: Event) => (bucketOf(e.occurredAt), e.model)
  }

  // ---------------------------------------------------------------- filtering by key

  function Matching(es: seq<Event>, key: string): seq<Event> {
    if es == [] then [] else
      Matching(es[..|es| - 1], key) + (if es[|es| - 1].accessKeyId == key then [es[|es| - 1]] else [])
  }

  /** The matching events are those of the key's class, in order. */
  lemma {:induction false} MatchingIsTheClass(es: seq<Event>, key: string)
    ensures Matching(es, key) == InClass(es, (e: Event) => e.accessKeyId, key)
  {
    if es != [] { MatchingIsTheClass(es[..|es| - 1], key); }
  }

  /** Filter first, then keep the newest `limit` matches; a limit of zero or less keeps all. */
  method FilterAccessKeyEvents(es: seq<Event>, key: string, limit: int) returns (r: seq<Event>)
    ensures |r| == if limit > 0 && |Matching(es, key)| > limit then limit else |Matching(es, key)|
    ensures r == Matching(es, key)[|Matching(es, key)| - |r|..]
  {
    r := [];
    var i := 0;
    while i < |es|
      invariant 0 <= i <= |es| && r == Matching(es[..i], key)
    {
      assert es[..i + 1][..i] == es[..i];
      if es[i].accessKeyId == key { r := r + [es[i]]; }
      i := i + 1;
    }
    assert es[..i] == es;
    if limit > 0 && |r| > limit { r := r[|r| - limit..]; }
  }

  // ---------------------------------------------------------------- grouping

  function GroupKey(bucket: string, model: string): string { bucket + [NUL] + model }

  /** `strings.SplitN(key, "\x00", 2)` */
  function SplitKey(key: string): (string, string) {
    if key == "" then ("", "")
    else if key[0] == NUL then ("", key[1..])
    else var (b, m) := SplitKey(key[1..]); ([key[0]] + b, m)
  }

  /** The grouping key splits back exactly, also when the model itself contains NUL. */
  lemma {:induction false} GroupKeySplits(bucket: string, model: string)
    requires NUL !in bucket
    ensures SplitKey(GroupKey(bucket, model)) == (bucket, model)
  {
    var key := GroupKey(bucket, model);
    if bucket == "" {
      assert key[1..] == model;
    } else {
      assert key[1..] == GroupKey(bucket[1..], model) && key[0] == bucket[0];
      GroupKeySplits(bucket[1..], model);
      assert bucket == [bucket[0]] + bucket[1..];
    }
  }

  ghost predicate Grouped<K(!new)>(groups: map<K, Sums>, es: seq<Event>, class_: Event -> K) {
    && (forall k :: k in groups <==> exists i :: 0 <= i < |es| && class_(es[i]) == k)
    && (forall k :: k in groups ==> groups[k] == SumIn(es, class_, {k}))
  }

  lemma {:induction false} GroupOneMore<K(!new)>(groups: map<K, Sums>, es: seq<Event>, e: Event, class_: Event -> K)
    requires Grouped(groups, es, class_)
    ensures var k := class_(e);
            Grouped(groups[k := Plus(if k in groups then groups[k] else NO_SUMS, Of(e))], es + [e], class_)
  {
    var more, k := es + [e], class_(e);
    var next := groups[k := Plus(if k in groups then groups[k] else NO_SUMS, Of(e))];
    assert more[..|more| - 1] == es && more[|es|] == e;
    assert k !in groups ==> SumIn(es, class_, {k}) == NO_SUMS by { if k !in groups { NoneInClass(es, class_, k); } }
    forall x ensures x in next <==> exists i :: 0 <= i < |more| && class_(more[i]) == x {
      if x in groups {
        var i :| 0 <= i < |es| && class_(es[i]) == x;
        assert more[i] == es[i];
      }
      if exists i :: 0 <= i < |more| && class_(more[i]) == x {
        var i :| 0 <= i < |more| && class_(more[i]) == x;
        if i < |es| { assert more[i] == es[i]; }
      }
    }
  }

  lemma {:induction false} NoneInClass<K>(es: seq<Event>, class_: Event -> K, k: K)
    requires forall i :: 0 <= i < |es| ==> class_(es[i]) != k
    ensures SumIn(es, class_, {k}) == NO_SUMS
  {
    if es != [] { NoneInClass(es[..|es| - 1], class_, k); }
  }

  /** The one table of a grouping. */
  ghost function TableOf<K(!new)>(es: seq<Event>, class_: Event -> K): map<K, Sums> {
    map k | k in (set i | 0 <= i < |es| :: class_(es[i])) :: SumIn(es, class_, {k})
  }

  lemma {:induction false} GroupedIsTable<K(!new)>(groups: map<K, Sums>, es: seq<Event>, class_: Event -> K)
    ensures Grouped(groups, es, class_) <==> groups == TableOf(es, class_)
  {
    hide SumIn;
    var t := TableOf(es, class_);
    forall k ensures k in t <==> exists i :: 0 <= i < |es| && class_(es[i]) == k {}
    if Grouped(groups, es, class_) {
      forall k ensures k in groups <==> k in t {}
      assert groups.Keys == t.Keys;
    }
  }

  /** `queryLocalBills` after filtering: one row per model with that model's sums, in model order. */
  method QueryBills(es: seq<Event>) returns (rows: seq<(string, Sums)>)
    ensures Listing(rows, TableOf(es, ModelOf()), SortedSets.LexLess)
  {
    var groups := GroupBills(es);
    GroupedIsTable(groups, es, ModelOf());
    ModelsAreOrdered();
    rows := SortRows(groups, SortedSets.LexLess);
  }

  method GroupBills(es: seq<Event>) returns (groups: map<string, Sums>)
    ensures Grouped(groups, es, ModelOf())
  {
    groups := map[];
    var i := 0;
    while i < |es|
      invariant 0 <= i <= |es| && Grouped(groups, es[..i], ModelOf())
    {
      var e := es[i];
      GroupOneMore(groups, es[..i], e, ModelOf());
      assert es[..i + 1] == es[..i] + [e];
      if e.model !in groups { groups := groups[e.model := NO_SUMS]; }
      groups := groups[e.model := Plus(groups[e.model], Of(e))];
      i := i + 1;
    }
    assert es[..i] == es;
  }

  /** `queryLocalUsage` after filtering: grouped under a joined key, split back into bucket and model, then sorted. */
  method QueryUsage(es: seq<Event>, bucketOf: int -> string) returns (rows: seq<((string, string), Sums)>)
    requires forall t :: NUL !in bucketOf(t)
    ensures Listing(rows, TableOf(es, DimsOf(bucketOf)), DimsLess)
  {
    var groups := GroupUsage(es, bucketOf);
    forall key | key in groups ensures Splittable(key) {
      var j :| 0 <= j < |es| && JoinedOf(bucketOf)(es[j]) == key;
      GroupKeySplits(bucketOf(es[j].occurredAt), es[j].model);
    }
    var split := SplitRows(groups);
    SplitGroups(split, groups, es, bucketOf, JoinedOf(bucketOf));
    GroupedIsTable(split, es, DimsOf(bucketOf));
    DimsAreOrdered();
    rows := SortRows(split, DimsLess);
  }

  // ---------------------------------------------------------------- the order of rows

  /** By bucket, then by model. */
  predicate DimsLess(x: (string, string), y: (string, string)) {
    if x.0 == y.0 then SortedSets.LexLess(x.1, y.1) else SortedSets.LexLess(x.0, y.0)
  }

  ghost predicate Ordered<K(!new)>(less: (K, K) -> bool) {
    && (forall x, y :: x == y || less(x, y) || less(y, x))
    && (forall x, y, z :: less(x, y) && less(y, z) ==> less(x, z))
  }

  ghost predicate Ascending<K(!new)>(rows: seq<(K, Sums)>, less: (K, K) -> bool) {
    forall i, j :: 0 <= i < j < |rows| ==> less(rows[i].0, rows[j].0)
  }

  /** The rows of a table, each once, in ascending order. */
  ghost predicate Listing<K(!new)>(rows: seq<(K, Sums)>, table: map<K, Sums>, less: (K, K) -> bool) {
    && Ascending(rows, less) && |rows| == |table|
    && (forall x :: x in rows <==> x.0 in table && table[x.0] == x.1)
  }

  lemma {:induction false} ModelsAreOrdered()
    ensures Ordered(SortedSets.LexLess)
  {
    forall x, y ensures x == y || SortedSets.LexLess(x, y) || SortedSets.LexLess(y, x) { SortedSets.LexTotal(x, y); }
    forall x, y, z | SortedSets.LexLess(x, y) && SortedSets.LexLess(y, z) ensures SortedSets.LexLess(x, z) {
      SortedSets.LexTransitive(x, y, z);
    }
  }

  lemma {:induction false} DimsAreOrdered()
    ensures Ordered(DimsLess)
  {
    hide SortedSets.LexLess;
    forall x, y ensures x == y || DimsLess(x, y) || DimsLess(y, x) {
      SortedSets.LexTotal(x.0, y.0);
      SortedSets.LexTotal(x.1, y.1);
    }
    forall x, y, z | DimsLess(x, y) && DimsLess(y, z) ensures DimsLess(x, z) { DimsTransitive(x, y, z); }
  }

  lemma {:induction false} DimsTransitive(x: (string, string), y: (string, string), z: (string, string))
    requires DimsLess(x, y) && DimsLess(y, z)
    ensures DimsLess(x, z)
  {
    hide SortedSets.LexLess;
    if x.0 == z.0 {
      if x.0 == y.0 { SortedSets.LexTransitive(x.1, y.1, z.1); } else { SortedSets.LexAsymmetric(x.0, y.0); }
    } else if x.0 != y.0 && y.0 != z.0 {
      SortedSets.LexTransitive(x.0, y.0, z.0);
    }
  }

  function InsertRow<K(!new)>(rows: seq<(K, Sums)>, row: (K, Sums), less: (K, K) -> bool): seq<(K, Sums)> {
    if rows == [] || less(row.0, rows[0].0) then [row] + rows else [rows[0]] + InsertRow(rows[1..], row, less)
  }

  lemma {:induction false} InsertKeepsAscending<K(!new)>(rows: seq<(K, Sums)>, row: (K, Sums), less: (K, K) -> bool)
    requires Ordered(less) && Ascending(rows, less) && forall x :: x in rows ==> x.0 != row.0
    ensures Ascending(InsertRow(rows, row, less), less) && |InsertRow(rows, row, less)| == |rows| + 1
    ensures forall x :: x in InsertRow(rows, row, less) <==> x == row || x in rows
  {
    if rows == [] {
    } else if less(row.0, rows[0].0) {
      assert forall j :: 1 <= j < |rows| ==> less(rows[0].0, rows[j].0);
    } else {
      assert rows[0] in rows && less(rows[0].0, row.0);
      InsertKeepsAscending(rows[1..], row, less);
      var rest := InsertRow(rows[1..], row, less);
      forall j | 0 <= j < |rest| ensures less(rows[0].0, rest[j].0) { assert rest[j] in rest; }
    }
  }

  method SortRows<K(!new, ==)>(table: map<K, Sums>, less: (K, K) -> bool) returns (rows: seq<(K, Sums)>)
    requires Ordered(less)
    ensures Listing(rows, table, less)
  {
    hide Ordered;
    rows := [];
    var left := table.Keys;
    while left != {}
      invariant left <= table.Keys && Ascending(rows, less) && |rows| == |table| - |left|
      invariant forall x :: x in rows <==> x.0 in table.Keys - left && table[x.0] == x.1
      decreases |left|
    {
      var k :| k in left;
      InsertKeepsAscending(rows, (k, table[k]), less);
      rows := InsertRow(rows, (k, table[k]), less);
      left := left - {k};
    }
  }

  // ---------------------------------------------------------------- the joined grouping key

  function JoinedOf(bucketOf: int -> string): Event -> string {
    (e: Event) => GroupKey(bucketOf(e.occurredAt), e.model)
  }

  predicate Splittable(key: string) {
    var (b, m) := SplitKey(key); NUL !in b && GroupKey(b, m) == key
  }

  method GroupUsage(es: seq<Event>, bucketOf: int -> string) returns (groups: map<string, Sums>)
    ensures Grouped(groups, es, JoinedOf(bucketOf))
  {
    hide GroupKey, SumIn;
    groups := map[];
    var i := 0;
    while i < |es|
      invariant 0 <= i <= |es| && Grouped(groups, es[..i], JoinedOf(bucketOf))
    {
      var e := es[i];
      var key := GroupKey(bucketOf(e.occurredAt), e.model);
      GroupOneMore(groups, es[..i], e, JoinedOf(bucketOf));
      assert es[..i + 1] == es[..i] + [e];
      if key !in groups { groups := groups[key := NO_SUMS]; }
      groups := groups[key := Plus(groups[key], Of(e))];
      i := i + 1;
    }
    assert es[..i] == es;
  }

  method SplitRows(groups: map<string, Sums>) returns (rows: map<(string, string), Sums>)
    requires forall key :: key in groups ==> Splittable(key)
    ensures forall d :: d in rows <==> GroupKey(d.0, d.1) in groups && NUL !in d.0
    ensures forall d :: d in rows ==> rows[d] == groups[GroupKey(d.0, d.1)]
  {
    hide GroupKey, SplitKey;
    rows := map[];
    var left := groups.Keys;
    while left != {}
      invariant left <= groups.Keys
      invariant forall d :: d in rows <==> GroupKey(d.0, d.1) in groups.Keys - left && NUL !in d.0
      invariant forall d :: d in rows ==> rows[d] == groups[GroupKey(d.0, d.1)]
      decreases |left|
    {
      var key :| key in left;
      left := left - {key};
      var d := SplitKey(key);
      forall x: (string, string) | GroupKey(x.0, x.1) == key && NUL !in x.0 ensures x == d { GroupKeySplits(x.0, x.1); }
      rows := rows[d := groups[key]];
    }
  }

  lemma {:induction false} SplitGroups(rows: map<(string, string), Sums>, groups: map<string, Sums>, es: seq<Event>,
                                       bucketOf: int -> string, joined: Event -> string)
    requires forall t :: NUL !in bucketOf(t)
    requires forall e :: joined(e) == GroupKey(bucketOf(e.occurredAt), e.model)
    requires Grouped(groups, es, joined)
    requires forall d :: d in rows <==> GroupKey(d.0, d.1) in groups && NUL !in d.0
    requires forall d :: d in rows ==> rows[d] == groups[GroupKey(d.0, d.1)]
    ensures Grouped(rows, es, DimsOf(bucketOf))
  {
    hide GroupKey, SumIn;
    var dims := DimsOf(bucketOf);
    forall d ensures d in rows <==> exists i :: 0 <= i < |es| && dims(es[i]) == d {
      if d in rows {
        var i :| 0 <= i < |es| && joined(es[i]) == GroupKey(d.0, d.1);
        GroupKeysEqual(d.0, d.1, bucketOf(es[i].occurredAt), es[i].model);
        assert dims(es[i]) == d;
      }
      if i :| 0 <= i < |es| && dims(es[i]) == d {
        assert joined(es[i]) == GroupKey(d.0, d.1);
      }
    }
    forall d | d in rows ensures rows[d] == SumIn(es, dims, {d}) {
      forall i | 0 <= i < |es| ensures joined(es[i]) in {GroupKey(d.0, d.1)} <==> dims(es[i]) in {d} {
        GroupKeysEqual(d.0, d.1, bucketOf(es[i].occurredAt), es[i].model);
      }
      SameClasses(es, joined, {GroupKey(d.0, d.1)}, dims, {d});
    }
  }

  lemma {:induction false} GroupKeysEqual(b: string, m: string, c: string, n: string)
    requires NUL !in b && NUL !in c
    ensures GroupKey(b, m) == GroupKey(c, n) <==> b == c && m == n
  {
    GroupKeySplits(b, m);
    GroupKeySplits(c, n);
  }

  // ---------------------------------------------------------------- what the rows say

  /** The events of one class. */
  function InClass<K(==)>(es: seq<Event>, class_: Event -> K, k: K): seq<Event> {
    if es == [] then [] else
      var last := es[|es| - 1];
      InClass(es[..|es| - 1], class_, k) + (if class_(last) == k then [last] else [])
  }

  function Inputs(es: seq<Event>): int { if es == [] then 0 else Inputs(es[..|es| - 1]) + es[|es| - 1].input }

  function Outputs(es: seq<Event>): int { if es == [] then 0 else Outputs(es[..|es| - 1]) + es[|es| - 1].output }

  function Cached(es: seq<Event>): int { if es == [] then 0 else Cached(es[..|es| - 1]) + es[|es| - 1].cached }

  /** Reported totals, with input plus output for events that report none. */
  function Totals(es: seq<Event>): int {
    if es == [] then 0 else
      var e := es[|es| - 1];
      Totals(es[..|es| - 1]) + (if e.total <= 0 then e.input + e.output else e.total)
  }

  /** A row holds, field by field, the sums over some events. */
  predicate Sums6(row: Sums, es: seq<Event>) {
    && row.input == Inputs(es) && row.output == Outputs(es) && row.cached == Cached(es)
    && row.total == Totals(es) && row.amount == SumAmounts(es) && row.count == |es|
  }

  lemma {:induction false} ClassSums<K>(es: seq<Event>, class_: Event -> K, k: K)
    ensures Sums6(SumIn(es, class_, {k}), InClass(es, class_, k))
  {
    if es != [] {
      var n := |es| - 1;
      ClassSums(es[..n], class_, k);
      var c := InClass(es, class_, k);
      if class_(es[n]) == k {
        assert c[..|c| - 1] == InClass(es[..n], class_, k) && c[|c| - 1] == es[n];
      } else {
        assert c == InClass(es[..n], class_, k);
      }
    }
  }

  lemma {:induction false} RowMeaning<K(!new)>(es: seq<Event>, class_: Event -> K, rows: seq<(K, Sums)>,
                                               less: (K, K) -> bool, x: (K, Sums))
    requires Listing(rows, TableOf(es, class_), less) && x in rows
    ensures Sums6(x.1, InClass(es, class_, x.0)) && InClass(es, class_, x.0) != []
  {
    hide SumIn, Ascending;
    ClassSums(es, class_, x.0);
    var i :| 0 <= i < |es| && class_(es[i]) == x.0;
    ClassHas(es, class_, i);
  }

  lemma {:induction false} ClassHas<K>(es: seq<Event>, class_: Event -> K, i: nat)
    requires i < |es|
    ensures es[i] in InClass(es, class_, class_(es[i]))
  {
    if i < |es| - 1 { ClassHas(es[..|es| - 1], class_, i); }
  }

  /** Each bill row holds, field by field, the sums over the events of its model. */
  lemma {:induction false} BillRowMeaning(es: seq<Event>, rows: seq<(string, Sums)>, x: (string, Sums))
    requires Listing(rows, TableOf(es, ModelOf()), SortedSets.LexLess) && x in rows
    ensures var c := InClass(es, (e: Event) => e.model, x.0);
            && x.1.input == Inputs(c) && x.1.output == Outputs(c) && x.1.cached == Cached(c)
            && x.1.total == Totals(c) && x.1.amount == SumAmounts(c) && x.1.count == |c| > 0
  {
    RowMeaning(es, ModelOf(), rows, SortedSets.LexLess, x);
    SameClass(es, ModelOf(), (e: Event) => e.model, x.0);
  }

  /** Each usage row holds, field by field, the sums over the events of its bucket and model. */
  lemma {:induction false} UsageRowMeaning(es: seq<Event>, bucketOf: int -> string,
                                           rows: seq<((string, string), Sums)>, x: ((string, string), Sums))
    requires Listing(rows, TableOf(es, DimsOf(bucketOf)), DimsLess) && x in rows
    ensures var c := InClass(es, (e: Event) => (bucketOf(e.occurredAt), e.model), x.0);
            && x.1.input == Inputs(c) && x.1.output == Outputs(c) && x.1.cached == Cached(c)
            && x.1.total == Totals(c) && x.1.amount == SumAmounts(c) && x.1.count == |c| > 0
  {
    RowMeaning(es, DimsOf(bucketOf), rows, DimsLess, x);
    SameClass(es, DimsOf(bucketOf), (e: Event) => (bucketOf(e.occurredAt), e.model), x.0);
  }

  lemma {:induction false} SameClass<K(!new)>(es: seq<Event>, f: Event -> K, g: Event -> K, k: K)
    requires forall e :: f(e) == g(e)
    ensures InClass(es, f, k) == InClass(es, g, k)
  {
    if es != [] { SameClass(es[..|es| - 1], f, g, k); }
  }

  // ---------------------------------------------------------------- conservation

  lemma {:induction false} SameClasses<J, K>(es: seq<Event>, f: Event -> J, js: set<J>, g: Event -> K, ks: set<K>)
    requires forall i :: 0 <= i < |es| ==> (f(es[i]) in js <==> g(es[i]) in ks)
    ensures SumIn(es, f, js) == SumIn(es, g, ks)
  {
    if es != [] { SameClasses(es[..|es| - 1], f, js, g, ks); }
  }

  lemma {:induction false} SplitOffClass<K>(es: seq<Event>, g: Event -> K, ks: set<K>, k: K)
    requires k in ks
    ensures SumIn(es, g, ks) == Plus(SumIn(es, g, {k}), SumIn(es, g, ks - {k}))
  {
    if es != [] { SplitOffClass(es[..|es| - 1], g, ks, k); }
  }

  /** The sum of some rows of a table. */
  ghost function SumRows<K>(rows: map<K, Sums>, ks: set<K>): Sums
    requires ks <= rows.Keys
  {
    if ks == {} then NO_SUMS else var k :| k in ks; Plus(rows[k], SumRows(rows, ks - {k}))
  }

  lemma {:induction false} RowsSumToClasses<K(!new)>(rows: map<K, Sums>, es: seq<Event>, g: Event -> K, ks: set<K>)
    requires Grouped(rows, es, g) && ks <= rows.Keys
    ensures SumRows(rows, ks) == SumIn(es, g, ks)
  {
    if ks == {} {
      NoClasses(es, g);
    } else {
      var k :| k in ks && SumRows(rows, ks) == Plus(rows[k], SumRows(rows, ks - {k}));
      RowsSumToClasses(rows, es, g, ks - {k});
      SplitOffClass(es, g, ks, k);
    }
  }

  lemma {:induction false} NoClasses<K>(es: seq<Event>, g: Event -> K)
    ensures SumIn(es, g, {}) == NO_SUMS
  {
    if es != [] { NoClasses(es[..|es| - 1], g); }
  }

  /** Usage rows of one model, summed over buckets, give that model's bill row. */
  lemma {:induction false} UsageSumsToBills(es: seq<Event>, bucketOf: int -> string, usage: map<(string, string), Sums>,
                         bills: map<string, Sums>, model: string)
    requires Grouped(usage, es, DimsOf(bucketOf)) && Grouped(bills, es, ModelOf()) && model in bills
    ensures SumRows(usage, set d | d in usage && d.1 == model) == bills[model]
  {
    var ks := set d | d in usage && d.1 == model;
    RowsSumToClasses(usage, es, DimsOf(bucketOf), ks);
    SameClasses(es, DimsOf(bucketOf), ks, ModelOf(), {model});
  }

  /** All six counters of all events. */
  function Everything(es: seq<Event>): Sums {
    if es == [] then NO_SUMS else Plus(Everything(es[..|es| - 1]), Of(es[|es| - 1]))
  }

  /** All bill rows sum to the events they were made from, in all six counters. */
  lemma {:induction false} BillsSumToEvents(es: seq<Event>, bills: map<string, Sums>)
    requires Grouped(bills, es, ModelOf())
    ensures SumRows(bills, bills.Keys) == Everything(es)
    ensures Everything(es).amount == SumAmounts(es) && Everything(es).count == |es|
  {
    RowsSumToClasses(bills, es, ModelOf(), bills.Keys);
    assert forall i :: 0 <= i < |es| ==> ModelOf()(es[i]) in bills.Keys;
    EverythingCounted(es, ModelOf(), bills.Keys);
  }

  lemma {:induction false} EverythingCounted<K>(es: seq<Event>, g: Event -> K, ks: set<K>)
    requires forall i :: 0 <= i < |es| ==> g(es[i]) in ks
    ensures SumIn(es, g, ks) == Everything(es)
    ensures Everything(es).amount == SumAmounts(es) && Everything(es).count == |es|
  {
    if es != [] { EverythingCounted(es[..|es| - 1], g, ks); }
  }

  /** The bill table of each of some keys. */
  ghost predicate BillsOf(bills: map<string, map<string, Sums>>, es: seq<Event>, keys: set<string>) {
    keys <= bills.Keys && forall k :: k in keys ==> Grouped(bills[k], Matching(es, k), ModelOf())
  }

  /** All rows of the bills of all `keys` together. */
  ghost function Billed(bills: map<string, map<string, Sums>>, keys: set<string>): Sums
    requires keys <= bills.Keys
  {
    if keys == {} then NO_SUMS else
      var k :| k in keys;
      Plus(SumRows(bills[k], bills[k].Keys), Billed(bills, keys - {k}))
  }

  lemma {:induction false} MatchingIsClass(es: seq<Event>, key: string)
    ensures Everything(Matching(es, key)) == SumIn(es, KeyIdOf(), {key})
  {
    if es != [] {
      var n := |es| - 1;
      MatchingIsClass(es[..n], key);
      var m := Matching(es, key);
      if es[n].accessKeyId == key {
        assert m[..|m| - 1] == Matching(es[..n], key);
      } else {
        assert m == Matching(es[..n], key);
      }
    }
  }

  /** The bills of several keys hold exactly the events of those keys. */
  lemma {:induction false} BilledIsEvents(es: seq<Event>, bills: map<string, map<string, Sums>>, keys: set<string>)
    requires BillsOf(bills, es, keys)
    ensures Billed(bills, keys) == SumIn(es, KeyIdOf(), keys)
  {
    hide Grouped, SumRows, Everything;
    if keys == {} {
      NoClasses(es, KeyIdOf());
    } else {
      var k :| k in keys && Billed(bills, keys) == Plus(SumRows(bills[k], bills[k].Keys), Billed(bills, keys - {k}));
      BillsSumToEvents(Matching(es, k), bills[k]);
      MatchingIsClass(es, k);
      BilledIsEvents(es, bills, keys - {k});
      SplitOffClass(es, KeyIdOf(), keys, k);
    }
  }

  /** End to end: the bill rows of all keys on an account plus its applied debits are its spent total. */
  lemma {:induction false} BillsAndDebitsAreSpent(ops: seq<Op>, a: string, keys: set<string>, lo: int, hi: int,
                                                  bills: map<string, map<string, Sums>>)
    requires forall i :: 0 <= i < |ops| ==> WellKeyed(ops[i])
    requires forall x :: x in IndexOf(Run(EMPTY, ops), a) ==> lo <= x.score <= hi
    requires var es := Fetch(Run(EMPTY, ops).events, Window(IndexOf(Run(EMPTY, ops), a), lo, hi));
             es.Some? ==>
               && BillsOf(bills, es.value, keys)
               && forall i :: 0 <= i < |es.value| ==> es.value[i].accessKeyId in keys
    requires keys <= bills.Keys
    ensures var es := Fetch(Run(EMPTY, ops).events, Window(IndexOf(Run(EMPTY, ops), a), lo, hi));
            && es.Some? && Billed(bills, keys) == Everything(es.value)
            && Total(Run(EMPTY, ops), a, Spent) == Billed(bills, keys).amount + Debits(ops, a)
  {
    hide Step, Ledger.Total, Text.KeyPart, Grouped;
    SpentIsEventsPlusDebits(ops, a, lo, hi);
    var es := Fetch(Run(EMPTY, ops).events, Window(IndexOf(Run(EMPTY, ops), a), lo, hi)).value;
    BilledIsEvents(es, bills, keys);
    EverythingCounted(es, KeyIdOf(), keys);
  }
}
