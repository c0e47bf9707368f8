// What the list shows (internal/ui/model.go, setPackages and substringFilter): the
// rows that pass the query, in the screen's order, narrowed by the query's text.

module ListingSpec {
  import opened Packages
  import opened Words
  import opened QuerySpec

  datatype SortOrder = NameAsc | SizeDesc | SizeAsc | NameDesc

  type Sizes = Option<map<string, int>>

  // Only formulae are measured.
  function KB(sizes: Sizes, p: Package): Option<int> {
    if sizes.Some? && p.kind == Formula && p.name in sizes.value then Some(sizes.value[p.name]) else None
  }

  function CompareInts(a: int, b: int): int {
    if a < b then -1 else if a > b then 1 else 0
  }

  function CompareStrings(a: string, b: string): int {
    if a == "" || b == "" then CompareInts(|a|, |b|)
    else if a[0] != b[0] then CompareInts(a[0] as int, b[0] as int)
    else CompareStrings(a[1..], b[1..])
  }

  predicate BySize(order: SortOrder) {
    order == SizeDesc || order == SizeAsc
  }

  // The comparator of each order; the source order and sizes not yet known leave
  // every row where it is.
  function Compare(order: SortOrder, sizes: Sizes, a: Package, b: Package): int {
    if order == NameDesc then CompareStrings(b.name, a.name)
    else if !BySize(order) || sizes.None? then 0
    else
      var aKB, bKB := KB(sizes, a), KB(sizes, b);
      if aKB.Some? != bKB.Some? then (if aKB.Some? then -1 else 1)
      else if order == SizeAsc then CompareInts(aKB.GetOr(0), bKB.GetOr(0))
      else CompareInts(bKB.GetOr(0), aKB.GetOr(0))
  }

  // `b` may stand directly after `a`.
  predicate InOrder(order: SortOrder, sizes: Sizes, a: Package, b: Package) {
    Compare(order, sizes, a, b) <= 0
  }

  function Insert(order: SortOrder, sizes: Sizes, rows: seq<Package>, x: Package): seq<Package> {
    if rows == [] || InOrder(order, sizes, rows[|rows| - 1], x) then rows + [x]
    else Insert(order, sizes, rows[..|rows| - 1], x) + [rows[|rows| - 1]]
  }

  // A stable sort: each row goes behind every earlier row it may follow.
  function StableSort(order: SortOrder, sizes: Sizes, rows: seq<Package>): seq<Package> {
    if rows == [] then []
    else Insert(order, sizes, StableSort(order, sizes, rows[..|rows| - 1]), rows[|rows| - 1])
  }

  function Filter(test: Package -> bool, rows: seq<Package>): seq<Package> {
    if rows == [] then []
    else Filter(test, rows[..|rows| - 1]) + if test(rows[|rows| - 1]) then [rows[|rows| - 1]] else []
  }

  predicate Visible(q: Query, p: Package) {
    (p.dependency ==> q.showDeps) && Matches(q.predicates, p)
  }

  // The items setPackages gives the list.
  function Items(query: string, order: SortOrder, sizes: Sizes, retained: seq<Package>): seq<Package> {
    StableSort(order, sizes, Filter(p => Visible(Parse(query), p), retained))
  }

  predicate OccursAt(s: string, part: string, i: nat) {
    i + |part| <= |s| && s[i..i + |part|] == part
  }

  predicate Contains(s: string, part: string) {
    exists i: nat :: i <= |s| && OccursAt(s, part, i)
  }

  // The text a row is searched by: its rendered words.
  function FilterValue(p: Package): string {
    p.name + " " + p.version + " " + if p.kind == Formula && p.dependency then "dep" else ""
  }

  predicate Found(term: string, target: string) {
    Contains(Lower(target), Lower(term))
  }

  // The rows on show: the items whose words contain the query's text.
  function Shown(query: string, order: SortOrder, sizes: Sizes, retained: seq<Package>): seq<Package> {
    Filter(p => Found(Parse(query).text, FilterValue(p)), Items(query, order, sizes, retained))
  }
}

module Listing {
  import opened Packages
  import opened Words
  import opened QuerySpec
  import opened ListingSpec
  import Q = Query

  // Rows are copied before they are sorted: the retained array is only read.
  method SetPackages(packages: array<Package>, query: string, order: SortOrder, sizes: Sizes)
    returns (items: seq<Package>, text: string)
    ensures items == Items(query, order, sizes, packages[..]) && text == Parse(query).text
  {
    var parsed := Q.ParseQuery(query);
    var visible: seq<Package> := [];
    for n := 0 to packages.Length
      invariant visible == Filter(p => Visible(parsed, p), packages[..n])
    {
      var p := packages[n];
      FilterNext(p => Visible(parsed, p), packages[..n], p);
      assert packages[..n] + [p] == packages[..n + 1];
      if p.dependency && !parsed.showDeps {
        continue;
      }
      var matches := Q.Match(parsed.predicates, p);
      if !matches {
        continue;
      }
      visible := visible + [p];
    }
    assert packages[..packages.Length] == packages[..];
    SameFilter(p => Visible(parsed, p), p => Visible(Parse(query), p), packages[..]);
    if order == NameDesc {
      items := StableSort(order, sizes, visible);
    } else if BySize(order) && sizes.Some? {
      items := StableSort(order, sizes, visible);
    } else {
      items := visible;
      SortOfEqual(order, sizes, visible);
    }
    text := parsed.text;
  }

  lemma FilterNext(test: Package -> bool, rows: seq<Package>, p: Package)
    ensures Filter(test, rows + [p]) == Filter(test, rows) + if test(p) then [p] else []
  {
    assert (rows + [p])[..|rows|] == rows;
  }

  lemma {:induction false} SameFilter(a: Package -> bool, b: Package -> bool, rows: seq<Package>)
    requires forall p :: a(p) == b(p)
    ensures Filter(a, rows) == Filter(b, rows)
  {
    if rows != [] {
      SameFilter(a, b, rows[..|rows| - 1]);
    }
  }

  lemma {:induction false} SortOfEqual(order: SortOrder, sizes: Sizes, rows: seq<Package>)
    requires forall a, b :: Compare(order, sizes, a, b) == 0
    ensures StableSort(order, sizes, rows) == rows
  {
    if rows != [] {
      SortOfEqual(order, sizes, rows[..|rows| - 1]);
      assert rows == rows[..|rows| - 1] + [rows[|rows| - 1]];
    }
  }

  // The positions of the targets that contain the term, in order.
  method SubstringFilter(term: string, targets: seq<string>) returns (matches: seq<nat>)
    ensures forall i, j :: 0 <= i < j < |matches| ==> matches[i] < matches[j]
    ensures forall i :: i in matches <==> 0 <= i < |targets| && Found(term, targets[i])
  {
    matches := [];
    for n := 0 to |targets|
      invariant forall i, j :: 0 <= i < j < |matches| ==> matches[i] < matches[j]
      invariant forall i :: i in matches <==> 0 <= i < n && Found(term, targets[i])
    {
      if Found(term, targets[n]) {
        assert forall i :: 0 <= i < |matches| ==> matches[i] in matches;
        matches := matches + [n];
      }
    }
  }
}

module ListingProperties {
  import opened Packages
  import opened Words
  import opened QuerySpec
  import opened ListingSpec
  import opened Listing
  import QP = QueryProperties

  // ---- the comparators ----

  lemma {:induction false} StringsAntisymmetric(a: string, b: string)
    ensures CompareStrings(a, b) == -CompareStrings(b, a)
  {
    if a != "" && b != "" {
      StringsAntisymmetric(a[1..], b[1..]);
    }
  }

  lemma {:induction false} StringsTransitive(a: string, b: string, c: string)
    requires CompareStrings(a, b) <= 0 && CompareStrings(b, c) <= 0
    ensures CompareStrings(a, c) <= 0
  {
    if a != "" && b != "" && c != "" && a[0] == b[0] == c[0] {
      StringsTransitive(a[1..], b[1..], c[1..]);
    }
  }

  // Every order is a total preorder.
  lemma OrderTotal(order: SortOrder, sizes: Sizes, a: Package, b: Package)
    ensures InOrder(order, sizes, a, b) || InOrder(order, sizes, b, a)
    ensures Compare(order, sizes, a, b) == -Compare(order, sizes, b, a)
  {
    StringsAntisymmetric(a.name, b.name);
  }

  lemma OrderTransitive(order: SortOrder, sizes: Sizes, a: Package, b: Package, c: Package)
    requires InOrder(order, sizes, a, b) && InOrder(order, sizes, b, c)
    ensures InOrder(order, sizes, a, c)
  {
    if order == NameDesc {
      StringsTransitive(c.name, b.name, a.name);
    }
  }

  // `a` comes before `b` in the order of their characters: it is a proper prefix, or
  // smaller at the first difference.
  ghost predicate Before(a: string, b: string) {
    exists n: nat :: BeforeAt(a, b, n)
  }

  predicate BeforeAt(a: string, b: string, n: nat) {
    && n <= |a| && n <= |b| && a[..n] == b[..n]
    && (if n < |a| && n < |b| then a[n] < b[n] else n == |a| && n < |b|)
  }

  lemma {:induction false} ComparesBefore(a: string, b: string) returns (n: nat)
    requires CompareStrings(a, b) < 0
    ensures BeforeAt(a, b, n)
  {
    n := 0;
    if a != "" && a[0] == b[0] {
      var m := ComparesBefore(a[1..], b[1..]);
      n := m + 1;
      assert a[..n] == [a[0]] + a[1..][..m] && b[..n] == [b[0]] + b[1..][..m];
    }
  }

  lemma {:induction false} BeforeCompares(a: string, b: string, n: nat)
    requires BeforeAt(a, b, n)
    ensures CompareStrings(a, b) < 0
    decreases n
  {
    if n > 0 {
      assert a[0] == a[..n][0] && b[0] == b[..n][0];
      assert a[1..][..n - 1] == a[..n][1..] && b[1..][..n - 1] == b[..n][1..];
      BeforeCompares(a[1..], b[1..], n - 1);
    }
  }

  // What each order puts first: the larger of two measured rows, or the smaller; the
  // later name; and in the order of the source neither.
  lemma OrdersMean(sizes: Sizes, a: Package, b: Package)
    ensures Compare(NameDesc, sizes, a, b) < 0 <==> Before(b.name, a.name)
    ensures Compare(NameAsc, sizes, a, b) == 0
    ensures Measured(sizes, a) && Measured(sizes, b) ==>
              var x, y := sizes.value[a.name], sizes.value[b.name];
              && (Compare(SizeDesc, sizes, a, b) < 0 <==> x > y)
              && (Compare(SizeAsc, sizes, a, b) < 0 <==> x < y)
    ensures sizes.Some? && Measured(sizes, a) && !Measured(sizes, b) ==>
              Compare(SizeDesc, sizes, a, b) < 0 && Compare(SizeAsc, sizes, a, b) < 0
    ensures sizes.None? || (!Measured(sizes, a) && !Measured(sizes, b)) ==>
              Compare(SizeDesc, sizes, a, b) == Compare(SizeAsc, sizes, a, b) == 0
  {
    if CompareStrings(b.name, a.name) < 0 {
      var n := ComparesBefore(b.name, a.name);
    }
    if n: nat :| BeforeAt(b.name, a.name, n) {
      BeforeCompares(b.name, a.name, n);
    }
  }

  // Only formulae are measured, and only those whose size came.
  predicate Measured(sizes: Sizes, p: Package) {
    sizes.Some? && p.kind == Formula && p.name in sizes.value
  }

  // Unmeasured rows come last in both size orders.
  lemma UnmeasuredLast(order: SortOrder, sizes: Sizes, a: Package, b: Package)
    requires BySize(order) && KB(sizes, a).Some? && KB(sizes, b).None?
    ensures Compare(order, sizes, a, b) < 0 < Compare(order, sizes, b, a)
  {
  }

  // ---- the sort ----

  ghost predicate Sorted(order: SortOrder, sizes: Sizes, rows: seq<Package>) {
    forall i, j :: 0 <= i < j < |rows| ==> InOrder(order, sizes, rows[i], rows[j])
  }

  // A sorted front and a last row that every row of it may precede.
  lemma SortedAppend(order: SortOrder, sizes: Sizes, front: seq<Package>, x: Package)
    requires Sorted(order, sizes, front)
    requires forall p :: p in front ==> InOrder(order, sizes, p, x)
    ensures Sorted(order, sizes, front + [x])
  {
    assert forall i :: 0 <= i < |front| ==> front[i] in front;
  }

  lemma BelowLast(order: SortOrder, sizes: Sizes, rows: seq<Package>, x: Package)
    requires Sorted(order, sizes, rows) && rows != [] && InOrder(order, sizes, rows[|rows| - 1], x)
    ensures forall p :: p in rows ==> InOrder(order, sizes, p, x)
  {
    forall p | p in rows
      ensures InOrder(order, sizes, p, x)
    {
      var i :| 0 <= i < |rows| && rows[i] == p;
      if i < |rows| - 1 { OrderTransitive(order, sizes, p, rows[|rows| - 1], x); }
    }
  }

  lemma {:induction false} InsertMembers(order: SortOrder, sizes: Sizes, rows: seq<Package>, x: Package)
    ensures multiset(Insert(order, sizes, rows, x)) == multiset(rows) + multiset{x}
    ensures forall p :: p in Insert(order, sizes, rows, x) <==> p in rows || p == x
  {
    if rows != [] {
      var front, last := rows[..|rows| - 1], rows[|rows| - 1];
      assert rows == front + [last];
      InsertMembers(order, sizes, front, x);
    }
  }

  lemma {:induction false} InsertSorted(order: SortOrder, sizes: Sizes, rows: seq<Package>, x: Package)
    requires Sorted(order, sizes, rows)
    ensures Sorted(order, sizes, Insert(order, sizes, rows, x))
  {
    if rows == [] {
    } else if InOrder(order, sizes, rows[|rows| - 1], x) {
      BelowLast(order, sizes, rows, x);
      SortedAppend(order, sizes, rows, x);
    } else {
      var front, last := rows[..|rows| - 1], rows[|rows| - 1];
      InsertSorted(order, sizes, front, x);
      InsertMembers(order, sizes, front, x);
      OrderTotal(order, sizes, last, x);
      SortedAppend(order, sizes, Insert(order, sizes, front, x), last);
    }
  }

  // The sort orders the rows and neither loses nor adds any.
  lemma {:induction false} SortSorts(order: SortOrder, sizes: Sizes, rows: seq<Package>)
    ensures
      var sorted := StableSort(order, sizes, rows);
      Sorted(order, sizes, sorted) && multiset(sorted) == multiset(rows)
  {
    if rows != [] {
      var front, last := rows[..|rows| - 1], rows[|rows| - 1];
      assert rows == front + [last];
      SortSorts(order, sizes, front);
      InsertSorted(order, sizes, StableSort(order, sizes, front), last);
      InsertMembers(order, sizes, StableSort(order, sizes, front), last);
    }
  }

  lemma {:induction false} FilterMembers(test: Package -> bool, rows: seq<Package>)
    ensures forall p :: p in Filter(test, rows) <==> p in rows && test(p)
  {
    if rows != [] {
      FilterMembers(test, rows[..|rows| - 1]);
      assert rows == rows[..|rows| - 1] + [rows[|rows| - 1]];
    }
  }

  // A row that goes to the end of the rows goes to the end of any of them.
  lemma InsertAtEnd(order: SortOrder, sizes: Sizes, rows: seq<Package>, x: Package)
    requires forall p :: p in rows ==> InOrder(order, sizes, p, x)
    ensures Insert(order, sizes, rows, x) == rows + [x]
  {
    assert rows != [] ==> rows[|rows| - 1] in rows;
  }

  lemma InsertBefore(order: SortOrder, sizes: Sizes, front: seq<Package>, last: Package, x: Package)
    requires !InOrder(order, sizes, last, x)
    ensures Insert(order, sizes, front + [last], x) == Insert(order, sizes, front, x) + [last]
  {
    assert (front + [last])[..|front|] == front;
  }

  lemma {:induction false} FilterInsert(order: SortOrder, sizes: Sizes, test: Package -> bool, rows: seq<Package>, x: Package)
    requires Sorted(order, sizes, rows)
    ensures
      Filter(test, Insert(order, sizes, rows, x))
      == if test(x) then Insert(order, sizes, Filter(test, rows), x) else Filter(test, rows)
  {
    if rows == [] || InOrder(order, sizes, rows[|rows| - 1], x) {
      if rows != [] { BelowLast(order, sizes, rows, x); }
      FilterNext(test, rows, x);
      FilterMembers(test, rows);
      InsertAtEnd(order, sizes, Filter(test, rows), x);
      assert Filter(test, rows) + [] == Filter(test, rows);
    } else {
      var front, last := rows[..|rows| - 1], rows[|rows| - 1];
      FilterInsert(order, sizes, test, front, x);
      FilterInsertBefore(order, sizes, test, front, last, x);
      assert front + [last] == rows;
    }
  }

  lemma FilterInsertBefore(order: SortOrder, sizes: Sizes, test: Package -> bool, front: seq<Package>, last: Package, x: Package)
    requires !InOrder(order, sizes, last, x)
    requires
      Filter(test, Insert(order, sizes, front, x))
      == if test(x) then Insert(order, sizes, Filter(test, front), x) else Filter(test, front)
    ensures
      Filter(test, Insert(order, sizes, front + [last], x))
      == if test(x) then Insert(order, sizes, Filter(test, front + [last]), x) else Filter(test, front + [last])
  {
    var kept, inserted := Filter(test, front), Insert(order, sizes, front, x);
    InsertBefore(order, sizes, front, last, x);
    FilterNext(test, inserted, last);
    FilterNext(test, front, last);
    if test(last) {
      InsertBefore(order, sizes, kept, last, x);
    } else {
      assert kept + [] == kept && Filter(test, inserted) + [] == Filter(test, inserted);
    }
  }

  lemma SortNext(order: SortOrder, sizes: Sizes, front: seq<Package>, last: Package)
    ensures StableSort(order, sizes, front + [last]) == Insert(order, sizes, StableSort(order, sizes, front), last)
  {
    assert (front + [last])[..|front|] == front;
  }

  // Filtering commutes with the stable sort.
  lemma {:induction false} FilterCommutes(order: SortOrder, sizes: Sizes, test: Package -> bool, rows: seq<Package>)
    ensures Filter(test, StableSort(order, sizes, rows)) == StableSort(order, sizes, Filter(test, rows))
  {
    if rows != [] {
      var front, last := rows[..|rows| - 1], rows[|rows| - 1];
      assert rows == front + [last];
      FilterCommutes(order, sizes, test, front);
      SortSorts(order, sizes, front);
      FilterInsert(order, sizes, test, StableSort(order, sizes, front), last);
      SortNext(order, sizes, front, last);
      SortNext(order, sizes, Filter(test, front), last);
      FilterNext(test, front, last);
      assert Filter(test, front) + [] == Filter(test, front);
    }
  }

  // Stability: the rows that rank with any one row keep their order.
  lemma SortStable(order: SortOrder, sizes: Sizes, rows: seq<Package>, x: Package)
    ensures
      var ranked := (p: Package) => Compare(order, sizes, p, x) == 0;
      Filter(ranked, StableSort(order, sizes, rows)) == Filter(ranked, rows)
  {
    var ranked := (p: Package) => Compare(order, sizes, p, x) == 0;
    FilterCommutes(order, sizes, ranked, rows);
    var tied := Filter(ranked, rows);
    FilterMembers(ranked, rows);
    forall a, b | a in tied && b in tied
      ensures InOrder(order, sizes, a, b)
    {
      OrderTotal(order, sizes, b, x);
      OrderTransitive(order, sizes, a, x, b);
    }
    SortOfTied(order, sizes, tied);
  }

  lemma {:induction false} SortOfTied(order: SortOrder, sizes: Sizes, rows: seq<Package>)
    requires forall a, b :: a in rows && b in rows ==> InOrder(order, sizes, a, b)
    ensures StableSort(order, sizes, rows) == rows
  {
    if rows != [] {
      var front, last := rows[..|rows| - 1], rows[|rows| - 1];
      assert rows == front + [last];
      SortOfTied(order, sizes, front);
    }
  }

  // ---- what is shown ----

  lemma {:induction false} FilterTwice(a: Package -> bool, b: Package -> bool, rows: seq<Package>)
    ensures Filter(a, Filter(b, rows)) == Filter(p => a(p) && b(p), rows)
  {
    if rows != [] {
      var front, last := rows[..|rows| - 1], rows[|rows| - 1];
      assert rows == front + [last];
      FilterTwice(a, b, front);
      FilterNext(a, Filter(b, front), last);
      FilterNext(b, front, last);
      FilterNext(p => a(p) && b(p), front, last);
      assert Filter(b, front) + [] == Filter(b, front) && Filter(a, Filter(b, front)) + [] == Filter(a, Filter(b, front));
    }
  }

  predicate Passes(query: string, p: Package) {
    Visible(Parse(query), p) && Found(Parse(query).text, FilterValue(p))
  }

  // The list shows the stable sort of the retained rows that pass every filter, the
  // text included, though the text is applied after the sort.
  lemma ShownIsSortedPassing(query: string, order: SortOrder, sizes: Sizes, retained: seq<Package>)
    ensures Shown(query, order, sizes, retained) == StableSort(order, sizes, Filter(p => Passes(query, p), retained))
  {
    var visible := (p: Package) => Visible(Parse(query), p);
    var found := (p: Package) => Found(Parse(query).text, FilterValue(p));
    FilterCommutes(order, sizes, found, Filter(visible, retained));
    FilterTwice(found, visible, retained);
    SameFilter(p => found(p) && visible(p), p => Passes(query, p), retained);
  }

  lemma SortMembers(order: SortOrder, sizes: Sizes, rows: seq<Package>, p: Package)
    ensures p in StableSort(order, sizes, rows) <==> p in rows
  {
    SortSorts(order, sizes, rows);
    assert p in StableSort(order, sizes, rows) <==> p in multiset(StableSort(order, sizes, rows));
    assert p in rows <==> p in multiset(rows);
  }

  // So a row is on show exactly when it is retained and passes, as often as it is
  // retained, and the rows on show are in order.
  lemma ShownMeans(query: string, order: SortOrder, sizes: Sizes, retained: seq<Package>, p: Package)
    ensures Sorted(order, sizes, Shown(query, order, sizes, retained))
    ensures multiset(Shown(query, order, sizes, retained)) == multiset(Filter(r => Passes(query, r), retained))
    ensures p in Shown(query, order, sizes, retained) <==> p in retained && Passes(query, p)
  {
    var test := (r: Package) => Passes(query, r);
    var passing := Filter(test, retained);
    ShownIsSortedPassing(query, order, sizes, retained);
    SortSorts(order, sizes, passing);
    SortMembers(order, sizes, passing, p);
    FilterMembers(test, retained);
  }

  // ---- the filter key ----

  lemma MatchesFront(q: Qualifier, predicates: seq<Qualifier>, p: Package)
    ensures Matches([q] + predicates, p) <==> Holds(q, p) && Matches(predicates, p)
  {
    var more := [q] + predicates;
    assert more[0] == q;
    assert forall i :: 0 <= i < |predicates| ==> more[i + 1] == predicates[i];
  }

  lemma OutdatedKeyPasses(query: string, p: Package)
    requires Toggle(query, "is:outdated").1
    ensures Passes(Toggle(query, "is:outdated").0, p) <==> p.outdated && Passes(query, p)
  {
    QP.ToggleWords();
    QP.ToggleChangesOnlyItself(query, "is:outdated");
    MatchesFront(OutdatedOnly, Parse(query).predicates, p);
  }

  lemma Narrowed(query: string, next: string, narrow: Package -> bool, order: SortOrder, sizes: Sizes, retained: seq<Package>)
    requires forall p :: Passes(next, p) <==> narrow(p) && Passes(query, p)
    ensures Shown(next, order, sizes, retained) == Filter(narrow, Shown(query, order, sizes, retained))
  {
    var before := (p: Package) => Passes(query, p);
    ShownIsSortedPassing(query, order, sizes, retained);
    ShownIsSortedPassing(next, order, sizes, retained);
    FilterCommutes(order, sizes, narrow, Filter(before, retained));
    FilterTwice(narrow, before, retained);
    SameFilter(p => narrow(p) && before(p), p => Passes(next, p), retained);
  }

  // Turning is:outdated on keeps exactly the outdated rows of those on show, in place.
  lemma OutdatedKeyNarrows(query: string, order: SortOrder, sizes: Sizes, retained: seq<Package>)
    requires Toggle(query, "is:outdated").1
    ensures
      Shown(Toggle(query, "is:outdated").0, order, sizes, retained)
      == Filter((p: Package) => p.outdated, Shown(query, order, sizes, retained))
  {
    var next := Toggle(query, "is:outdated").0;
    forall p: Package
      ensures Passes(next, p) <==> p.outdated && Passes(query, p)
    {
      OutdatedKeyPasses(query, p);
    }
    Narrowed(query, next, (p: Package) => p.outdated, order, sizes, retained);
  }
}
