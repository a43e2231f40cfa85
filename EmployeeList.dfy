/** The employee list page (src/pages/employees/index.tsx): an outer join of
    the basic-info and details records on email or employee ID, and the page
    slice shown of the joined list. The two fetches are one outcome
    parameter. */
module EmployeeList {
  import opened Js
  import opened EmployeeTypes

  const ItemsPerPage: nat := 10
  const FetchFailed := "Failed to fetch employees"
  /** The em dash the page writes for a field it does not know. */
  const Dash := "\U{2014}"

  // ------------------------------------------------------------ matching

  /** The predicate of `detailsList.find`. */
  predicate DetailMatches(d: Details, b: BasicInfo)
  {
    d.email == b.email || d.employeeId == b.employeeId
  }

  /** The predicate of `mergedEmployees.some`. */
  predicate EntryMatches(e: Employee, d: Details)
  {
    e.email == d.email || e.employeeId == d.employeeId
  }

  /** The index `find` stops at: the first matching detail, or `|ds|`. */
  function FirstMatch(ds: seq<Details>, b: BasicInfo): (k: nat)
    ensures k <= |ds|
    ensures k < |ds| ==> DetailMatches(ds[k], b)
    ensures forall j :: 0 <= j < k ==> !DetailMatches(ds[j], b)
    decreases |ds|
  {
    if ds == [] then 0
    else if DetailMatches(ds[0], b) then 0
    else 1 + FirstMatch(ds[1..], b)
  }

  /** `{...basic, employmentType: d?.employmentType, ...}`. */
  function WithDetail(b: BasicInfo, d: Option<Details>): Employee
  {
    match d
    case None => Employee(b.fullName, b.email, b.department, b.role, b.employeeId, None, None, None, None)
    case Some(x) => Employee(b.fullName, b.email, b.department, b.role, b.employeeId,
                             Some(x.employmentType), Some(x.officeLocation), Some(x.notes), x.photo)
  }

  /** The detail, if any, that `find` returns for `b`. */
  function FindDetail(ds: seq<Details>, b: BasicInfo): Option<Details>
  {
    var k := FirstMatch(ds, b);
    if k < |ds| then Some(ds[k]) else None
  }

  /** `basicInfoList.map(...)`. */
  function MergeBasic(basics: seq<BasicInfo>, ds: seq<Details>): (m: seq<Employee>)
    ensures |m| == |basics|
    ensures forall i :: 0 <= i < |basics| ==> m[i] == WithDetail(basics[i], FindDetail(ds, basics[i]))
  {
    seq(|basics|, i requires 0 <= i < |basics| => WithDetail(basics[i], FindDetail(ds, basics[i])))
  }

  /** Each mapped entry keeps its basic fields and takes its detail fields
      from the first matching detail, or has none when nothing matches. */
  lemma MergeBasicEntry(basics: seq<BasicInfo>, ds: seq<Details>, i: nat)
    requires i < |basics|
    ensures var e, b := MergeBasic(basics, ds)[i], basics[i];
            e.fullName == b.fullName && e.email == b.email && e.department == b.department &&
            e.role == b.role && e.employeeId == b.employeeId
    ensures var e := MergeBasic(basics, ds)[i];
            (forall j :: 0 <= j < |ds| ==> !DetailMatches(ds[j], basics[i])) ==>
              e.employmentType == None && e.officeLocation == None && e.notes == None && e.photo == None
    ensures var e, k := MergeBasic(basics, ds)[i], FirstMatch(ds, basics[i]);
            k < |ds| ==>
              DetailMatches(ds[k], basics[i]) && (forall j :: 0 <= j < k ==> !DetailMatches(ds[j], basics[i])) &&
              e.employmentType == Some(ds[k].employmentType) && e.officeLocation == Some(ds[k].officeLocation) &&
              e.notes == Some(ds[k].notes) && e.photo == ds[k].photo
  {
  }

  // ------------------------------------------------- appending the rest

  function HasMatch(list: seq<Employee>, d: Details): bool
  {
    exists k :: 0 <= k < |list| && EntryMatches(list[k], d)
  }

  /** The entry pushed for a details record nothing matched. */
  function Placeholder(d: Details): Employee
  {
    Employee(Dash, d.email, Dash, Role.Ops.Text(), d.employeeId,
             Some(d.employmentType), Some(d.officeLocation), Some(d.notes), d.photo)
  }

  function Placeholders(ds: seq<Details>): (ps: seq<Employee>)
    ensures |ps| == |ds| && forall i :: 0 <= i < |ds| ==> ps[i] == Placeholder(ds[i])
  {
    seq(|ds|, i requires 0 <= i < |ds| => Placeholder(ds[i]))
  }

  /** One turn of the `forEach`: a placeholder is pushed exactly when no
      entry of the list so far matches the detail. */
  function AppendIfUnmatched(list: seq<Employee>, d: Details): (r: seq<Employee>)
    ensures list <= r && |r| <= |list| + 1
    ensures |r| == |list| + 1 <==> !HasMatch(list, d)
    ensures |r| == |list| + 1 ==> r[|list|] == Placeholder(d)
    ensures HasMatch(r, d)
  {
    if HasMatch(list, d) then list
    else
      var r := list + [Placeholder(d)];
      assert EntryMatches(r[|list|], d);
      r
  }

  /** The whole `forEach`, as a left fold over the details. */
  function AppendUnmatched(list: seq<Employee>, ds: seq<Details>): seq<Employee>
    decreases |ds|
  {
    if ds == [] then list else AppendUnmatched(AppendIfUnmatched(list, ds[0]), ds[1..])
  }

  /** The joined list `fetchEmployees` stores. */
  function Merge(basics: seq<BasicInfo>, ds: seq<Details>): seq<Employee>
  {
    AppendUnmatched(MergeBasic(basics, ds), ds)
  }

  lemma MatchKept(list: seq<Employee>, r: seq<Employee>, d: Details)
    requires list <= r && HasMatch(list, d)
    ensures HasMatch(r, d)
  {
    var k :| 0 <= k < |list| && EntryMatches(list[k], d);
    assert r[k] == list[k];
  }

  /** The fold keeps the list as a prefix, adds at most one entry per
      detail, adds only placeholders of those details, and leaves every
      detail matched by some entry. */
  lemma {:induction false} AppendUnmatchedProps(list: seq<Employee>, ds: seq<Details>)
    ensures var r := AppendUnmatched(list, ds);
            list <= r && |r| <= |list| + |ds| &&
            (forall k :: |list| <= k < |r| ==> r[k] in Placeholders(ds)) &&
            (forall i :: 0 <= i < |ds| ==> HasMatch(r, ds[i]))
    decreases |ds|
  {
    if ds != [] {
      var step := AppendIfUnmatched(list, ds[0]);
      var r := AppendUnmatched(list, ds);
      AppendUnmatchedProps(step, ds[1..]);
      assert r == AppendUnmatched(step, ds[1..]);
      forall k | |list| <= k < |r|
        ensures r[k] in Placeholders(ds)
      {
        if k < |step| {
          assert r[k] == Placeholder(ds[0]) == Placeholders(ds)[0];
        } else {
          var j :| 0 <= j < |ds[1..]| && r[k] == Placeholders(ds[1..])[j];
          assert r[k] == Placeholders(ds)[j + 1];
        }
      }
      forall i | 0 <= i < |ds|
        ensures HasMatch(r, ds[i])
      {
        if i == 0 {
          MatchKept(step, r, ds[0]);
        } else {
          assert ds[i] == ds[1..][i - 1];
        }
      }
    }
  }

  /** `fetchEmployees`' join: the `map`, then the `forEach` that pushes into
      the mapped list in place. */
  method MergeEmployees(basics: seq<BasicInfo>, ds: seq<Details>) returns (merged: seq<Employee>)
    ensures merged == Merge(basics, ds)
    ensures |basics| <= |merged| <= |basics| + |ds|
    ensures merged[..|basics|] == MergeBasic(basics, ds)
    ensures forall k :: |basics| <= k < |merged| ==> merged[k] in Placeholders(ds)
    ensures forall i :: 0 <= i < |ds| ==> HasMatch(merged, ds[i])
  {
    merged := MergeBasic(basics, ds);
    var i := 0;
    while i < |ds|
      invariant 0 <= i <= |ds|
      invariant AppendUnmatched(merged, ds[i..]) == Merge(basics, ds)
    {
      assert ds[i..][1..] == ds[i + 1..];
      if !HasMatch(merged, ds[i]) {
        merged := merged + [Placeholder(ds[i])];
      }
      i := i + 1;
    }
    assert ds[i..] == [];
    AppendUnmatchedProps(MergeBasic(basics, ds), ds);
  }

  /** A details record that recurs unmatched is appended once: the first
      placeholder already matches the second. */
  lemma RepeatedDetailAppendedOnce(basics: seq<BasicInfo>, d: Details)
    requires !HasMatch(MergeBasic(basics, [d, d]), d)
    ensures Merge(basics, [d, d]) == MergeBasic(basics, [d, d]) + [Placeholder(d)]
  {
    var m := MergeBasic(basics, [d, d]);
    var step := AppendIfUnmatched(m, d);
    assert [d, d][1..] == [d];
    assert AppendUnmatched(step, [d]) == AppendUnmatched(AppendIfUnmatched(step, d), []);
  }

  // --------------------------------------------------------------- paging

  /** `Math.ceil(n / pageSize)`. */
  function TotalPages(n: nat, pageSize: nat): (t: nat)
    requires pageSize > 0
    ensures t * pageSize >= n
    ensures (t - 1) * pageSize < n
  {
    (n + pageSize - 1) / pageSize
  }

  /** `employees.slice((currentPage - 1) * pageSize, ... + pageSize)`. */
  function PageSlice<T>(list: seq<T>, currentPage: int, pageSize: nat): (r: seq<T>)
    ensures |r| <= pageSize
  {
    var start := (currentPage - 1) * pageSize;
    var r := Slice(list, start, start + pageSize);
    assert |r| <= pageSize by {
      var lo, hi := SliceIndex(start, |list|), SliceIndex(start + pageSize, |list|);
      if lo < hi {
        assert start >= 0 || start + pageSize <= 0 || (lo == 0 && hi <= start + pageSize);
      }
    }
    r
  }

  function Min(a: int, b: int): int
  {
    if a <= b then a else b
  }

  lemma SliceOfWindow<T>(s: seq<T>, lo: int, hi: int)
    requires 0 <= lo <= hi
    ensures Min(lo, |s|) <= Min(hi, |s|) && Slice(s, lo, hi) == s[Min(lo, |s|)..Min(hi, |s|)]
  {
  }

  /** Page `p` (one-based) is the window from `(p-1)*pageSize` up to
      `p*pageSize`, both clipped to the list. */
  lemma PageSliceWindow<T>(list: seq<T>, p: int, pageSize: nat)
    requires p >= 1
    ensures var lo, hi := Min((p - 1) * pageSize, |list|), Min(p * pageSize, |list|);
            lo <= hi && PageSlice(list, p, pageSize) == list[lo..hi]
  {
    var start := (p - 1) * pageSize;
    PageBounds(p, pageSize);
    SliceOfWindow(list, start, start + pageSize);
    assert PageSlice(list, p, pageSize) == Slice(list, start, start + pageSize);
  }

  lemma PageBounds(p: int, pageSize: nat)
    requires p >= 1
    ensures 0 <= (p - 1) * pageSize && (p - 1) * pageSize + pageSize == p * pageSize
  {
  }

  /** Every entry of the list is on page `k / pageSize + 1`, at position
      `k % pageSize`, and that page exists. */
  lemma EntryOnItsPage<T>(list: seq<T>, pageSize: nat, k: nat)
    requires pageSize > 0 && k < |list|
    ensures var p := k / pageSize + 1;
            p <= TotalPages(|list|, pageSize) &&
            k % pageSize < |PageSlice(list, p, pageSize)| &&
            PageSlice(list, p, pageSize)[k % pageSize] == list[k]
  {
    var q, r := k / pageSize, k % pageSize;
    var p := q + 1;
    var t := TotalPages(|list|, pageSize);
    DivMod(k, pageSize);
    PageBounds(p, pageSize);
    PageOfEntry(q, r, t, pageSize, k, |list|);
    PageSliceWindow(list, p, pageSize);
  }

  lemma DivMod(k: nat, d: nat)
    requires d > 0
    ensures k == (k / d) * d + k % d && 0 <= k % d < d
  {
  }

  /** The arithmetic of `EntryOnItsPage`, on plain numbers. */
  lemma PageOfEntry(q: nat, r: nat, t: nat, d: nat, k: nat, n: nat)
    requires k == q * d + r && r < d && k < n && t * d >= n
    ensures q + 1 <= t && q * d <= k < q * d + d && Min(q * d, n) + r == k
  {
    LessFromMul(q, t, d);
  }

  lemma LessFromMul(a: int, b: int, c: nat)
    requires a * c < b * c
    ensures a < b
  {
    assert (b - a) * c > 0;
  }

  /** Pages past the last one, as a page-size change can leave the current
      page, are empty. */
  lemma PageBeyondLastIsEmpty<T>(list: seq<T>, p: int, pageSize: nat)
    requires pageSize > 0 && p > TotalPages(|list|, pageSize)
    ensures PageSlice(list, p, pageSize) == []
  {
    var t := TotalPages(|list|, pageSize);
    MulMono(t, p - 1, pageSize);
    PageBounds(p, pageSize);
    PageSliceWindow(list, p, pageSize);
  }
  /** The current page is kept across a page-size change, so a larger size
      can leave it past the last page. With 20 rows, page 2 holds rows 10 to
      19 at 10 rows a page; at 50 rows a page there is one page, and page 2
      shows nothing. */
  lemma LargerPageSizeStrandsPage<T>(list: seq<T>)
    requires |list| == 20
    ensures TotalPages(|list|, 10) == 2 && PageSlice(list, 2, 10) == list[10..]
    ensures TotalPages(|list|, 50) == 1 && PageSlice(list, 2, 50) == []
  {
    PageSliceWindow(list, 2, 10);
    PageBeyondLastIsEmpty(list, 2, 50);
  }


  /** Every page from 1 to the last holds at least one entry. */
  lemma PagesUpToLastNonEmpty<T>(list: seq<T>, p: int, pageSize: nat)
    requires pageSize > 0 && 1 <= p <= TotalPages(|list|, pageSize)
    ensures |PageSlice(list, p, pageSize)| > 0
  {
    var t := TotalPages(|list|, pageSize);
    MulMono(p - 1, t - 1, pageSize);
    PageBounds(p, pageSize);
    PageSliceWindow(list, p, pageSize);
  }

  lemma MulMono(a: int, b: int, c: nat)
    requires a <= b
    ensures a * c <= b * c
  {
    assert (b - a) * c >= 0;
  }

  // ------------------------------------------------------------ the page

  /** What a fetch delivers: both lists, or the value the rejected promise
      threw. */
  datatype FetchOutcome = Fetched(basics: seq<BasicInfo>, details: seq<Details>) | Failed(thrown: Thrown)

  class EmployeesPage {
    var employees: seq<Employee>
    var loading: bool
    var error: Option<string>
    var currentPage: int
    var pageSize: nat

    /** The state at mount: the fetch that the mount effect starts is a
        separate `FetchEmployees` call. */
    constructor ()
      ensures employees == [] && loading && error == None
      ensures currentPage == 1 && pageSize == ItemsPerPage
    {
      employees := [];
      loading := true;
      error := None;
      currentPage := 1;
      pageSize := ItemsPerPage;
    }

    /** `fetchEmployees`: on success the joined list replaces the old one;
        on failure the old list stays and the error is recorded. Loading is
        off afterwards either way. */
    method FetchEmployees(outcome: FetchOutcome)
      modifies this
      ensures !loading
      ensures outcome.Fetched? ==> employees == Merge(outcome.basics, outcome.details) && error == None
      ensures outcome.Failed? ==>
                employees == old(employees) && error == Some(MessageOf(outcome.thrown, FetchFailed))
      ensures currentPage == old(currentPage) && pageSize == old(pageSize)
    {
      loading := true;
      error := None;
      if outcome.Fetched? {
        var merged := MergeEmployees(outcome.basics, outcome.details);
        employees := merged;
      } else {
        error := Some(MessageOf(outcome.thrown, FetchFailed));
      }
      loading := false;
    }

    /** `onPageChange`. */
    method SetCurrentPage(page: int)
      modifies this
      ensures currentPage == page
      ensures employees == old(employees) && loading == old(loading) && error == old(error)
      ensures pageSize == old(pageSize)
    {
      currentPage := page;
    }

    /** `onPageSizeChange`: the current page is kept as it is. */
    method SetPageSize(size: nat)
      modifies this
      ensures pageSize == size
      ensures employees == old(employees) && loading == old(loading) && error == old(error)
      ensures currentPage == old(currentPage)
    {
      pageSize := size;
    }

    function PageCount(): (t: nat)
      reads this
      requires pageSize > 0
      ensures t * pageSize >= |employees|
    {
      TotalPages(|employees|, pageSize)
    }

    function Visible(): (rows: seq<Employee>)
      reads this
      ensures |rows| <= pageSize
    {
      PageSlice(employees, currentPage, pageSize)
    }
  }
}
