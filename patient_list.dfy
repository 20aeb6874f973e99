/**
  The patient list of src/components/PatientList.tsx: the search filter
  effect, the page arithmetic and the Previous/Next controls. The filter and
  the paging are functions on sequences; the component's state, which the
  effect and the button handlers update through their setters, is a class.
 */
module PatientList {
  import opened JsText
  import opened Records

  /** `patientsPerPage`. */
  const PageSize := 5

  /** `a` is `b` with some elements left out, the rest in their order. */
  predicate SubsequenceOf<T(==)>(a: seq<T>, b: seq<T>)
    decreases |b|
  {
    a == [] || (b != [] && ((a[0] == b[0] && SubsequenceOf(a[1..], b[1..])) || SubsequenceOf(a, b[1..])))
  }

  /** `` `${first_name} ${last_name}`.toLowerCase() ``: a missing name reads as "undefined". */
  function FullName(p: Row): string {
    Lower(JsString(Field(p, "first_name")) + " " + JsString(Field(p, "last_name")))
  }

  /** `email?.toLowerCase().includes(term.toLowerCase())`: a missing email never matches. */
  predicate EmailMatches(email: Value, term: string) {
    email.Str? && Contains(Lower(email.s), Lower(term))
  }

  /** `phone?.includes(term)`: the raw term, case and all. */
  predicate PhoneMatches(phone: Value, term: string) {
    phone.Str? && Contains(phone.s, term)
  }

  /** The filter callback: the name, the email or the phone contains the term. */
  predicate Matches(p: Row, term: string) {
    || Contains(FullName(p), Lower(term))
    || EmailMatches(Field(p, "email"), term)
    || PhoneMatches(Field(p, "phone"), term)
  }

  /**
    `patients.filter(...)`: every matching record is kept as often as it
    occurs, every other record is dropped, and the order is kept.
   */
  function Keep(ps: seq<Row>, term: string): (r: seq<Row>)
    ensures forall p :: multiset(r)[p] == if Matches(p, term) then multiset(ps)[p] else 0
    ensures SubsequenceOf(r, ps)
    decreases |ps|
  {
    if ps == [] then []
    else
      var rest := Keep(ps[1..], term);
      assert ps == [ps[0]] + ps[1..];
      if Matches(ps[0], term) then [ps[0]] + rest else rest
  }

  /** The list the filter effect computes from the full list and the search term. */
  function Filter(ps: seq<Row>, term: string): seq<Row> {
    if Trim(term) == "" then ps else Keep(ps, term)
  }

  /**
    A blank term (empty or white space only) shows every record; any other
    term keeps exactly the matching records, with their multiplicity and in
    their order. Either way the result is a subsequence of the full list.
   */
  lemma FilterSelectsMatches(ps: seq<Row>, term: string)
    ensures Trim(term) == "" ==> Filter(ps, term) == ps
    ensures Trim(term) != "" ==>
      forall p :: multiset(Filter(ps, term))[p] == if Matches(p, term) then multiset(ps)[p] else 0
    ensures SubsequenceOf(Filter(ps, term), ps)
  {
    if Trim(term) == "" {
      SubsequenceOfSelf(ps);
    }
  }

  /** Filtering an empty list gives the empty list, whatever the term. */
  lemma FilterEmpty(term: string)
    ensures Filter([], term) == []
  {
    assert Keep([], term) == [];
  }

  lemma {:induction false} SubsequenceOfSelf<T>(s: seq<T>)
    ensures SubsequenceOf(s, s)
    decreases |s|
  {
    if s != [] {
      SubsequenceOfSelf(s[1..]);
    }
  }

  /**
    The name and the email are compared without regard to case, the phone
    is not: two terms equal up to case select the same records unless a
    phone number contains one of them.
   */
  lemma CaseMattersOnlyForPhone(p: Row, t1: string, t2: string)
    requires Lower(t1) == Lower(t2)
    requires !PhoneMatches(Field(p, "phone"), t1) && !PhoneMatches(Field(p, "phone"), t2)
    ensures Matches(p, t1) <==> Matches(p, t2)
  {
  }

  /** `Math.ceil(n / patientsPerPage)`: the fewest pages of five that hold `n` records. */
  function TotalPages(n: nat): (t: nat)
    ensures n <= t * PageSize
    ensures t > 0 ==> (t - 1) * PageSize < n
  {
    (n + PageSize - 1) / PageSize
  }

  /** An index argument of `Array.prototype.slice`: negative counts from the end, then clamped to the length. */
  function SliceIndex(i: int, len: nat): (k: nat)
    ensures k <= len
    ensures 0 <= i <= len ==> k == i
    ensures i > len ==> k == len
    ensures i < 0 ==> k == if len + i < 0 then 0 else len + i
  {
    if i < 0 then (if len + i < 0 then 0 else len + i)
    else if i > len then len
    else i
  }

  /** `s.slice(start, end)`. */
  function Slice<T>(s: seq<T>, start: int, end: int): seq<T> {
    var b := SliceIndex(start, |s|);
    var e := SliceIndex(end, |s|);
    if b < e then s[b..e] else []
  }

  /** `filteredPatients.slice(indexOfFirstPatient, indexOfLastPatient)` on page `page`. */
  function PageOf(list: seq<Row>, page: int): seq<Row> {
    Slice(list, page * PageSize - PageSize, page * PageSize)
  }

  function Min(a: int, b: int): int {
    if a < b then a else b
  }

  /** Page `page` holds the records from `(page-1)*5` up to `page*5`, clipped to the list, so never more than five. */
  lemma PageBounds(list: seq<Row>, page: int)
    requires page >= 1
    ensures PageOf(list, page) == list[Min((page - 1) * PageSize, |list|)..Min(page * PageSize, |list|)]
    ensures |PageOf(list, page)| <= PageSize
  {
  }

  /** A page at or after the first is non-empty exactly when it is among the first `totalPages`. */
  lemma PageNonEmptyIffInRange(list: seq<Row>, page: int)
    requires page >= 1
    ensures PageOf(list, page) != [] <==> page <= TotalPages(|list|)
  {
    PageBounds(list, page);
    var t := TotalPages(|list|);
    if page <= t {
      assert (page - 1) * PageSize <= (t - 1) * PageSize;
    } else {
      assert (page - 1) * PageSize >= t * PageSize;
    }
  }

  /** Pages 1..k laid end to end. */
  function Pages(list: seq<Row>, k: nat): seq<Row> {
    if k == 0 then [] else Pages(list, k - 1) + PageOf(list, k)
  }

  lemma {:induction false} PagesArePrefix(list: seq<Row>, k: nat)
    ensures Pages(list, k) == list[..Min(k * PageSize, |list|)]
  {
    if k > 0 {
      PagesArePrefix(list, k - 1);
      PageBounds(list, k);
      assert (k - 1) * PageSize == k * PageSize - PageSize;
    }
  }

  /** Pages 1..totalPages, concatenated, are the filtered list itself: no record is skipped or shown twice. */
  lemma PagesConcatenate(list: seq<Row>)
    ensures Pages(list, TotalPages(|list|)) == list
  {
    PagesArePrefix(list, TotalPages(|list|));
  }

  /** `Math.max(prev - 1, 1)`. */
  function PreviousPage(p: int): int {
    if p - 1 > 1 then p - 1 else 1
  }

  /** `Math.min(prev + 1, totalPages)`. */
  function NextPage(p: int, total: int): int {
    if p + 1 < total then p + 1 else total
  }

  /** The paging controls are rendered only when there is more than one page. */
  predicate ControlsShown(total: int) {
    total > 1
  }

  /**
    From a page in `1..total`, Previous and Next stay in `1..total`, move by
    exactly one page when not at an end, and undo each other.
   */
  lemma PagingStaysInRange(p: int, total: int)
    requires 1 <= p <= total
    ensures 1 <= PreviousPage(p) <= total && 1 <= NextPage(p, total) <= total
    ensures p > 1 ==> PreviousPage(p) == p - 1 && NextPage(PreviousPage(p), total) == p
    ensures p < total ==> NextPage(p, total) == p + 1 && PreviousPage(NextPage(p, total)) == p
    ensures p == 1 ==> PreviousPage(p) == p
    ensures p == total ==> NextPage(p, total) == p
  {
  }

  /** The component state: the loaded list, the filtered list, the search term and the page. */
  class ListView {
    var patients: seq<Row>
    var filtered: seq<Row>
    var isLoading: bool
    var searchTerm: string
    var currentPage: int

    /**
      After every render: the filtered list is the filter of the full list by
      the current term, and the page is the first or one that has records.
     */
    ghost predicate Valid()
      reads this`patients, this`filtered, this`searchTerm, this`currentPage
    {
      && filtered == Filter(patients, searchTerm)
      && 1 <= currentPage
      && (currentPage == 1 || currentPage <= TotalPages(|filtered|))
    }

    /** The first render: nothing loaded yet, an empty term, page 1. */
    constructor ()
      ensures Valid()
      ensures patients == [] && filtered == [] && isLoading && searchTerm == "" && currentPage == 1
    {
      patients := [];
      filtered := [];
      isLoading := true;
      searchTerm := "";
      currentPage := 1;
      FilterEmpty("");
    }

    /** The rows shown: the current page of the filtered list. */
    function CurrentPatients(): (r: seq<Row>)
      reads this`patients, this`filtered, this`searchTerm, this`currentPage
      requires Valid()
      ensures |r| <= PageSize
      ensures filtered != [] ==> r != []
    {
      PageBounds(filtered, currentPage);
      PageNonEmptyIffInRange(filtered, currentPage);
      PageOf(filtered, currentPage)
    }

    /** The filter effect, which runs whenever the term or the full list changes. */
    method Refilter()
      modifies this`filtered, this`currentPage
      ensures Valid()
      ensures filtered == Filter(patients, searchTerm) && currentPage == 1
    {
      if Trim(searchTerm) == "" {
        filtered := patients;
      } else {
        filtered := Keep(patients, searchTerm);
      }
      currentPage := 1;
    }

    /** `setIsLoading(true)` at the start of `loadPatients`. */
    method BeginLoad()
      modifies this`isLoading
      ensures isLoading
    {
      isLoading := true;
    }

    /**
      The end of `loadPatients`, given what `getAllPatients` yielded. New rows
      replace the full list and, through the effect, are filtered by the term
      already typed, back on page 1; a failure keeps what was shown. Either
      way loading ends.
     */
    method LoadFinished(data: Result<seq<Row>>)
      requires Valid()
      modifies this
      ensures Valid() && !isLoading && searchTerm == old(searchTerm)
      ensures data.Success? ==> patients == data.value && filtered == Filter(data.value, searchTerm) && currentPage == 1
      ensures data.Failure? ==> patients == old(patients) && filtered == old(filtered) && currentPage == old(currentPage)
    {
      isLoading := false;
      if data.Success? {
        patients := data.value;
        filtered := data.value;
        Refilter();
      }
    }

    /**
      Typing in the search box. A new term refilters and returns to page 1;
      setting the same term again changes no state, so the effect does not
      run and the page stays.
     */
    method SearchChanged(term: string)
      requires Valid()
      modifies this`searchTerm, this`filtered, this`currentPage
      ensures Valid() && searchTerm == term && filtered == Filter(patients, term)
      ensures currentPage == if term == old(searchTerm) then old(currentPage) else 1
    {
      if term == searchTerm {
        return;
      }
      searchTerm := term;
      Refilter();
    }

    /** The Previous button: rendered only once loading is over and with more than one page, disabled on page 1. */
    method ClickPrevious()
      requires Valid()
      modifies this`currentPage
      ensures Valid()
      ensures var total := TotalPages(|filtered|);
        currentPage == if ControlsShown(total) && !isLoading && old(currentPage) != 1 then PreviousPage(old(currentPage)) else old(currentPage)
    {
      var total := TotalPages(|filtered|);
      if ControlsShown(total) && !isLoading && currentPage != 1 {
        currentPage := PreviousPage(currentPage);
      }
    }

    /** The Next button: rendered only once loading is over and with more than one page, disabled on the last. */
    method ClickNext()
      requires Valid()
      modifies this`currentPage
      ensures Valid()
      ensures var total := TotalPages(|filtered|);
        currentPage == if ControlsShown(total) && !isLoading && old(currentPage) != total then NextPage(old(currentPage), total) else old(currentPage)
    {
      var total := TotalPages(|filtered|);
      if ControlsShown(total) && !isLoading && currentPage != total {
        currentPage := NextPage(currentPage, total);
      }
    }
  }
}
