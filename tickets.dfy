/**
 * The ticket endpoints of backend/app/routers/tickets.py: the list query
 * (filter, sort, paginate), the lookup by id, and the dashboard statistics.
 * The ticket store is the sequence of tickets built at start-up; no handler
 * changes it, so every operation takes it as a value.
 */
module Tickets {
  import opened Wrappers
  import opened Models
  import opened TicketSort

  const DefaultSortBy: string := "createdAt"
  const DefaultSortOrder: string := "desc"
  const DefaultPage: int := 1
  const DefaultPageSize: int := 20
  const MaxPageSize: int := 100

  /**
   * The query parameters of the list endpoint, once the framework has put in
   * the defaults of absent parameters.
   */
  datatype ListQuery = ListQuery(
    status: Option<string>,
    priority: Option<string>,
    compliance: Option<string>,
    assignee: Option<string>,
    sortBy: string,
    sortOrder: string,
    page: int,
    pageSize: int)

  /** The bounds the framework enforces on the paging parameters. */
  predicate ValidPaging(q: ListQuery)
  {
    q.page >= 1 && 1 <= q.pageSize <= MaxPageSize
  }

  // ---------------------------------------------------------------------
  // Filtering
  // ---------------------------------------------------------------------

  /** The four ticket fields the list can be filtered on (and the statistics count by). */
  datatype Dimension = StatusDim | PriorityDim | ComplianceDim | AssigneeDim

  /** The value a filter is compared with: the wire spelling of the field. */
  function FieldValue(t: ChangeTicket, d: Dimension): string
  {
    match d
    case StatusDim => StatusName(t.status)
    case PriorityDim => PriorityName(t.priority)
    case ComplianceDim => ComplianceName(t.complianceStatus)
    case AssigneeDim => t.assignedTo
  }

  /** An equality constraint on one field. */
  type Constraint = (Dimension, string)

  predicate Satisfies(t: ChangeTicket, cs: seq<Constraint>)
  {
    forall i :: 0 <= i < |cs| ==> FieldValue(t, cs[i].0) == cs[i].1
  }

  /** The tickets of `s` that meet every constraint in `cs`, in the order of `s`. */
  function Matching(s: seq<ChangeTicket>, cs: seq<Constraint>): (r: seq<ChangeTicket>)
    ensures |r| <= |s|
    ensures forall t :: t in r <==> t in s && Satisfies(t, cs)
  {
    if s == [] then []
    else
      assert forall t :: t in s <==> t == s[0] || t in s[1..];
      (if Satisfies(s[0], cs) then [s[0]] else []) + Matching(s[1..], cs)
  }

  /** Filtering keeps the relative order: it distributes over concatenation. */
  lemma {:induction false} MatchingAppend(a: seq<ChangeTicket>, b: seq<ChangeTicket>, cs: seq<Constraint>)
    ensures Matching(a + b, cs) == Matching(a, cs) + Matching(b, cs)
  {
    if a == [] {
      assert a + b == b;
    } else {
      assert (a + b)[0] == a[0] && (a + b)[1..] == a[1..] + b;
      MatchingAppend(a[1..], b, cs);
    }
  }

  /** Filtering successively by two lists of constraints is filtering by both. */
  lemma {:induction false} MatchingCompose(s: seq<ChangeTicket>, a: seq<Constraint>, b: seq<Constraint>)
    ensures Matching(Matching(s, a), b) == Matching(s, a + b)
  {
    if s != [] {
      MatchingCompose(s[1..], a, b);
      var head := if Satisfies(s[0], a) then [s[0]] else [];
      MatchingAppend(head, Matching(s[1..], a), b);
      assert Satisfies(s[0], a + b) <==> Satisfies(s[0], a) && Satisfies(s[0], b) by {
        assert forall i :: 0 <= i < |a| ==> (a + b)[i] == a[i];
        assert forall i :: 0 <= i < |b| ==> (a + b)[|a| + i] == b[i];
      }
      if Satisfies(s[0], a) {
        assert head[1..] == [];
      }
    }
  }

  lemma {:induction false} MatchingNothing(s: seq<ChangeTicket>)
    ensures Matching(s, []) == s
  {
    if s != [] {
      MatchingNothing(s[1..]);
    }
  }

  /** Adds the constraint of one filter when the filter is non-empty. */
  function AddFilter(cs: seq<Constraint>, d: Dimension, v: Option<string>): seq<Constraint>
  {
    if Truthy(v) then cs + [(d, v.value)] else cs
  }

  /** The constraints of a query: one per non-empty filter, in the order they are applied. */
  function Constraints(q: ListQuery): seq<Constraint>
  {
    var cs := AddFilter([], StatusDim, q.status);
    var cs := AddFilter(cs, PriorityDim, q.priority);
    var cs := AddFilter(cs, ComplianceDim, q.compliance);
    AddFilter(cs, AssigneeDim, q.assignee)
  }

  /** One filtering step of the list endpoint, stated on the store. */
  lemma FilterStep(store: seq<ChangeTicket>, cs: seq<Constraint>, d: Dimension, v: Option<string>)
    requires Truthy(v)
    ensures Matching(Matching(store, cs), [(d, v.value)]) == Matching(store, AddFilter(cs, d, v))
  {
    MatchingCompose(store, cs, [(d, v.value)]);
  }

  /** The filter semantics: every non-empty filter equals the ticket's field; an absent or empty one is no constraint. */
  predicate MatchesFilters(t: ChangeTicket, q: ListQuery)
  {
    && (Truthy(q.status) ==> StatusName(t.status) == q.status.value)
    && (Truthy(q.priority) ==> PriorityName(t.priority) == q.priority.value)
    && (Truthy(q.compliance) ==> ComplianceName(t.complianceStatus) == q.compliance.value)
    && (Truthy(q.assignee) ==> t.assignedTo == q.assignee.value)
  }

  lemma SatisfiesAddFilter(t: ChangeTicket, cs: seq<Constraint>, d: Dimension, v: Option<string>)
    ensures Satisfies(t, AddFilter(cs, d, v)) <==> Satisfies(t, cs) && (Truthy(v) ==> FieldValue(t, d) == v.value)
  {
    if Truthy(v) {
      var cs' := cs + [(d, v.value)];
      assert cs'[|cs|] == (d, v.value);
      assert forall i :: 0 <= i < |cs| ==> cs'[i] == cs[i];
    }
  }

  lemma SatisfiesConstraints(t: ChangeTicket, q: ListQuery)
    ensures Satisfies(t, Constraints(q)) <==> MatchesFilters(t, q)
  {
    var c1 := AddFilter([], StatusDim, q.status);
    var c2 := AddFilter(c1, PriorityDim, q.priority);
    var c3 := AddFilter(c2, ComplianceDim, q.compliance);
    SatisfiesAddFilter(t, [], StatusDim, q.status);
    SatisfiesAddFilter(t, c1, PriorityDim, q.priority);
    SatisfiesAddFilter(t, c2, ComplianceDim, q.compliance);
    SatisfiesAddFilter(t, c3, AssigneeDim, q.assignee);
  }

  /** The tickets a query selects, in store order, before sorting and paging. */
  function Selected(store: seq<ChangeTicket>, q: ListQuery): (r: seq<ChangeTicket>)
    ensures forall t :: t in r <==> t in store && MatchesFilters(t, q)
  {
    var r := Matching(store, Constraints(q));
    assert forall t :: t in r ==> Satisfies(t, Constraints(q)) by {
      forall t | t in r ensures Satisfies(t, Constraints(q)) { }
    }
    forall t ensures Satisfies(t, Constraints(q)) <==> MatchesFilters(t, q) {
      SatisfiesConstraints(t, q);
    }
    r
  }

  // ---------------------------------------------------------------------
  // Sorting and paging
  // ---------------------------------------------------------------------

  /**
   * The ordering step: a stable sort on the requested key, descending
   * exactly when the order is "desc"; an unknown key leaves the order as is.
   */
  function Arrange(s: seq<ChangeTicket>, sortBy: string, sortOrder: string): (r: seq<ChangeTicket>)
    ensures multiset(r) == multiset(s) && |r| == |s|
    ensures ParseSortField(sortBy).None? ==> r == s
    ensures ParseSortField(sortBy).Some? ==> Sorted(ParseSortField(sortBy).value, sortOrder == "desc", r)
    ensures ParseSortField(sortBy).Some? ==>
      forall k :: WithKey(ParseSortField(sortBy).value, r, k) == WithKey(ParseSortField(sortBy).value, s, k)
  {
    match ParseSortField(sortBy)
    case None => s
    case Some(field) =>
      SortSorted(field, sortOrder == "desc", s);
      forall k ensures WithKey(field, StableSort(field, sortOrder == "desc", s), k) == WithKey(field, s, k) {
        SortStable(field, sortOrder == "desc", s, k);
      }
      StableSort(field, sortOrder == "desc", s)
  }

  function Min(a: int, b: int): int { if a <= b then a else b }

  /** Python's slice `s[start:end]` for non-negative bounds: both clamped to the length. */
  function Slice(s: seq<ChangeTicket>, start: nat, end: nat): (r: seq<ChangeTicket>)
    ensures |r| == if start < Min(end, |s|) then Min(end, |s|) - start else 0
    ensures forall i :: 0 <= i < |r| ==> r[i] == s[start + i]
  {
    if start < Min(end, |s|) then s[start..Min(end, |s|)] else []
  }

  /** Page `page` (counted from 1) of `pageSize` elements. */
  function Page(s: seq<ChangeTicket>, page: int, pageSize: int): (r: seq<ChangeTicket>)
    requires page >= 1 && pageSize >= 1
    ensures |r| <= pageSize
    ensures (page - 1) * pageSize >= |s| ==> r == []
    ensures |r| > 0 ==> (page - 1) * pageSize + |r| <= |s|
    ensures forall i :: 0 <= i < |r| ==> r[i] == s[(page - 1) * pageSize + i]
  {
    var start := (page - 1) * pageSize;
    Slice(s, start, start + pageSize)
  }

  /** Pages 1 to k, one after another. */
  function PagesUpTo(s: seq<ChangeTicket>, pageSize: int, k: nat): seq<ChangeTicket>
    requires pageSize >= 1
  {
    if k == 0 then [] else PagesUpTo(s, pageSize, k - 1) + Page(s, k, pageSize)
  }

  /** The first k pages are the first k * pageSize elements: no gaps and no repeats. */
  lemma {:induction false} PagesUpToPrefix(s: seq<ChangeTicket>, pageSize: int, k: nat)
    requires pageSize >= 1
    ensures PagesUpTo(s, pageSize, k) == s[..Min(k * pageSize, |s|)]
  {
    if k > 0 {
      PagesUpToPrefix(s, pageSize, k - 1);
      var start := (k - 1) * pageSize;
      assert start + pageSize == k * pageSize;
      PageAsSlice(s, k, pageSize);
      var a, b := Min(start, |s|), Min(k * pageSize, |s|);
      assert s[..a] + s[a..b] == s[..b];
    }
  }

  /** A page is the slice between the clamped bounds of its position. */
  lemma PageAsSlice(s: seq<ChangeTicket>, page: int, pageSize: int)
    requires page >= 1 && pageSize >= 1
    ensures (page - 1) * pageSize >= 0
    ensures Page(s, page, pageSize) ==
      s[Min((page - 1) * pageSize, |s|)..Min((page - 1) * pageSize + pageSize, |s|)]
  {
  }

  /** Enough pages together hold the whole list, each element once, in order. */
  lemma AllPagesReassemble(s: seq<ChangeTicket>, pageSize: int, k: nat)
    requires pageSize >= 1 && k * pageSize >= |s|
    ensures PagesUpTo(s, pageSize, k) == s
  {
    PagesUpToPrefix(s, pageSize, k);
  }

  // ---------------------------------------------------------------------
  // The list endpoint
  // ---------------------------------------------------------------------

  /** The filtering step of `GET /tickets`: each non-empty filter in turn narrows a copy of the store. */
  method ApplyFilters(store: seq<ChangeTicket>, q: ListQuery) returns (filtered: seq<ChangeTicket>)
    ensures filtered == Selected(store, q)
  {
    filtered := store;
    ghost var applied: seq<Constraint> := [];
    MatchingNothing(store);

    if Truthy(q.status) {
      FilterStep(store, applied, StatusDim, q.status);
      filtered := Matching(filtered, [(StatusDim, q.status.value)]);
    }
    applied := AddFilter(applied, StatusDim, q.status);
    assert filtered == Matching(store, applied);

    if Truthy(q.priority) {
      FilterStep(store, applied, PriorityDim, q.priority);
      filtered := Matching(filtered, [(PriorityDim, q.priority.value)]);
    }
    applied := AddFilter(applied, PriorityDim, q.priority);
    assert filtered == Matching(store, applied);

    if Truthy(q.compliance) {
      FilterStep(store, applied, ComplianceDim, q.compliance);
      filtered := Matching(filtered, [(ComplianceDim, q.compliance.value)]);
    }
    applied := AddFilter(applied, ComplianceDim, q.compliance);
    assert filtered == Matching(store, applied);

    if Truthy(q.assignee) {
      FilterStep(store, applied, AssigneeDim, q.assignee);
      filtered := Matching(filtered, [(AssigneeDim, q.assignee.value)]);
    }
    applied := AddFilter(applied, AssigneeDim, q.assignee);
    assert filtered == Matching(store, applied);

    assert applied == Constraints(q);
  }

  /**
   * `GET /tickets`: filter a copy of the store by each non-empty filter in
   * turn, sort it when the key is known, and cut out the requested page.
   */
  method ListTickets(store: seq<ChangeTicket>, q: ListQuery) returns (resp: TicketListResponse)
    requires ValidPaging(q)
    ensures resp.total == |Selected(store, q)|
    ensures resp.tickets == Page(Arrange(Selected(store, q), q.sortBy, q.sortOrder), q.page, q.pageSize)
    ensures resp.page == q.page && resp.pageSize == q.pageSize
    ensures |resp.tickets| <= q.pageSize
    ensures (q.page - 1) * q.pageSize >= resp.total ==> resp.tickets == []
    ensures forall t :: t in resp.tickets ==> t in store && MatchesFilters(t, q)
  {
    var filtered := ApplyFilters(store, q);
    ghost var selected := filtered;

    var field := ParseSortField(q.sortBy);
    if field.Some? {
      var reverse := q.sortOrder == "desc";
      filtered := StableSort(field.value, reverse, filtered);
    }
    assert filtered == Arrange(selected, q.sortBy, q.sortOrder);

    var total := |filtered|;
    var start := (q.page - 1) * q.pageSize;
    assert start >= 0;
    var end := start + q.pageSize;
    var paginated := Slice(filtered, start, end);
    assert paginated == Page(filtered, q.page, q.pageSize);
    resp := TicketListResponse(paginated, total, q.page, q.pageSize);

    ListedTicketsMatch(store, q);
  }

  /** Whatever page is listed, its tickets come from the store and meet the filters. */
  lemma ListedTicketsMatch(store: seq<ChangeTicket>, q: ListQuery)
    requires ValidPaging(q)
    ensures forall t :: t in Page(Arrange(Selected(store, q), q.sortBy, q.sortOrder), q.page, q.pageSize) ==>
      t in store && MatchesFilters(t, q)
  {
    var arranged := Arrange(Selected(store, q), q.sortBy, q.sortOrder);
    var page := Page(arranged, q.page, q.pageSize);
    forall t | t in page
      ensures t in store && MatchesFilters(t, q)
    {
      var i :| 0 <= i < |page| && page[i] == t;
      assert t == arranged[(q.page - 1) * q.pageSize + i];
      assert t in multiset(arranged);
      assert t in multiset(Selected(store, q));
      assert t in Selected(store, q);
    }
  }

  // ---------------------------------------------------------------------
  // The lookup endpoint
  // ---------------------------------------------------------------------

  /** An error answered to the client: HTTP status code and detail text. */
  datatype HttpError = HttpError(statusCode: int, detail: string)

  const TicketNotFound: HttpError := HttpError(404, "Ticket not found")

  /** The first ticket of the store with the given id, or the 404 error. */
  function FindTicket(store: seq<ChangeTicket>, ticketId: string): (r: Result<ChangeTicket, HttpError>)
    ensures r.Success? <==> exists i :: 0 <= i < |store| && store[i].id == ticketId
    ensures r.Success? ==> exists i :: 0 <= i < |store| && store[i] == r.value && r.value.id == ticketId
                                       && forall j :: 0 <= j < i ==> store[j].id != ticketId
    ensures r.Failure? ==> r.error == TicketNotFound
  {
    if store == [] then Failure(TicketNotFound)
    else if store[0].id == ticketId then Success(store[0])
    else
      var r := FindTicket(store[1..], ticketId);
      assert forall i :: 1 <= i < |store| ==> store[i] == store[1..][i - 1];
      if r.Success? then
        var i :| 0 <= i < |store[1..]| && store[1..][i] == r.value && r.value.id == ticketId
                 && forall j :: 0 <= j < i ==> store[1..][j].id != ticketId;
        assert store[i + 1] == r.value;
        assert forall j :: 1 <= j < i + 1 ==> store[j].id != ticketId;
        r
      else
        r
  }

  /** `GET /tickets/{id}`: a linear scan that returns at the first match. */
  method GetTicket(store: seq<ChangeTicket>, ticketId: string) returns (r: Result<ChangeTicket, HttpError>)
    ensures r == FindTicket(store, ticketId)
  {
    var i := 0;
    while i < |store|
      invariant 0 <= i <= |store|
      invariant FindTicket(store, ticketId) == FindTicket(store[i..], ticketId)
    {
      assert store[i..][1..] == store[i + 1..];
      if store[i].id == ticketId {
        return Success(store[i]);
      }
      i := i + 1;
    }
    return Failure(TicketNotFound);
  }

  // ---------------------------------------------------------------------
  // The statistics endpoint
  // ---------------------------------------------------------------------

  /** Number of tickets whose field `d` equals `v`. */
  function Count(s: seq<ChangeTicket>, d: Dimension, v: string): nat
  {
    if s == [] then 0 else (if FieldValue(s[0], d) == v then 1 else 0) + Count(s[1..], d, v)
  }

  /** The values field `d` takes in `s`. */
  function Values(s: seq<ChangeTicket>, d: Dimension): set<string>
  {
    set t | t in s :: FieldValue(t, d)
  }

  lemma {:induction false} CountAppend(s: seq<ChangeTicket>, t: ChangeTicket, d: Dimension, v: string)
    ensures Count(s + [t], d, v) == Count(s, d, v) + (if FieldValue(t, d) == v then 1 else 0)
  {
    if s != [] {
      assert (s + [t])[1..] == s[1..] + [t];
      CountAppend(s[1..], t, d, v);
    } else {
      assert ([t])[1..] == [];
    }
  }

  lemma {:induction false} CountAbsent(s: seq<ChangeTicket>, d: Dimension, v: string)
    requires v !in Values(s, d)
    ensures Count(s, d, v) == 0
  {
    if s != [] {
      assert s[0] in s;
      assert Values(s[1..], d) <= Values(s, d) by {
        forall x | x in Values(s[1..], d) ensures x in Values(s, d) {
          var t :| t in s[1..] && FieldValue(t, d) == x;
          assert t in s;
        }
      }
      CountAbsent(s[1..], d, v);
    }
  }

  /** Counting by a field agrees with the length of the list filtered on that field. */
  lemma {:induction false} CountIsFilteredTotal(s: seq<ChangeTicket>, d: Dimension, v: string)
    ensures Count(s, d, v) == |Matching(s, [(d, v)])|
  {
    if s != [] {
      CountIsFilteredTotal(s[1..], d, v);
      assert Satisfies(s[0], [(d, v)]) <==> FieldValue(s[0], d) == v by {
        assert [(d, v)][0] == (d, v);
      }
    }
  }

  /** Every ticket has exactly one of the three compliance statuses. */
  lemma {:induction false} CompliancePartition(s: seq<ChangeTicket>)
    ensures Count(s, ComplianceDim, "compliant") + Count(s, ComplianceDim, "warning")
          + Count(s, ComplianceDim, "non-compliant") == |s|
  {
    if s != [] {
      CompliancePartition(s[1..]);
    }
  }

  lemma {:induction false} CountAtMostTotal(s: seq<ChangeTicket>, d: Dimension, v: string)
    ensures Count(s, d, v) <= |s|
  {
    if s != [] {
      CountAtMostTotal(s[1..], d, v);
    }
  }

  /** Some element of a non-empty set. */
  ghost function Pick(keys: set<string>): (k: string)
    requires keys != {}
    ensures k in keys
  {
    var k :| k in keys; k
  }

  /** Sum of the values of a map. */
  ghost function MapSum(m: map<string, int>): int
    decreases |m|
  {
    if |m| == 0 then 0
    else
      var k := Pick(m.Keys);
      m[k] + MapSum(m - {k})
  }

  lemma {:induction false} MapSumRemove(m: map<string, int>, x: string)
    requires x in m
    ensures MapSum(m) == m[x] + MapSum(m - {x})
    decreases |m|
  {
    var k := Pick(m.Keys);
    assert MapSum(m) == m[k] + MapSum(m - {k});
    if k != x {
      MapSumRemove(m - {k}, x);
      MapSumRemove(m - {x}, k);
      assert m - {k} - {x} == m - {x} - {k};
    }
  }

  /** `m` maps each value field `d` takes in `s` to the number of tickets with that value. */
  predicate IsFrequency(m: map<string, int>, s: seq<ChangeTicket>, d: Dimension)
  {
    && m.Keys == Values(s, d)
    && forall k :: k in m ==> m[k] == Count(s, d, k)
  }

  lemma ValuesCons(s: seq<ChangeTicket>, d: Dimension)
    requires s != []
    ensures Values(s, d) == {FieldValue(s[0], d)} + Values(s[1..], d)
  {
    forall v | v in Values(s, d) ensures v in {FieldValue(s[0], d)} + Values(s[1..], d) {
      var t :| t in s && FieldValue(t, d) == v;
      if t != s[0] { assert t in s[1..]; }
    }
    forall v | v in Values(s[1..], d) ensures v in Values(s, d) {
      var t :| t in s[1..] && FieldValue(t, d) == v;
      assert t in s;
    }
  }

  lemma ValuesSnoc(s: seq<ChangeTicket>, t: ChangeTicket, d: Dimension)
    ensures Values(s + [t], d) == Values(s, d) + {FieldValue(t, d)}
  {
    forall v | v in Values(s + [t], d) ensures v in Values(s, d) + {FieldValue(t, d)} {
      var u :| u in s + [t] && FieldValue(u, d) == v;
      if u != t { assert u in s; }
    }
    forall v | v in Values(s, d) ensures v in Values(s + [t], d) {
      var u :| u in s && FieldValue(u, d) == v;
      assert u in s + [t];
    }
    assert t in s + [t];
  }

  /** Counting one more ticket into a frequency map keeps it a frequency map. */
  lemma TallyStep(m: map<string, int>, s: seq<ChangeTicket>, t: ChangeTicket, d: Dimension)
    requires IsFrequency(m, s, d)
    ensures IsFrequency(m[FieldValue(t, d) := (if FieldValue(t, d) in m then m[FieldValue(t, d)] else 0) + 1], s + [t], d)
  {
    var key := FieldValue(t, d);
    var m' := m[key := (if key in m then m[key] else 0) + 1];
    ValuesSnoc(s, t, d);
    forall k | k in m' ensures m'[k] == Count(s + [t], d, k) {
      CountAppend(s, t, d, k);
      if k == key && key !in m {
        CountAbsent(s, d, key);
      }
    }
  }

  /** Taking the first ticket out of the counts: one less for its value, the key gone at zero. */
  lemma FrequencyTailRepeated(m: map<string, int>, s: seq<ChangeTicket>, d: Dimension)
    requires s != [] && IsFrequency(m, s, d)
    requires FieldValue(s[0], d) in Values(s[1..], d)
    ensures FieldValue(s[0], d) in m
    ensures IsFrequency(m[FieldValue(s[0], d) := m[FieldValue(s[0], d)] - 1], s[1..], d)
  {
    ValuesCons(s, d);
  }

  lemma FrequencyTailFirst(m: map<string, int>, s: seq<ChangeTicket>, d: Dimension)
    requires s != [] && IsFrequency(m, s, d)
    requires FieldValue(s[0], d) !in Values(s[1..], d)
    ensures FieldValue(s[0], d) in m && m[FieldValue(s[0], d)] == 1
    ensures IsFrequency(m - {FieldValue(s[0], d)}, s[1..], d)
  {
    ValuesCons(s, d);
    CountAbsent(s[1..], d, FieldValue(s[0], d));
  }

  lemma UpdateThenRemove(m: map<string, int>, x: string, v: int)
    ensures m[x := v] - {x} == m - {x}
  {
    var a := m[x := v] - {x};
    var b := m - {x};
    assert a.Keys == b.Keys;
    forall k | k in a ensures a[k] == b[k] { }
  }

  lemma MapSumDecrement(m: map<string, int>, x: string)
    requires x in m
    ensures MapSum(m[x := m[x] - 1]) == MapSum(m) - 1
  {
    var m' := m[x := m[x] - 1];
    MapSumRemove(m, x);
    MapSumRemove(m', x);
    UpdateThenRemove(m, x, m[x] - 1);
  }

  /** A frequency map holds every ticket once: its values add up to the number of tickets. */
  lemma {:induction false} FrequencySum(s: seq<ChangeTicket>, d: Dimension, m: map<string, int>)
    requires IsFrequency(m, s, d)
    ensures MapSum(m) == |s|
    decreases |s|, 1
  {
    if s == [] {
      assert m.Keys == {};
      assert m == map[];
    } else if FieldValue(s[0], d) in Values(s[1..], d) {
      FrequencySumRepeated(s, d, m);
    } else {
      FrequencySumFirst(s, d, m);
    }
  }

  /** The first ticket's value occurs again later: its count drops by one. */
  lemma {:induction false} FrequencySumRepeated(s: seq<ChangeTicket>, d: Dimension, m: map<string, int>)
    requires s != [] && IsFrequency(m, s, d)
    requires FieldValue(s[0], d) in Values(s[1..], d)
    ensures MapSum(m) == |s|
    decreases |s|, 0
  {
    var x := FieldValue(s[0], d);
    FrequencyTailRepeated(m, s, d);
    var m' := m[x := m[x] - 1];
    FrequencySum(s[1..], d, m');
    assert MapSum(m') == |s| - 1;
    MapSumDecrement(m, x);
  }

  /** The first ticket's value occurs nowhere else: its key leaves the map. */
  lemma {:induction false} FrequencySumFirst(s: seq<ChangeTicket>, d: Dimension, m: map<string, int>)
    requires s != [] && IsFrequency(m, s, d)
    requires FieldValue(s[0], d) !in Values(s[1..], d)
    ensures MapSum(m) == |s|
    decreases |s|, 0
  {
    var x := FieldValue(s[0], d);
    FrequencyTailFirst(m, s, d);
    FrequencySum(s[1..], d, m - {x});
    MapSumRemove(m, x);
  }

  /** Fills a frequency map ticket by ticket, as the dictionary loop does. */
  method Tally(store: seq<ChangeTicket>, d: Dimension) returns (m: map<string, int>)
    ensures IsFrequency(m, store, d)
  {
    m := map[];
    ghost var seen: seq<ChangeTicket> := [];
    for i := 0 to |store|
      invariant seen == store[..i]
      invariant IsFrequency(m, seen, d)
    {
      var t := store[i];
      var key := FieldValue(t, d);
      TallyStep(m, seen, t, d);
      m := m[key := (if key in m then m[key] else 0) + 1];
      seen := seen + [t];
      assert IsFrequency(m, seen, d);
    }
    assert seen == store;
  }

  method GetStats(store: seq<ChangeTicket>) returns (stats: DashboardStats)
    ensures stats.totalTickets == |store|
    ensures stats.pendingApproval == Count(store, StatusDim, "Pending Approval") <= stats.totalTickets
    ensures stats.compliant == Count(store, ComplianceDim, "compliant")
    ensures stats.warning == Count(store, ComplianceDim, "warning")
    ensures stats.nonCompliant == Count(store, ComplianceDim, "non-compliant")
    ensures stats.compliant + stats.warning + stats.nonCompliant == stats.totalTickets
    ensures stats.byPriority.Keys == Values(store, PriorityDim)
    ensures forall k :: k in stats.byPriority ==> stats.byPriority[k] == Count(store, PriorityDim, k)
    ensures stats.byAssignee.Keys == Values(store, AssigneeDim)
    ensures forall k :: k in stats.byAssignee ==> stats.byAssignee[k] == Count(store, AssigneeDim, k)
    ensures MapSum(stats.byPriority) == stats.totalTickets
    ensures MapSum(stats.byAssignee) == stats.totalTickets
  {
    var compliant := Count(store, ComplianceDim, "compliant");
    var warning := Count(store, ComplianceDim, "warning");
    var nonCompliant := Count(store, ComplianceDim, "non-compliant");
    var pendingApproval := Count(store, StatusDim, "Pending Approval");

    var byPriority := Tally(store, PriorityDim);
    var byAssignee := Tally(store, AssigneeDim);

    CompliancePartition(store);
    CountAtMostTotal(store, StatusDim, "Pending Approval");
    FrequencySum(store, PriorityDim, byPriority);
    FrequencySum(store, AssigneeDim, byAssignee);

    stats := DashboardStats(|store|, pendingApproval, compliant, warning, nonCompliant, byPriority, byAssignee);
  }

  /** An unfiltered list reports the whole store as its total, as the statistics do. */
  lemma UnfilteredTotalIsStoreSize(store: seq<ChangeTicket>, sortBy: string, sortOrder: string, page: int, pageSize: int)
    ensures |Selected(store, ListQuery(None, None, None, None, sortBy, sortOrder, page, pageSize))| == |store|
  {
    MatchingNothing(store);
  }
}
