/**
 * The ordering used by the ticket list (backend/app/routers/tickets.py,
 * lines 34-43): the four sort keys with their rank tables, Python's
 * ordering of strings, and the contract of Python's `list.sort` with a key
 * (a stable sort; `reverse=True` sorts by the reversed comparison and is
 * still stable). The library sort is modelled by a stable insertion sort,
 * whose output is the unique stable, sorted permutation of its input.
 */
module TicketSort {
  import opened Wrappers
  import opened Models

  // ---------------------------------------------------------------------
  // Python's order on str
  // ---------------------------------------------------------------------

  /** `a <= b` on Python strings: lexicographic on code points, a prefix first. */
  predicate StrLe(a: string, b: string)
  {
    a == [] || (b != [] && (a[0] < b[0] || (a[0] == b[0] && StrLe(a[1..], b[1..]))))
  }

  lemma {:induction false} StrLeReflexive(a: string)
    ensures StrLe(a, a)
  {
    if a != [] {
      StrLeReflexive(a[1..]);
    }
  }

  lemma {:induction false} StrLeAntisymmetric(a: string, b: string)
    requires StrLe(a, b) && StrLe(b, a)
    ensures a == b
  {
    if a != [] && b != [] {
      StrLeAntisymmetric(a[1..], b[1..]);
      assert a == [a[0]] + a[1..] && b == [b[0]] + b[1..];
    }
  }

  lemma {:induction false} StrLeTransitive(a: string, b: string, c: string)
    requires StrLe(a, b) && StrLe(b, c)
    ensures StrLe(a, c)
  {
    if a != [] && b != [] && c != [] && a[0] == b[0] && b[0] == c[0] {
      StrLeTransitive(a[1..], b[1..], c[1..]);
    }
  }

  lemma {:induction false} StrLeTotal(a: string, b: string)
    ensures StrLe(a, b) || StrLe(b, a)
  {
    if a != [] && b != [] && a[0] == b[0] {
      StrLeTotal(a[1..], b[1..]);
    }
  }

  // ---------------------------------------------------------------------
  // Sort keys
  // ---------------------------------------------------------------------

  /** A sort key: the rank maps give integers, the timestamps stay strings. */
  datatype SortKey = IntKey(n: int) | StrKey(s: string)

  /**
   * The order on keys. Keys of one field are always of one kind; integer
   * keys are put before string keys only to make the order total.
   */
  predicate KeyLe(a: SortKey, b: SortKey)
  {
    match a
    case IntKey(x) => b.IntKey? ==> x <= b.n
    case StrKey(x) => b.StrKey? && StrLe(x, b.s)
  }

  lemma KeyLeTotalOrder(a: SortKey, b: SortKey, c: SortKey)
    ensures KeyLe(a, a)
    ensures KeyLe(a, b) || KeyLe(b, a)
    ensures KeyLe(a, b) && KeyLe(b, a) ==> a == b
    ensures KeyLe(a, b) && KeyLe(b, c) ==> KeyLe(a, c)
  {
    if a.StrKey? {
      StrLeReflexive(a.s);
      if b.StrKey? {
        StrLeTotal(a.s, b.s);
        if KeyLe(a, b) && KeyLe(b, a) { StrLeAntisymmetric(a.s, b.s); }
        if KeyLe(a, b) && KeyLe(b, c) { StrLeTransitive(a.s, b.s, c.s); }
      }
    }
  }

  /** The four recognised values of `sort_by`. */
  datatype SortField = CreatedAtKey | PriorityKey | ComplianceKey | ScheduledStartKey

  /** Looks `sort_by` up in the table of sort keys; `None` when it is not there. */
  function ParseSortField(s: string): (r: Option<SortField>)
    ensures r.Some? <==> s in {"createdAt", "priority", "compliance", "scheduledStartDate"}
    ensures r == Some(CreatedAtKey) <==> s == "createdAt"
    ensures r == Some(PriorityKey) <==> s == "priority"
    ensures r == Some(ComplianceKey) <==> s == "compliance"
    ensures r == Some(ScheduledStartKey) <==> s == "scheduledStartDate"
  {
    if s == "createdAt" then Some(CreatedAtKey)
    else if s == "priority" then Some(PriorityKey)
    else if s == "compliance" then Some(ComplianceKey)
    else if s == "scheduledStartDate" then Some(ScheduledStartKey)
    else None
  }

  const PriorityRanks: map<string, int> := map["Critical" := 0, "High" := 1, "Medium" := 2, "Low" := 3]

  const ComplianceRanks: map<string, int> := map["non-compliant" := 0, "warning" := 1, "compliant" := 2]

  /** Rank of a priority name: most severe first, 4 for a name outside the table. */
  function PriorityRank(name: string): (r: int)
    ensures ParsePriority(name).None? <==> r == 4
    ensures ParsePriority(name) == Some(Critical) <==> r == 0
    ensures ParsePriority(name) == Some(High) <==> r == 1
    ensures ParsePriority(name) == Some(Medium) <==> r == 2
    ensures ParsePriority(name) == Some(Low) <==> r == 3
  {
    if name in PriorityRanks then PriorityRanks[name] else 4
  }

  /** Rank of a compliance name: non-compliant first, 3 for a name outside the table. */
  function ComplianceRank(name: string): (r: int)
    ensures forall c :: ComplianceName(c) == name ==> r == (match c case NonCompliant => 0 case Warning => 1 case Compliant => 2)
    ensures r == 3 <==> name != "compliant" && name != "warning" && name != "non-compliant"
  {
    if name in ComplianceRanks then ComplianceRanks[name] else 3
  }

  /** The key of a ticket for a sort field. */
  function KeyOf(field: SortField, t: ChangeTicket): SortKey
  {
    match field
    case CreatedAtKey => StrKey(t.createdAt)
    case PriorityKey => IntKey(PriorityRank(PriorityName(t.priority)))
    case ComplianceKey => IntKey(ComplianceRank(ComplianceName(t.complianceStatus)))
    case ScheduledStartKey => StrKey(t.scheduledStartDate)
  }

  // ---------------------------------------------------------------------
  // The library sort
  // ---------------------------------------------------------------------

  /** In the output, `a` may stand before `b`: keys ascending, or descending when reversed. */
  predicate Precedes(field: SortField, descending: bool, a: ChangeTicket, b: ChangeTicket)
  {
    if descending then KeyLe(KeyOf(field, b), KeyOf(field, a))
    else KeyLe(KeyOf(field, a), KeyOf(field, b))
  }

  lemma PrecedesTotalPreorder(field: SortField, descending: bool, a: ChangeTicket, b: ChangeTicket, c: ChangeTicket)
    ensures Precedes(field, descending, a, b) || Precedes(field, descending, b, a)
    ensures Precedes(field, descending, a, b) && Precedes(field, descending, b, c) ==> Precedes(field, descending, a, c)
    ensures !Precedes(field, descending, a, b) ==> KeyOf(field, a) != KeyOf(field, b)
  {
    KeyLeTotalOrder(KeyOf(field, a), KeyOf(field, b), KeyOf(field, c));
    KeyLeTotalOrder(KeyOf(field, c), KeyOf(field, b), KeyOf(field, a));
  }

  predicate Sorted(field: SortField, descending: bool, s: seq<ChangeTicket>)
  {
    forall i, j :: 0 <= i < j < |s| ==> Precedes(field, descending, s[i], s[j])
  }

  /** Puts `x` before the first element it may precede; elements that must precede it stay in front. */
  function Insert(field: SortField, descending: bool, x: ChangeTicket, s: seq<ChangeTicket>): (r: seq<ChangeTicket>)
    ensures multiset(r) == multiset(s) + multiset{x}
  {
    if s == [] || Precedes(field, descending, x, s[0]) then [x] + s
    else
      assert s == [s[0]] + s[1..];
      [s[0]] + Insert(field, descending, x, s[1..])
  }

  /** The contract of `list.sort(key=..., reverse=descending)`: a stable sort of `s`. */
  function StableSort(field: SortField, descending: bool, s: seq<ChangeTicket>): (r: seq<ChangeTicket>)
    ensures multiset(r) == multiset(s)
    ensures |r| == |s|
  {
    if s == [] then []
    else
      assert s == [s[0]] + s[1..];
      Insert(field, descending, s[0], StableSort(field, descending, s[1..]))
  }

  /** A sorted sequence stays sorted under a new head that may precede each of its elements. */
  lemma SortedCons(field: SortField, descending: bool, a: ChangeTicket, r: seq<ChangeTicket>)
    requires Sorted(field, descending, r)
    requires forall j :: 0 <= j < |r| ==> Precedes(field, descending, a, r[j])
    ensures Sorted(field, descending, [a] + r)
  {
    var ar := [a] + r;
    forall i, j | 0 <= i < j < |ar|
      ensures Precedes(field, descending, ar[i], ar[j])
    {
      assert ar[j] == r[j - 1];
      if i > 0 {
        assert ar[i] == r[i - 1];
      }
    }
  }

  lemma InsertMember(field: SortField, descending: bool, x: ChangeTicket, s: seq<ChangeTicket>, y: ChangeTicket)
    requires y in Insert(field, descending, x, s)
    ensures y == x || y in s
  {
    assert y in multiset(Insert(field, descending, x, s));
  }

  lemma {:induction false} InsertSorted(field: SortField, descending: bool, x: ChangeTicket, s: seq<ChangeTicket>)
    requires Sorted(field, descending, s)
    ensures Sorted(field, descending, Insert(field, descending, x, s))
  {
    if s == [] {
    } else if Precedes(field, descending, x, s[0]) {
      forall j | 0 <= j < |s|
        ensures Precedes(field, descending, x, s[j])
      {
        PrecedesTotalPreorder(field, descending, x, s[0], s[j]);
      }
      SortedCons(field, descending, x, s);
    } else {
      var rest := Insert(field, descending, x, s[1..]);
      InsertSorted(field, descending, x, s[1..]);
      InsertUnfold(field, descending, x, s);
      HeadPrecedesInserted(field, descending, x, s);
      SortedCons(field, descending, s[0], rest);
    }
  }

  /** When `x` goes past the head, the head may still precede everything after it. */
  lemma HeadPrecedesInserted(field: SortField, descending: bool, x: ChangeTicket, s: seq<ChangeTicket>)
    requires Sorted(field, descending, s)
    requires s != [] && !Precedes(field, descending, x, s[0])
    ensures forall j :: 0 <= j < |Insert(field, descending, x, s[1..])| ==>
      Precedes(field, descending, s[0], Insert(field, descending, x, s[1..])[j])
  {
    var rest := Insert(field, descending, x, s[1..]);
    PrecedesTotalPreorder(field, descending, x, s[0], x);
    forall j | 0 <= j < |rest|
      ensures Precedes(field, descending, s[0], rest[j])
    {
      InsertMember(field, descending, x, s[1..], rest[j]);
      if rest[j] != x {
        var i :| 0 <= i < |s[1..]| && s[1..][i] == rest[j];
        assert s[i + 1] == rest[j];
      }
    }
  }

  /** The output is ordered by key: ascending, or descending when reversed. */
  lemma {:induction false} SortSorted(field: SortField, descending: bool, s: seq<ChangeTicket>)
    ensures Sorted(field, descending, StableSort(field, descending, s))
  {
    if s != [] {
      SortSorted(field, descending, s[1..]);
      InsertSorted(field, descending, s[0], StableSort(field, descending, s[1..]));
    }
  }

  /** The elements of `s` whose key is `k`, in their order in `s`. */
  function WithKey(field: SortField, s: seq<ChangeTicket>, k: SortKey): seq<ChangeTicket>
  {
    if s == [] then []
    else (if KeyOf(field, s[0]) == k then [s[0]] else []) + WithKey(field, s[1..], k)
  }

  lemma WithKeyCons(field: SortField, y: ChangeTicket, s: seq<ChangeTicket>, k: SortKey)
    ensures WithKey(field, [y] + s, k) == (if KeyOf(field, y) == k then [y] else []) + WithKey(field, s, k)
  {
    assert ([y] + s)[0] == y && ([y] + s)[1..] == s;
  }

  lemma {:induction false} InsertWithKey(field: SortField, descending: bool, x: ChangeTicket, s: seq<ChangeTicket>, k: SortKey)
    ensures WithKey(field, Insert(field, descending, x, s), k)
         == (if KeyOf(field, x) == k then [x] else []) + WithKey(field, s, k)
  {
    if s == [] || Precedes(field, descending, x, s[0]) {
      WithKeyCons(field, x, s, k);
    } else {
      InsertWithKey(field, descending, x, s[1..], k);
      InsertPastHead(field, descending, x, s, k);
    }
  }

  /**
   * `x` goes past a head with a different key: filtering by any key, the
   * two cannot both be kept, so their order does not show.
   */
  lemma InsertPastHead(field: SortField, descending: bool, x: ChangeTicket, s: seq<ChangeTicket>, k: SortKey)
    requires s != [] && !Precedes(field, descending, x, s[0])
    requires WithKey(field, Insert(field, descending, x, s[1..]), k)
          == (if KeyOf(field, x) == k then [x] else []) + WithKey(field, s[1..], k)
    ensures WithKey(field, Insert(field, descending, x, s), k)
         == (if KeyOf(field, x) == k then [x] else []) + WithKey(field, s, k)
  {
    var rest := Insert(field, descending, x, s[1..]);
    InsertUnfold(field, descending, x, s);
    PrecedesTotalPreorder(field, descending, x, s[0], x);
    FilterPastDifferentKey(field, s[0], x, rest, s[1..], k);
    assert [s[0]] + s[1..] == s;
  }

  lemma InsertUnfold(field: SortField, descending: bool, x: ChangeTicket, s: seq<ChangeTicket>)
    requires s != [] && !Precedes(field, descending, x, s[0])
    ensures Insert(field, descending, x, s) == [s[0]] + Insert(field, descending, x, s[1..])
  {
  }

  /** Filtering by key cannot tell whether `a` stands before or after an element `y` of another key. */
  lemma FilterPastDifferentKey(field: SortField, a: ChangeTicket, y: ChangeTicket,
                               rest: seq<ChangeTicket>, tail: seq<ChangeTicket>, k: SortKey)
    requires KeyOf(field, a) != KeyOf(field, y)
    requires WithKey(field, rest, k) == (if KeyOf(field, y) == k then [y] else []) + WithKey(field, tail, k)
    ensures WithKey(field, [a] + rest, k) == (if KeyOf(field, y) == k then [y] else []) + WithKey(field, [a] + tail, k)
  {
    WithKeyCons(field, a, rest, k);
    WithKeyCons(field, a, tail, k);
    if KeyOf(field, a) == k {
      assert WithKey(field, rest, k) == WithKey(field, tail, k);
    }
  }

  /** Stability: the tickets sharing a key keep their relative order. */
  lemma {:induction false} SortStable(field: SortField, descending: bool, s: seq<ChangeTicket>, k: SortKey)
    ensures WithKey(field, StableSort(field, descending, s), k) == WithKey(field, s, k)
  {
    if s != [] {
      SortStable(field, descending, s[1..], k);
      InsertWithKey(field, descending, s[0], StableSort(field, descending, s[1..]), k);
    }
  }

  /**
   * Sorting by priority ascending puts every Critical ticket before every
   * other one; descending puts them last.
   */
  lemma CriticalFirstWhenAscending(s: seq<ChangeTicket>)
    ensures var r := StableSort(PriorityKey, false, s);
      forall i, j :: 0 <= i < j < |r| && r[j].priority == Critical ==> r[i].priority == Critical
    ensures var r := StableSort(PriorityKey, true, s);
      forall i, j :: 0 <= i < j < |r| && r[i].priority == Critical ==> r[j].priority == Critical
  {
    SortSorted(PriorityKey, false, s);
    SortSorted(PriorityKey, true, s);
  }
}
