/**
 * The client side of the ticket endpoints (frontend/src/services/api.ts):
 * the query string built from the filter form, the URLs of the list and
 * single-ticket requests, and the check that turns a non-OK response into an
 * error. The request itself is a parameter: its response arrives as a value.
 * To relate the two ends, the module also reads a query string back into
 * parameters and the parameters into the list endpoint's query.
 */
module Api {
  import opened Wrappers
  import opened Models
  import opened Tickets

  const ApiBaseUrl: string := "http://localhost:8000/api"

  /** The filter form: every field optional. */
  datatype TicketFilters = TicketFilters(
    status: Option<string>,
    priority: Option<string>,
    compliance: Option<string>,
    assignee: Option<string>,
    sortBy: Option<string>,
    sortOrder: Option<string>)

  /** A query parameter: name and value. */
  type Param = (string, string)

  // ---------------------------------------------------------------------
  // Parameters
  // ---------------------------------------------------------------------

  const StatusParam: string := "status"
  const PriorityParam: string := "priority"
  const ComplianceParam: string := "compliance"
  const AssigneeParam: string := "assignee"
  const SortByParam: string := "sort_by"
  const SortOrderParam: string := "sort_order"
  const PageParam: string := "page"
  const PageSizeParam: string := "page_size"

  /** The parameter sent for one field: none when the field is absent or empty. */
  function ParamOf(name: string, v: Option<string>): (ps: seq<Param>)
    ensures |ps| <= 1
    ensures ps != [] <==> Truthy(v)
    ensures ps != [] ==> ps[0] == (name, v.value)
  {
    if Truthy(v) then [(name, v.value)] else []
  }

  /** The parameters sent for a filter form, in the order the fields are appended. */
  function QueryParamsOf(f: TicketFilters): (ps: seq<Param>)
    ensures |ps| <= 6
    ensures forall i :: 0 <= i < |ps| ==> ps[i].1 != ""
  {
    ParamOf(StatusParam, f.status) + ParamOf(PriorityParam, f.priority)
    + ParamOf(ComplianceParam, f.compliance) + ParamOf(AssigneeParam, f.assignee)
    + ParamOf(SortByParam, f.sortBy) + ParamOf(SortOrderParam, f.sortOrder)
  }

  /** The value of the last parameter with the given name, as the server reads it. */
  function Lookup(ps: seq<Param>, name: string): (v: Option<string>)
    ensures v.Some? <==> exists i :: 0 <= i < |ps| && ps[i].0 == name
  {
    if ps == [] then None
    else if ps[|ps| - 1].0 == name then Some(ps[|ps| - 1].1)
    else
      var init := ps[..|ps| - 1];
      assert forall i :: 0 <= i < |init| ==> init[i] == ps[i];
      Lookup(init, name)
  }

  lemma {:induction false} LookupAppend(a: seq<Param>, b: seq<Param>, name: string)
    ensures Lookup(a + b, name) == if Lookup(b, name).Some? then Lookup(b, name) else Lookup(a, name)
    decreases |b|
  {
    if b == [] {
      assert a + b == a;
    } else {
      assert (a + b)[..|a + b| - 1] == a + b[..|b| - 1];
      LookupAppend(a, b[..|b| - 1], name);
    }
  }

  lemma LookupParamOf(name: string, v: Option<string>, other: string)
    ensures Lookup(ParamOf(name, v), other) == if other == name && Truthy(v) then v else None
  {
  }

  /** The form field a parameter name is sent from; none for any other name. */
  function FieldFor(f: TicketFilters, name: string): Option<string>
  {
    if name == StatusParam then f.status
    else if name == PriorityParam then f.priority
    else if name == ComplianceParam then f.compliance
    else if name == AssigneeParam then f.assignee
    else if name == SortByParam then f.sortBy
    else if name == SortOrderParam then f.sortOrder
    else None
  }

  /**
   * The server reads back, under each parameter name, the value of the field
   * it was sent from when that field is non-empty, and nothing otherwise.
   */
  lemma LookupQueryParams(f: TicketFilters, name: string)
    ensures Lookup(QueryParamsOf(f), name) == if Truthy(FieldFor(f, name)) then FieldFor(f, name) else None
  {
    var p1, p2, p3 := ParamOf(StatusParam, f.status), ParamOf(PriorityParam, f.priority), ParamOf(ComplianceParam, f.compliance);
    var p4, p5, p6 := ParamOf(AssigneeParam, f.assignee), ParamOf(SortByParam, f.sortBy), ParamOf(SortOrderParam, f.sortOrder);
    LookupAppend(p1 + p2 + p3 + p4 + p5, p6, name);
    LookupAppend(p1 + p2 + p3 + p4, p5, name);
    LookupAppend(p1 + p2 + p3, p4, name);
    LookupAppend(p1 + p2, p3, name);
    LookupAppend(p1, p2, name);
    LookupParamOf(StatusParam, f.status, name);
    LookupParamOf(PriorityParam, f.priority, name);
    LookupParamOf(ComplianceParam, f.compliance, name);
    LookupParamOf(AssigneeParam, f.assignee, name);
    LookupParamOf(SortByParam, f.sortBy, name);
    LookupParamOf(SortOrderParam, f.sortOrder, name);
  }

  /** Paging parameters are never sent, so the server's defaults apply. */
  lemma NoPagingSent(f: TicketFilters)
    ensures Lookup(QueryParamsOf(f), PageParam) == None
    ensures Lookup(QueryParamsOf(f), PageSizeParam) == None
  {
    LookupQueryParams(f, PageParam);
    LookupQueryParams(f, PageSizeParam);
  }

  /** The parameter list the page builds: appended to in place, one field at a time. */
  class SearchParams {
    var pairs: seq<Param>

    constructor()
      ensures pairs == []
    {
      pairs := [];
    }

    method Append(name: string, value: string)
      modifies this
      ensures pairs == old(pairs) + [(name, value)]
    {
      pairs := pairs + [(name, value)];
    }

    /** The serialised form: `name=value` pairs joined by `&`. */
    function ToString(): (s: string)
      reads this
      ensures s == "" <==> pairs == []
      ensures ParseQuery(s) == pairs
    {
      ParseQueryString(pairs);
      QueryString(pairs)
    }
  }

  // ---------------------------------------------------------------------
  // Query strings
  // ---------------------------------------------------------------------

  /** The escape of one character: the three that carry meaning in a query string become `%XX`. */
  function EscapeChar(c: char): string
  {
    if c == '%' then "%25"
    else if c == '&' then "%26"
    else if c == '=' then "%3D"
    else [c]
  }

  /** A name or a value percent-encoded: no `&` or `=` is left in it. */
  function Escape(s: string): (e: string)
    ensures '&' !in e && '=' !in e
  {
    if s == [] then []
    else
      var head, tail := EscapeChar(s[0]), Escape(s[1..]);
      assert '&' !in head && '=' !in head;
      head + tail
  }

  /** Percent-decoding: `%25`, `%26` and `%3D` become their characters; everything else is kept. */
  function Unescape(e: string): string
    decreases |e|
  {
    if |e| >= 3 && e[0] == '%' && e[1..3] == "25" then "%" + Unescape(e[3..])
    else if |e| >= 3 && e[0] == '%' && e[1..3] == "26" then "&" + Unescape(e[3..])
    else if |e| >= 3 && e[0] == '%' && e[1..3] == "3D" then "=" + Unescape(e[3..])
    else if e == [] then []
    else [e[0]] + Unescape(e[1..])
  }

  lemma UnescapeStep(c: char, rest: string)
    ensures Unescape(EscapeChar(c) + rest) == [c] + Unescape(rest)
  {
    var e := EscapeChar(c) + rest;
    if c == '%' || c == '&' || c == '=' {
      assert e[1..3] == EscapeChar(c)[1..3];
      assert e[3..] == rest;
    } else {
      assert e[1..] == rest;
    }
  }

  /** Decoding undoes encoding, whatever the characters. */
  lemma {:induction false} UnescapeEscape(s: string)
    ensures Unescape(Escape(s)) == s
  {
    if s != [] {
      UnescapeStep(s[0], Escape(s[1..]));
      UnescapeEscape(s[1..]);
      assert [s[0]] + s[1..] == s;
    }
  }

  /** One parameter serialised: the encoded name, `=`, the encoded value. */
  function Render(p: Param): string
  {
    Escape(p.0) + "=" + Escape(p.1)
  }

  /** Parameters joined into a query string. */
  function QueryString(ps: seq<Param>): (s: string)
    ensures s == "" <==> ps == []
  {
    if ps == [] then ""
    else if |ps| == 1 then Render(ps[0])
    else Render(ps[0]) + "&" + QueryString(ps[1..])
  }

  /** The position of the first `c` in `s`, or `|s|` when there is none. */
  function FirstIndex(s: string, c: char): (i: nat)
    ensures i <= |s|
    ensures i < |s| ==> s[i] == c
    ensures forall k :: 0 <= k < i ==> s[k] != c
  {
    if s == [] then 0
    else if s[0] == c then 0
    else
      var i := 1 + FirstIndex(s[1..], c);
      assert forall k :: 1 <= k < i ==> s[k] == s[1..][k - 1];
      i
  }

  /** One `name=value` segment read back and decoded; the value starts after the first `=`. */
  function ParseParam(segment: string): Param
  {
    var j := FirstIndex(segment, '=');
    if j == |segment| then (Unescape(segment), "") else (Unescape(segment[..j]), Unescape(segment[j + 1..]))
  }

  /** A query string read back into parameters; empty segments are skipped. */
  function ParseQuery(s: string): seq<Param>
    decreases |s|
  {
    if s == "" then []
    else
      var i := FirstIndex(s, '&');
      var segment := s[..i];
      var rest := if i == |s| then "" else s[i + 1..];
      (if segment == "" then [] else [ParseParam(segment)]) + ParseQuery(rest)
  }

  lemma FirstIndexAfter(a: string, b: string, c: char)
    requires c !in a
    ensures FirstIndex(a + b, c) == |a| + FirstIndex(b, c)
  {
    var s := a + b;
    var i := FirstIndex(s, c);
    var j := FirstIndex(b, c);
    assert forall k :: 0 <= k < |a| ==> s[k] == a[k];
    assert forall k :: 0 <= k < |b| ==> s[|a| + k] == b[k];
  }

  /** A rendered parameter reads back as itself. */
  lemma ParseRendered(p: Param)
    ensures ParseParam(Render(p)) == p
  {
    var name, value := Escape(p.0), Escape(p.1);
    FirstIndexAfter(name, "=" + value, '=');
    var s := Render(p);
    assert s == name + ("=" + value);
    assert FirstIndex("=" + value, '=') == 0;
    assert s[..|name|] == name;
    assert s[|name| + 1..] == value;
    UnescapeEscape(p.0);
    UnescapeEscape(p.1);
  }

  /** A rendered parameter is a non-empty segment without `&`. */
  lemma RenderedSegment(p: Param)
    ensures '&' !in Render(p) && Render(p) != ""
  {
    var name, value := Escape(p.0), Escape(p.1);
    var r := Render(p);
    assert forall k :: 0 <= k < |r| ==> r[k] in name || r[k] == '=' || r[k] in value by {
      forall k | 0 <= k < |r| ensures r[k] in name || r[k] == '=' || r[k] in value {
        if k < |name| { assert r[k] == name[k]; }
        else if k > |name| { assert r[k] == value[k - |name| - 1]; }
      }
    }
  }

  /** A segment without `&` followed by the rest of a query string. */
  lemma ParseQueryCons(segment: string, tail: string)
    requires '&' !in segment && segment != ""
    ensures ParseQuery(segment + "&" + tail) == [ParseParam(segment)] + ParseQuery(tail)
  {
    var s := segment + "&" + tail;
    FirstIndexAfter(segment, "&" + tail, '&');
    assert s == segment + ("&" + tail);
    assert s[..|segment|] == segment;
    assert s[|segment| + 1..] == tail;
  }

  /** A last segment without `&`. */
  lemma ParseQueryLast(segment: string)
    requires '&' !in segment && segment != ""
    ensures ParseQuery(segment) == [ParseParam(segment)]
  {
    FirstIndexAfter(segment, "", '&');
    assert segment + "" == segment;
    assert segment[..|segment|] == segment;
  }

  /** Reading a query string back gives the parameters it was built from. */
  lemma {:induction false} ParseQueryString(ps: seq<Param>)
    ensures ParseQuery(QueryString(ps)) == ps
  {
    if ps != [] {
      RenderedSegment(ps[0]);
      ParseRendered(ps[0]);
      if |ps| == 1 {
        ParseQueryLast(Render(ps[0]));
      } else {
        ParseQueryCons(Render(ps[0]), QueryString(ps[1..]));
        ParseQueryString(ps[1..]);
        assert [ps[0]] + ps[1..] == ps;
      }
    }
  }

  // ---------------------------------------------------------------------
  // Requests
  // ---------------------------------------------------------------------

  /** The list URL: `?` and the query string only when the query string is non-empty. */
  function TicketsUrl(queryString: string): (url: string)
    ensures queryString == "" ==> url == ApiBaseUrl + "/tickets"
    ensures queryString != "" ==> url == ApiBaseUrl + "/tickets?" + queryString
  {
    ApiBaseUrl + "/tickets" + (if queryString != "" then "?" + queryString else "")
  }

  /** Builds the list URL for a filter form, appending one parameter per non-empty field. */
  method FetchTicketsUrl(filters: TicketFilters) returns (url: string)
    ensures url == TicketsUrl(QueryString(QueryParamsOf(filters)))
  {
    var params := new SearchParams();
    if Truthy(filters.status) { params.Append(StatusParam, filters.status.value); }
    assert params.pairs == ParamOf(StatusParam, filters.status);
    if Truthy(filters.priority) { params.Append(PriorityParam, filters.priority.value); }
    assert params.pairs == ParamOf(StatusParam, filters.status) + ParamOf(PriorityParam, filters.priority);
    if Truthy(filters.compliance) { params.Append(ComplianceParam, filters.compliance.value); }
    assert params.pairs == ParamOf(StatusParam, filters.status) + ParamOf(PriorityParam, filters.priority)
      + ParamOf(ComplianceParam, filters.compliance);
    if Truthy(filters.assignee) { params.Append(AssigneeParam, filters.assignee.value); }
    assert params.pairs == ParamOf(StatusParam, filters.status) + ParamOf(PriorityParam, filters.priority)
      + ParamOf(ComplianceParam, filters.compliance) + ParamOf(AssigneeParam, filters.assignee);
    if Truthy(filters.sortBy) { params.Append(SortByParam, filters.sortBy.value); }
    assert params.pairs == ParamOf(StatusParam, filters.status) + ParamOf(PriorityParam, filters.priority)
      + ParamOf(ComplianceParam, filters.compliance) + ParamOf(AssigneeParam, filters.assignee)
      + ParamOf(SortByParam, filters.sortBy);
    if Truthy(filters.sortOrder) { params.Append(SortOrderParam, filters.sortOrder.value); }
    assert params.pairs == QueryParamsOf(filters);
    var queryString := params.ToString();
    url := ApiBaseUrl + "/tickets" + (if queryString != "" then "?" + queryString else "");
  }

  /** The single-ticket URL: the id follows the list path as it is, without encoding. */
  function TicketUrl(id: string): string
  {
    ApiBaseUrl + "/tickets/" + id
  }

  /**
   * The `{ticket_id}` path parameter the server reads from a URL: the path
   * ends at the first `?` or `#`, the parameter is one non-empty segment (no
   * route matches otherwise), and it is percent-decoded.
   */
  function TicketIdOf(url: string): (id: Option<string>)
  {
    var prefix := ApiBaseUrl + "/tickets/";
    if |url| < |prefix| || url[..|prefix|] != prefix then None
    else
      var rest := url[|prefix|..];
      var path := rest[..Min(FirstIndex(rest, '?'), FirstIndex(rest, '#'))];
      if path == "" || '/' in path then None else Some(Unescape(path))
  }

  /** ASCII letters, digits, `-`, `_` and `~`: the characters a URL path carries as they are. */
  predicate Unreserved(c: char)
  {
    'a' <= c <= 'z' || 'A' <= c <= 'Z' || '0' <= c <= '9' || c == '-' || c == '_' || c == '~'
  }

  /**
   * Non-empty ids of unreserved characters only. The URL parser leaves them as
   * they are (no space or control to strip, no `\`, no `.` or `..` segment),
   * they match the `{ticket_id}` route without a trailing-slash redirect, and
   * the path decoding does not touch them. The store's ids, decimal numbers,
   * are among them.
   */
  predicate PathSafe(id: string)
  {
    id != "" && forall i :: 0 <= i < |id| ==> Unreserved(id[i])
  }

  /** A path-safe id holds none of the characters that end or split a path segment. */
  lemma PathSafeHasNoDelimiter(id: string)
    requires PathSafe(id)
    ensures '/' !in id && '?' !in id && '#' !in id && '%' !in id
  {
    forall i | 0 <= i < |id| ensures id[i] != '/' && id[i] != '?' && id[i] != '#' && id[i] != '%' {
      assert Unreserved(id[i]);
    }
  }

  /** Decoding leaves a string without `%` as it is. */
  lemma {:induction false} UnescapeWithoutPercent(s: string)
    requires '%' !in s
    ensures Unescape(s) == s
  {
    if s != [] {
      assert s[0] != '%';
      assert '%' !in s[1..] by {
        assert forall k :: 0 <= k < |s[1..]| ==> s[1..][k] == s[k + 1];
      }
      UnescapeWithoutPercent(s[1..]);
      assert [s[0]] + s[1..] == s;
    }
  }

  /** The path parameter of a single-ticket URL, read from the id as it was written into the path. */
  lemma TicketIdOfUrl(id: string)
    ensures var path := id[..Min(FirstIndex(id, '?'), FirstIndex(id, '#'))];
      TicketIdOf(TicketUrl(id)) == if path == "" || '/' in path then None else Some(Unescape(path))
  {
    assert TicketUrl(id)[|ApiBaseUrl + "/tickets/"|..] == id;
  }

  /** The server reads back exactly the id of a single-ticket URL when the id is path-safe. */
  lemma TicketIdOfTicketUrl(id: string)
    requires PathSafe(id)
    ensures TicketIdOf(TicketUrl(id)) == Some(id)
  {
    PathSafeHasNoDelimiter(id);
    TicketIdOfUrl(id);
    assert FirstIndex(id, '?') == |id|;
    assert FirstIndex(id, '#') == |id|;
    assert id[..|id|] == id;
    UnescapeWithoutPercent(id);
  }

  /** The id "a/b" spans two path segments and reaches no ticket route. */
  lemma SlashInIdLeavesTheRoute()
    ensures TicketIdOf(TicketUrl("a/b")) == None
  {
    TicketIdOfUrl("a/b");
    assert FirstIndex("a/b", '?') == 3 && FirstIndex("a/b", '#') == 3;
    assert "a/b"[..3] == "a/b" && "a/b"[1] == '/';
  }

  /** An id with `?` is cut short: the rest becomes the query string. */
  lemma QuestionMarkInIdCutsItShort()
    ensures TicketIdOf(TicketUrl("a?b")) == Some("a")
  {
    TicketIdOfUrl("a?b");
    assert FirstIndex("a?b", '?') == 1 && FirstIndex("a?b", '#') == 3;
    assert "a?b"[..1] == "a";
    assert Unescape("a") == "a";
  }

  /** An escape written in an id is decoded by the server. */
  lemma EscapeInIdIsDecoded()
    ensures TicketIdOf(TicketUrl("a%26b")) == Some("a&b")
  {
    TicketIdOfUrl("a%26b");
    assert FirstIndex("a%26b", '?') == 5 && FirstIndex("a%26b", '#') == 5;
    assert "a%26b"[..5] == "a%26b";
    assert '/' !in "a%26b";
    assert "a%26b"[1..] == "%26b";
    assert "%26b"[1..3] == "26" && "%26b"[3..] == "b";
    assert Unescape("b") == "b";
    assert Unescape("%26b") == "&" + "b";
    assert Unescape("a%26b") == "a" + Unescape("%26b");
    assert "a" + ("&" + "b") == "a&b";
  }

  // ---------------------------------------------------------------------
  // The server's reading of the list query
  // ---------------------------------------------------------------------

  predicate IsDigit(c: char) { '0' <= c <= '9' }

  /** The value of a string of decimal digits. */
  function DigitsValue(s: string): nat
    requires forall i :: 0 <= i < |s| ==> IsDigit(s[i])
  {
    if s == [] then 0
    else
      assert IsDigit(s[|s| - 1]);
      10 * DigitsValue(s[..|s| - 1]) + (s[|s| - 1] as int - '0' as int)
  }

  /** An integer query value: present exactly for a non-empty string of decimal digits. */
  function ParseNat(s: string): (n: Option<int>)
    ensures n.Some? <==> s != [] && forall i :: 0 <= i < |s| ==> IsDigit(s[i])
    ensures n.Some? ==> n.value >= 0
  {
    if s != [] && forall i :: 0 <= i < |s| ==> IsDigit(s[i]) then Some(DigitsValue(s)) else None
  }

  /** The decimal digits of a number, as the page would write it. */
  function NatString(n: nat): (s: string)
    ensures s != [] && forall i :: 0 <= i < |s| ==> IsDigit(s[i])
  {
    var d := [(n % 10 + '0' as int) as char];
    if n < 10 then d else NatString(n / 10) + d
  }

  /** A number written in decimal reads back as itself. */
  lemma {:induction false} ParseNatString(n: nat)
    ensures ParseNat(NatString(n)) == Some(n)
  {
    var s := NatString(n);
    assert s[|s| - 1] as int - '0' as int == n % 10;
    assert DigitsValue(s) == 10 * DigitsValue(s[..|s| - 1]) + n % 10;
    if n >= 10 {
      ParseNatString(n / 10);
      assert s[..|s| - 1] == NatString(n / 10);
    } else {
      assert s[..|s| - 1] == [];
    }
  }

  /** A paging parameter as the server reads it: the default when absent, its integer value when sent. */
  function PagingValue(v: Option<string>, default: int): Option<int>
  {
    if v.None? then Some(default) else ParseNat(v.value)
  }

  /** Whether the server accepts the paging parameters: both integers, page at least 1, size from 1 to 100. */
  predicate PagingAccepted(ps: seq<Param>)
  {
    var page := PagingValue(Lookup(ps, PageParam), DefaultPage);
    var pageSize := PagingValue(Lookup(ps, PageSizeParam), DefaultPageSize);
    page.Some? && pageSize.Some? && page.value >= 1 && 1 <= pageSize.value <= MaxPageSize
  }

  /** The error the server answers for a paging parameter it does not accept. */
  const InvalidPaging: HttpError := HttpError(422, "Unprocessable Entity")

  /**
   * The list query the server builds from received parameters: absent ones
   * take their defaults; a paging value that is not an integer in range is
   * rejected.
   */
  function ServerQuery(ps: seq<Param>): (r: Result<ListQuery, HttpError>)
    ensures r.Success? <==> PagingAccepted(ps)
    ensures r.Failure? ==> r.error == InvalidPaging
    ensures r.Success? ==> ValidPaging(r.value)
    ensures r.Success? ==> r.value.page == PagingValue(Lookup(ps, PageParam), DefaultPage).value
    ensures r.Success? ==> r.value.pageSize == PagingValue(Lookup(ps, PageSizeParam), DefaultPageSize).value
  {
    var sortBy := Lookup(ps, SortByParam);
    var sortOrder := Lookup(ps, SortOrderParam);
    var page := PagingValue(Lookup(ps, PageParam), DefaultPage);
    var pageSize := PagingValue(Lookup(ps, PageSizeParam), DefaultPageSize);
    if page.None? || pageSize.None? then Failure(InvalidPaging)
    else if page.value < 1 || pageSize.value < 1 || pageSize.value > MaxPageSize then Failure(InvalidPaging)
    else
      Success(ListQuery(
        Lookup(ps, StatusParam), Lookup(ps, PriorityParam), Lookup(ps, ComplianceParam), Lookup(ps, AssigneeParam),
        if sortBy.Some? then sortBy.value else DefaultSortBy,
        if sortOrder.Some? then sortOrder.value else DefaultSortOrder,
        page.value, pageSize.value))
  }

  /** Paging written in decimal is accepted exactly in range, and then read as sent. */
  lemma PagingSentIsRead(page: nat, pageSize: nat)
    ensures var r := ServerQuery([(PageParam, NatString(page)), (PageSizeParam, NatString(pageSize))]);
      && (r.Success? <==> page >= 1 && 1 <= pageSize <= MaxPageSize)
      && (r.Success? ==> r.value.page == page && r.value.pageSize == pageSize)
  {
    var ps := [(PageParam, NatString(page)), (PageSizeParam, NatString(pageSize))];
    ParseNatString(page);
    ParseNatString(pageSize);
    assert Lookup(ps, PageSizeParam) == Some(NatString(pageSize));
    assert Lookup(ps, PageParam) == Lookup(ps[..1], PageParam) == Some(NatString(page));
  }

  /** The filter semantics the form asks for: each non-empty field must match. */
  predicate FormMatches(t: ChangeTicket, f: TicketFilters)
  {
    && (Truthy(f.status) ==> StatusName(t.status) == f.status.value)
    && (Truthy(f.priority) ==> PriorityName(t.priority) == f.priority.value)
    && (Truthy(f.compliance) ==> ComplianceName(t.complianceStatus) == f.compliance.value)
    && (Truthy(f.assignee) ==> t.assignedTo == f.assignee.value)
  }

  /** The part of a URL after its first `?`; empty when it has none. */
  function QueryOf(url: string): string
  {
    var i := FirstIndex(url, '?');
    if i == |url| then "" else url[i + 1..]
  }

  /** The server finds in the list URL exactly the query string it was built with. */
  lemma QueryOfTicketsUrl(queryString: string)
    ensures QueryOf(TicketsUrl(queryString)) == queryString
  {
    var path := ApiBaseUrl + "/tickets";
    assert '?' !in path;
    if queryString == "" {
      assert FirstIndex(path, '?') == |path|;
    } else {
      var url := TicketsUrl(queryString);
      FirstIndexAfter(path, "?" + queryString, '?');
      assert url == path + ("?" + queryString);
      assert FirstIndex("?" + queryString, '?') == 0;
      assert url[|path| + 1..] == queryString;
    }
  }

  /**
   * The server's query for the form's parameters: accepted, with the form's
   * filters and sort; since no paging is sent, the first page of the default
   * size.
   */
  lemma ServerReadsForm(f: TicketFilters, store: seq<ChangeTicket>)
    ensures ServerQuery(QueryParamsOf(f)).Success?
    ensures var q := ServerQuery(QueryParamsOf(f)).value;
      && q.page == DefaultPage && q.pageSize == DefaultPageSize
      && q.sortBy == (if Truthy(f.sortBy) then f.sortBy.value else DefaultSortBy)
      && q.sortOrder == (if Truthy(f.sortOrder) then f.sortOrder.value else DefaultSortOrder)
      && forall t :: t in Selected(store, q) <==> t in store && FormMatches(t, f)
  {
    NoPagingSent(f);
    LookupQueryParams(f, StatusParam);
    LookupQueryParams(f, PriorityParam);
    LookupQueryParams(f, ComplianceParam);
    LookupQueryParams(f, AssigneeParam);
    LookupQueryParams(f, SortByParam);
    LookupQueryParams(f, SortOrderParam);
  }

  /**
   * From the list URL the page requests to the server's selection: the
   * server reads back exactly the form's filters and sort, and the first
   * page of the default size, so it selects the tickets the form describes.
   */
  lemma FormReachesServer(f: TicketFilters, store: seq<ChangeTicket>)
    ensures ServerQuery(ParseQuery(QueryOf(TicketsUrl(QueryString(QueryParamsOf(f)))))).Success?
    ensures var q := ServerQuery(ParseQuery(QueryOf(TicketsUrl(QueryString(QueryParamsOf(f)))))).value;
      && q.page == DefaultPage && q.pageSize == DefaultPageSize
      && q.sortBy == (if Truthy(f.sortBy) then f.sortBy.value else DefaultSortBy)
      && q.sortOrder == (if Truthy(f.sortOrder) then f.sortOrder.value else DefaultSortOrder)
      && forall t :: t in Selected(store, q) <==> t in store && FormMatches(t, f)
  {
    var ps := QueryParamsOf(f);
    QueryOfTicketsUrl(QueryString(ps));
    ParseQueryString(ps);
    assert ParseQuery(QueryOf(TicketsUrl(QueryString(ps)))) == ps;
    ServerReadsForm(f, store);
  }

  // ---------------------------------------------------------------------
  // Responses
  // ---------------------------------------------------------------------

  /** A response as the page receives it; the body is absent when it is not the expected record. */
  datatype HttpResponse<T> = HttpResponse(status: int, statusText: string, body: Option<T>)

  predicate Ok<T>(resp: HttpResponse<T>)
  {
    200 <= resp.status <= 299
  }

  /** A non-OK response becomes an error naming the request and the status text; an OK one yields its body. */
  function CheckResponse<T>(resp: HttpResponse<T>, what: string): (r: Result<T, string>)
    ensures r.Success? ==> Ok(resp) && resp.body == Some(r.value)
    ensures !Ok(resp) ==> r == Failure("Failed to fetch " + what + ": " + resp.statusText)
    ensures Ok(resp) && resp.body.Some? ==> r == Success(resp.body.value)
    ensures Ok(resp) && resp.body.None? ==> r == Failure("Invalid response body")
  {
    if !Ok(resp) then Failure("Failed to fetch " + what + ": " + resp.statusText)
    else if resp.body.None? then Failure("Invalid response body")
    else Success(resp.body.value)
  }

  /** The response the server sends for a lookup: the ticket, or the error status with its reason phrase. */
  function ServeTicket(store: seq<ChangeTicket>, id: string): (resp: HttpResponse<ChangeTicket>)
    ensures Ok(resp) <==> exists i :: 0 <= i < |store| && store[i].id == id
  {
    match FindTicket(store, id)
    case Success(t) => HttpResponse(200, "OK", Some(t))
    case Failure(e) => HttpResponse(e.statusCode, "Not Found", None)
  }

  /** The server's answer to a request for a URL: the route's 404 when no ticket path matches. */
  function ServeTicketAt(store: seq<ChangeTicket>, url: string): (resp: HttpResponse<ChangeTicket>)
    ensures TicketIdOf(url).None? ==> resp.status == 404
    ensures TicketIdOf(url).Some? ==> resp == ServeTicket(store, TicketIdOf(url).value)
  {
    match TicketIdOf(url)
    case None => HttpResponse(404, "Not Found", None)
    case Some(id) => ServeTicket(store, id)
  }

  /**
   * Fetching a ticket from its URL yields the first ticket with the id, or
   * the not-found error, for every path-safe id.
   */
  lemma FetchTicketEndToEnd(store: seq<ChangeTicket>, id: string)
    requires PathSafe(id)
    ensures CheckResponse(ServeTicketAt(store, TicketUrl(id)), "ticket").Success? <==> FindTicket(store, id).Success?
    ensures FindTicket(store, id).Success? ==>
      CheckResponse(ServeTicketAt(store, TicketUrl(id)), "ticket").value == FindTicket(store, id).value
    ensures FindTicket(store, id).Failure? ==>
      CheckResponse(ServeTicketAt(store, TicketUrl(id)), "ticket") == Failure("Failed to fetch ticket: Not Found")
  {
    TicketIdOfTicketUrl(id);
    assert "Failed to fetch " + "ticket" + ": " + "Not Found" == "Failed to fetch ticket: Not Found";
  }
}
