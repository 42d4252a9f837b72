/** The questionnaire client of sjtuq/__init__.py: endpoint resolution, the
    single-page request, and the probe / page plan / merge of the all-pages
    fetch. The HTTP GET is an oracle `http(url, query)` that returns the
    decoded response body. */
module Client {
  import opened Outcomes
  import opened Json
  import Params

  const ExportPrefix: string := "https://wj.sjtu.edu.cn/api/v1/public/export/"
  const FormatSuffix: string := "/json"
  const HexDigits: string := "0123456789abcdef"

  /** A questionnaire key: exactly 32 lower-case hexadecimal digits. */
  predicate IsKey(s: string) {
    |s| == 32 && forall i | 0 <= i < |s| :: s[i] in HexDigits
  }

  /** The URL SJTUQuestionnaire(url_or_key) stores: a string that starts with
      the export prefix is kept as it is (nothing after the prefix is
      checked); otherwise a key is substituted into the URL template; any
      other string raises ValueError. */
  function ResolveUrl(urlOrKey: string): (r: Result<string>)
    ensures r.Success? <==> ExportPrefix <= urlOrKey || IsKey(urlOrKey)
    ensures r.Failure? ==> r.error == ValueError
    ensures ExportPrefix <= urlOrKey ==> r == Success(urlOrKey)
    ensures r.Success? ==> ExportPrefix <= r.value
  {
    if ExportPrefix <= urlOrKey then Success(urlOrKey)
    else if IsKey(urlOrKey) then Success(ExportPrefix + urlOrKey + FormatSuffix)
    else Failure(ValueError)
  }

  /** A key resolves to the template with the key in the `{key}` slot, and
      the key can be read back from that position. */
  lemma KeyUrl(key: string)
    requires IsKey(key)
    ensures ResolveUrl(key) == Success(ExportPrefix + key + FormatSuffix)
    ensures ResolveUrl(key).value[|ExportPrefix|..|ExportPrefix| + 32] == key
  {
  }

  /** Two keys that resolve to the same URL are the same key. */
  lemma KeyUrlInjective(k1: string, k2: string)
    requires IsKey(k1) && IsKey(k2)
    requires ResolveUrl(k1) == ResolveUrl(k2)
    ensures k1 == k2
  {
    KeyUrl(k1);
    KeyUrl(k2);
  }

  /** Resolving a resolved URL changes nothing. */
  lemma ResolveUrlIdempotent(urlOrKey: string)
    requires ResolveUrl(urlOrKey).Success?
    ensures ResolveUrl(ResolveUrl(urlOrKey).value) == ResolveUrl(urlOrKey)
  {
  }

  /** A 32-character string with an upper-case hexadecimal digit is no key
      and raises ValueError. */
  lemma UpperCaseKeyRejected(s: string, i: int)
    requires |s| == 32 && 0 <= i < 32 && s[i] in "ABCDEF"
    ensures ResolveUrl(s) == Failure(ValueError)
  {
    assert !IsKey(s);
  }

  /** The query string of a GET: "sort" holds the json.dumps string of
      `{"id": sort}`, "params" that of the parameter dict. */
  function WireRequest(fields: Fields, sort: string): Json {
    Obj([("sort", Text(Obj([("id", Str(sort))]))), ("params", Text(Obj(fields)))])
  }

  /** The arguments get_data and get_all_data accept: None or a dict, and
      the sort "asc" or "desc". */
  predicate ValidArguments(params: Json, sort: string) {
    (params.Null? || params.Obj?) && (sort == "asc" || sort == "desc")
  }

  /** A Python dict never holds a key twice. */
  predicate NoRepeatedKeys(params: Json) {
    params.Obj? ==> UniqueKeys(params.fields)
  }

  /** The validation and query construction of get_data: None stands for an
      empty dict, any other non-dict raises ValueError, and so does a sort
      other than "asc" or "desc"; no request is made in either case. */
  function Request(params: Json, sort: string): (r: Result<Json>)
    requires NoRepeatedKeys(params)
    ensures r.Success? <==> ValidArguments(params, sort)
    ensures r.Failure? ==> r.error == ValueError
    ensures r.Success? ==>
      && r.value.Obj?
      && Keys(r.value.fields) == ["sort", "params"]
      && Get(r.value.fields, "sort") == Some(Text(Obj([("id", Str(sort))])))
      && Get(r.value.fields, "params") == Some(Text(if params.Null? then Obj([]) else params))
  {
    if !ValidArguments(params, sort) then Failure(ValueError)
    else Success(WireRequest(if params.Null? then [] else params.fields, sort))
  }

  /** Every Sort object's id is a sort get_data accepts. */
  lemma SortIdAccepted(shouldDesc: Json, params: Json)
    requires params.Null? || params.Obj?
    requires NoRepeatedKeys(params)
    ensures Request(params, Params.NewSort(shouldDesc).id).Success?
  {
  }

  /** The probe's parameters: the caller's dict with "pageSize" and "current"
      set to 1. */
  function ProbeFields(fs: Fields): Fields {
    Put(Put(fs, "pageSize", Int(1)), "current", Int(1))
  }

  /** The parameters of page `page`: the probe's dict with "pageSize" set to
      100 and "current" to `page`. */
  function PageFields(fs: Fields, page: int): Fields {
    Put(Put(ProbeFields(fs), "pageSize", Int(100)), "current", Int(page))
  }

  /** The requests for pages 1 to n, in submission order. */
  function PageRequests(fs: Fields, sort: string, n: nat): seq<Json> {
    seq(n, j requires 0 <= j < n => WireRequest(PageFields(fs, j + 1), sort))
  }

  /** The responses the oracle gives to `requests`, in the same order. */
  function Responses(url: string, http: (string, Json) -> Body, requests: seq<Json>): seq<Body> {
    seq(|requests|, j requires 0 <= j < |requests| => http(url, requests[j]))
  }

  lemma PageRequestsSnoc(fs: Fields, sort: string, n: nat)
    ensures PageRequests(fs, sort, n + 1) == PageRequests(fs, sort, n) + [WireRequest(PageFields(fs, n + 1), sort)]
  {
  }

  lemma ResponsesSnoc(url: string, http: (string, Json) -> Body, requests: seq<Json>, request: Json)
    ensures Responses(url, http, requests + [request]) == Responses(url, http, requests) + [http(url, request)]
  {
  }

  /** `"success" in response and response["success"]`. */
  function ProbeSucceeded(response: Body): (r: Result<bool>)
    ensures response.Obj? ==>
      var flag := Get(response.fields, "success");
      r == Success(flag.Some? && Truthy(flag.value))
    ensures r.Failure? <==>
      || response.Null? || response.Bool? || response.Int? || response.Float?
      || (response.Arr? && Str("success") in response.items)
      || (response.Str? && IsSubstring("success", response.s))
    ensures r.Failure? ==> r.error == TypeError
  {
    var present :- Contains(response, "success");
    if !present then Success(false)
    else
      var flag :- Index(response, "success");
      Success(Truthy(flag))
  }

  /** `int(x)` of a real: truncation toward zero. */
  function Trunc(x: real): (t: int)
    ensures 0.0 <= x ==> 0 <= t && t as real <= x < t as real + 1.0
    ensures x < 0.0 ==> t <= 0 && t as real - 1.0 < x <= t as real
  {
    if x >= 0.0 then x.Floor else -((-x).Floor)
  }

  /** `int(total / 100) + 1`, the exclusive end of the page range after 1:
      Python's true division followed by truncation toward zero. A bool
      divides as 0 or 1; anything but a number raises TypeError. */
  function LastPage(total: Body): (r: Result<int>)
    ensures r.Success? <==> total.Int? || total.Bool? || total.Float?
    ensures r.Failure? ==> r.error == TypeError
    ensures total.Int? && 0 <= total.i ==>
      0 <= r.value - 1 && 100 * (r.value - 1) <= total.i < 100 * (r.value - 1) + 100
    ensures total.Int? && total.i < 0 ==>
      r.value - 1 <= 0 && 100 * (r.value - 1) - 100 < total.i <= 100 * (r.value - 1)
    ensures total.Bool? ==> r == Success(1)
    ensures total.Float? ==> r == Success(Trunc(total.r / 100.0) + 1)
  {
    match total
    case Int(t) => Success((if t >= 0 then t / 100 else -((-t) / 100)) + 1)
    case Bool(_) => Success(1)
    case Float(x) => Success(Trunc(x / 100.0) + 1)
    case _ => Failure(TypeError)
  }

  /** `response["data"]["total"]`, turned into the last page number. */
  function PageTotal(response: Body): (r: Result<int>)
    ensures !response.Obj? ==> r == Failure(TypeError)
    ensures response.Obj? && "data" !in Keys(response.fields) ==> r == Failure(KeyError)
    ensures r.Failure? ==> r.error == KeyError || r.error == TypeError
  {
    var data :- Index(response, "data");
    var total :- Index(data, "total");
    LastPage(total)
  }

  /** The number of pages in `range(1, last + 1)`. */
  function PageCount(last: int): nat {
    if last > 0 then last else 0
  }

  /** `response["data"]["rows"]`, as `list.extend` iterates it. */
  function Rows(response: Body): (r: Result<seq<Json>>)
    ensures !response.Obj? ==> r == Failure(TypeError)
    ensures response.Obj? && "data" !in Keys(response.fields) ==> r == Failure(KeyError)
    ensures r.Failure? ==> r.error == KeyError || r.error == TypeError
  {
    var data :- Index(response, "data");
    var rows :- Index(data, "rows");
    Iterate(rows)
  }

  /** The rows of each page as `list.extend` would take them, in page
      order. */
  function PageRows(pages: seq<Body>): seq<Result<seq<Json>>> {
    seq(|pages|, i requires 0 <= i < |pages| => Rows(pages[i]))
  }

  /** Extending one list with each page's rows in turn: the first page whose
      rows cannot be read decides the exception. */
  function Concat(outcomes: seq<Result<seq<Json>>>): Result<seq<Json>>
    decreases |outcomes|
  {
    if outcomes == [] then Success([])
    else
      var done :- Concat(outcomes[..|outcomes| - 1]);
      var rows :- outcomes[|outcomes| - 1];
      Success(done + rows)
  }

  /** The rows of all pages, page after page. */
  function Merge(pages: seq<Body>): (r: Result<seq<Json>>)
    ensures r.Success? <==> forall i | 0 <= i < |pages| :: Rows(pages[i]).Success?
    ensures r.Success? ==> |r.value| == RowCount(PageRows(pages))
  {
    var outcomes := PageRows(pages);
    assert forall i | 0 <= i < |pages| :: outcomes[i] == Rows(pages[i]);
    ConcatSuccess(outcomes);
    if Concat(outcomes).Success? then
      ConcatLength(outcomes);
      Concat(outcomes)
    else
      Concat(outcomes)
  }

  /** What get_all_data does: the requests it sends, in order, and what it
      returns or raises. */
  datatype Run = Run(sent: seq<Json>, result: Result<seq<Json>>)

  /** The caller's dict; None stands for an empty one. */
  function CallerFields(params: Json): Fields {
    if params.Obj? then params.fields else []
  }

  /** Reference definition of get_all_data: validate, probe, then fetch pages
      1 to int(total / 100) + 1 and concatenate their rows. A failed probe
      yields an empty list and no page is requested. */
  function FetchAll(url: string, http: (string, Json) -> Body, params: Json, sort: string): (r: Run)
    requires NoRepeatedKeys(params)
    ensures !ValidArguments(params, sort) ==> r == Run([], Failure(ValueError))
    ensures ValidArguments(params, sort) ==>
      |r.sent| >= 1 && r.sent[0] == WireRequest(ProbeFields(CallerFields(params)), sort)
  {
    if !ValidArguments(params, sort) then Run([], Failure(ValueError))
    else
      var fs := CallerFields(params);
      var probe := WireRequest(ProbeFields(fs), sort);
      var response := http(url, probe);
      match ProbeSucceeded(response)
      case Failure(e) => Run([probe], Failure(e))
      case Success(false) => Run([probe], Success([]))
      case Success(true) =>
        match PageTotal(response)
        case Failure(e) => Run([probe], Failure(e))
        case Success(last) =>
          var requests := PageRequests(fs, sort, PageCount(last));
          Run([probe] + requests, Merge(Responses(url, http, requests)))
  }

  /** The probe asks for one row of page 1 and keeps every other key of the
      caller's dict. */
  lemma ProbeFieldsGet(fs: Fields, k: string)
    ensures Get(ProbeFields(fs), k) ==
      if k == "pageSize" || k == "current" then Some(Int(1)) else Get(fs, k)
  {
    PutGet(fs, "pageSize", Int(1), k);
    PutGet(Put(fs, "pageSize", Int(1)), "current", Int(1), k);
  }

  /** Page `page` asks for 100 rows of that page and keeps every other key of
      the caller's dict, whatever the caller gave for "pageSize" and
      "current". */
  lemma PageFieldsGet(fs: Fields, page: int, k: string)
    ensures Get(PageFields(fs, page), k) ==
      if k == "pageSize" then Some(Int(100))
      else if k == "current" then Some(Int(page))
      else Get(fs, k)
  {
    ProbeFieldsGet(fs, k);
    PutGet(ProbeFields(fs), "pageSize", Int(100), k);
    PutGet(Put(ProbeFields(fs), "pageSize", Int(100)), "current", Int(page), k);
  }

  /** The probe's and the pages' parameters are dicts too: no key twice. */
  lemma FieldsUnique(fs: Fields, page: int)
    requires UniqueKeys(fs)
    ensures UniqueKeys(ProbeFields(fs))
    ensures UniqueKeys(PageFields(fs, page))
  {
    PutUnique(fs, "pageSize", Int(1));
    PutUnique(Put(fs, "pageSize", Int(1)), "current", Int(1));
    PutUnique(ProbeFields(fs), "pageSize", Int(100));
    PutUnique(Put(ProbeFields(fs), "pageSize", Int(100)), "current", Int(page));
  }

  /** The caller's keys come first, in the caller's order; page requests
      carry the same keys in the same order as the probe. */
  lemma PageFieldsKeys(fs: Fields, page: int)
    ensures Keys(fs) <= Keys(ProbeFields(fs))
    ensures Keys(PageFields(fs, page)) == Keys(ProbeFields(fs))
  {
    var p1 := Put(fs, "pageSize", Int(1));
    var p2 := Put(p1, "current", Int(1));
    var p3 := Put(p2, "pageSize", Int(100));
    PutKeys(fs, "pageSize", Int(1));
    PutKeys(p1, "current", Int(1));
    PutKeys(p2, "pageSize", Int(100));
    PutKeys(p3, "current", Int(page));
    assert "pageSize" in Keys(p1);
    assert Keys(p1) <= Keys(p2);
    assert "pageSize" in Keys(p2);
    assert "current" in Keys(p2);
  }

  /** With a non-negative integer total the pages requested are 1 to
      total / 100 + 1: at least one, and one more than needed when the total
      is a multiple of 100. */
  lemma PageCountOfTotal(t: int)
    requires t >= 0
    ensures LastPage(Int(t)) == Success(t / 100 + 1)
    ensures PageCount(LastPage(Int(t)).value) == t / 100 + 1 >= 1
  {
  }

  lemma PageCountExamples()
    ensures PageCount(LastPage(Int(250)).value) == 3
    ensures PageCount(LastPage(Int(0)).value) == 1
    ensures PageCount(LastPage(Int(200)).value) == 3
    ensures PageCount(LastPage(Int(-50)).value) == 1
    ensures PageCount(LastPage(Int(-100)).value) == 0
  {
  }

  /** Extending past a page that raised changes nothing: the exception
      stands. */
  lemma {:induction false} ConcatPrefixFailure(outcomes: seq<Result<seq<Json>>>, j: nat)
    requires j <= |outcomes|
    requires Concat(outcomes[..j]).Failure?
    ensures Concat(outcomes) == Concat(outcomes[..j])
    decreases |outcomes| - j
  {
    if j < |outcomes| {
      assert outcomes[..j + 1][..j] == outcomes[..j];
      ConcatPrefixFailure(outcomes, j + 1);
    } else {
      assert outcomes[..j] == outcomes;
    }
  }

  /** Merging succeeds exactly when every page's rows can be read. */
  lemma {:induction false} ConcatSuccess(outcomes: seq<Result<seq<Json>>>)
    ensures Concat(outcomes).Success? <==> forall i | 0 <= i < |outcomes| :: outcomes[i].Success?
    decreases |outcomes|
  {
    if outcomes != [] {
      var n := |outcomes| - 1;
      ConcatSuccess(outcomes[..n]);
      assert forall i | 0 <= i < n :: outcomes[..n][i] == outcomes[i];
    }
  }

  /** A failed merge raises the exception of the first unreadable page. */
  lemma {:induction false} ConcatFirstFailure(outcomes: seq<Result<seq<Json>>>)
    requires Concat(outcomes).Failure?
    ensures exists i | 0 <= i < |outcomes| ::
      && outcomes[i] == Failure(Concat(outcomes).error)
      && forall j | 0 <= j < i :: outcomes[j].Success?
    decreases |outcomes|
  {
    var n := |outcomes| - 1;
    var init := outcomes[..n];
    assert forall i | 0 <= i < n :: init[i] == outcomes[i];
    if Concat(init).Failure? {
      ConcatFirstFailure(init);
      var i :| 0 <= i < n && init[i] == Failure(Concat(init).error)
        && forall j | 0 <= j < i :: init[j].Success?;
      assert outcomes[i] == Failure(Concat(outcomes).error);
    } else {
      ConcatSuccess(init);
      assert outcomes[n] == Failure(Concat(outcomes).error);
    }
  }

  /** The number of rows in all pages together (a page whose rows cannot
      be read counts none). */
  function RowCount(outcomes: seq<Result<seq<Json>>>): nat
    decreases |outcomes|
  {
    if outcomes == [] then 0
    else
      var rows := outcomes[|outcomes| - 1];
      RowCount(outcomes[..|outcomes| - 1]) + if rows.Success? then |rows.value| else 0
  }

  /** The merged list holds as many rows as the pages hold together. */
  lemma {:induction false} ConcatLength(outcomes: seq<Result<seq<Json>>>)
    requires Concat(outcomes).Success?
    ensures |Concat(outcomes).value| == RowCount(outcomes)
    decreases |outcomes|
  {
    if outcomes != [] {
      ConcatLength(outcomes[..|outcomes| - 1]);
    }
  }

  /** Page order is kept: row m of page j sits right after the rows of the
      pages before it. */
  lemma {:induction false} ConcatOrder(outcomes: seq<Result<seq<Json>>>, j: nat, m: nat)
    requires Concat(outcomes).Success?
    requires j < |outcomes|
    requires outcomes[j].Success? && m < |outcomes[j].value|
    ensures RowCount(outcomes[..j]) + m < |Concat(outcomes).value|
    ensures Concat(outcomes).value[RowCount(outcomes[..j]) + m] == outcomes[j].value[m]
    decreases |outcomes|
  {
    var n := |outcomes| - 1;
    var init := outcomes[..n];
    assert Concat(outcomes).value == Concat(init).value + outcomes[n].value;
    ConcatLength(init);
    if j < n {
      assert init[..j] == outcomes[..j];
      assert init[j] == outcomes[j];
      ConcatOrder(init, j, m);
    } else {
      assert outcomes[..j] == init;
    }
  }

  /** A dict response whose "data" dict holds a non-negative integer
      "total" plans pages 1 to total / 100 + 1. */
  lemma PageTotalOutcome(response: Body)
    requires response.Obj?
    ensures forall t: int, fields ::
      Get(response.fields, "data") == Some(Obj(fields)) && Get(fields, "total") == Some(Int(t)) && t >= 0 ==>
        PageTotal(response) == Success(t / 100 + 1)
  {
    forall t: int, fields |
      Get(response.fields, "data") == Some(Obj(fields)) && Get(fields, "total") == Some(Int(t)) && t >= 0
      ensures PageTotal(response) == Success(t / 100 + 1)
    {
      var i :| 0 <= i < |response.fields| && response.fields[i] == ("data", Obj(fields));
      assert response.fields[i].1.Decoded();
    }
  }

  /** A page whose "data" dict holds a list under "rows" contributes that
      list's elements. */
  lemma RowsOutcome(response: Body, items: seq<Json>)
    requires response.Obj?
    requires exists fields ::
      Get(response.fields, "data") == Some(Obj(fields)) && Get(fields, "rows") == Some(Arr(items))
    ensures Rows(response) == Success(items)
  {
  }

  /** With valid arguments the first request is the probe: what get_data
      builds for the caller's dict with "pageSize" and "current" set to 1. */
  lemma FetchAllProbe(url: string, http: (string, Json) -> Body, params: Json, sort: string)
    requires ValidArguments(params, sort) && NoRepeatedKeys(params)
    ensures |FetchAll(url, http, params, sort).sent| >= 1
    ensures UniqueKeys(ProbeFields(CallerFields(params)))
    ensures Request(Obj(ProbeFields(CallerFields(params))), sort)
      == Success(FetchAll(url, http, params, sort).sent[0])
  {
    FieldsUnique(CallerFields(params), 1);
  }

  /** A probe whose response lacks a truthy "success" ends the call with an
      empty list after the probe alone. */
  lemma FetchAllProbeFailed(url: string, http: (string, Json) -> Body, params: Json, sort: string)
    requires ValidArguments(params, sort) && NoRepeatedKeys(params)
    requires ProbeSucceeded(http(url, WireRequest(ProbeFields(CallerFields(params)), sort))) == Success(false)
    ensures FetchAll(url, http, params, sort).result == Success([])
    ensures |FetchAll(url, http, params, sort).sent| == 1
  {
  }

  /** After a successful probe that yields the last page number, pages 1 to
      that number are requested in order after the probe, and the result
      merges their responses in that order. */
  lemma FetchAllPages(url: string, http: (string, Json) -> Body, params: Json, sort: string, last: int)
    requires ValidArguments(params, sort) && NoRepeatedKeys(params)
    requires ProbeSucceeded(http(url, WireRequest(ProbeFields(CallerFields(params)), sort))) == Success(true)
    requires PageTotal(http(url, WireRequest(ProbeFields(CallerFields(params)), sort))) == Success(last)
    ensures FetchAll(url, http, params, sort) ==
      var requests := PageRequests(CallerFields(params), sort, PageCount(last));
      Run([WireRequest(ProbeFields(CallerFields(params)), sort)] + requests, Merge(Responses(url, http, requests)))
  {
  }

  /** The requests as the code is written, when the worker pool serialises
      its arguments only after the submitting loop has finished: all of them
      share the one dict, which by then holds the last page number. */
  function LateSnapshotRequests(fs: Fields, sort: string, n: nat): seq<Json> {
    seq(n, j requires 0 <= j < n => WireRequest(PageFields(fs, n), sort))
  }

  /** Under that schedule page 1 is never requested once there are two
      pages or more. */
  lemma LateSnapshotMissesFirstPage(fs: Fields, sort: string, n: nat)
    requires n >= 2
    ensures forall j | 0 <= j < n :: LateSnapshotRequests(fs, sort, n)[j] != WireRequest(PageFields(fs, 1), sort)
  {
    PageFieldsGet(fs, n, "current");
    PageFieldsGet(fs, 1, "current");
    assert PageFields(fs, n) != PageFields(fs, 1);
    forall j | 0 <= j < n
      ensures LateSnapshotRequests(fs, sort, n)[j] != WireRequest(PageFields(fs, 1), sort)
    {
      assert LateSnapshotRequests(fs, sort, n)[j] == WireRequest(PageFields(fs, n), sort);
      assert WireRequest(PageFields(fs, n), sort).fields[1].1.doc.fields == PageFields(fs, n);
    }
  }

  /** Each page request is the query get_data builds for that page's
      parameters. */
  lemma PageRequestsBuilt(fs: Fields, sort: string, n: nat, j: nat)
    requires sort == "asc" || sort == "desc"
    requires UniqueKeys(fs)
    requires j < n
    ensures UniqueKeys(PageFields(fs, j + 1))
    ensures Request(Obj(PageFields(fs, j + 1)), sort) == Success(PageRequests(fs, sort, n)[j])
  {
    FieldsUnique(fs, j + 1);
  }

  /** As intended, the j-th page request asks for page j + 1 with 100 rows,
      so each page from 1 to n is requested exactly once. */
  lemma PageRequestsCurrent(fs: Fields, sort: string, n: nat, j: nat)
    requires j < n
    ensures PageRequests(fs, sort, n)[j].Obj?
    ensures Get(PageRequests(fs, sort, n)[j].fields, "params") == Some(Text(Obj(PageFields(fs, j + 1))))
    ensures Get(PageFields(fs, j + 1), "current") == Some(Int(j + 1))
    ensures Get(PageFields(fs, j + 1), "pageSize") == Some(Int(100))
  {
    PageFieldsGet(fs, j + 1, "current");
    PageFieldsGet(fs, j + 1, "pageSize");
  }

  /** An SJTU questionnaire client. */
  class Questionnaire {
    var url: string
    var hasLogger: bool

    constructor (url: string, hasLogger: bool)
      requires ExportPrefix <= url
      ensures this.url == url && this.hasLogger == hasLogger
    {
      this.url := url;
      this.hasLogger := hasLogger;
    }

    /** SJTUQuestionnaire(url_or_key, logger): resolves the URL (raising
        ValueError for a string that is neither an export URL nor a key) and
        records whether a logger was given. */
    static method New(urlOrKey: string, withLogger: bool) returns (r: Result<Questionnaire>)
      ensures r.Success? <==> ResolveUrl(urlOrKey).Success?
      ensures r.Failure? ==> r.error == ValueError
      ensures r.Success? ==>
        fresh(r.value) && r.value.url == ResolveUrl(urlOrKey).value && r.value.hasLogger == withLogger
    {
      var resolved := ResolveUrl(urlOrKey);
      if resolved.Failure? {
        return Failure(resolved.error);
      }
      var q := new Questionnaire(resolved.value, withLogger);
      return Success(q);
    }

    /** get_data: validates the arguments, then returns the decoded body of
        the GET whose query Request builds. */
    function GetData(http: (string, Json) -> Body, params: Json, sort: string): (r: Result<Body>)
      requires NoRepeatedKeys(params)
      reads this
      ensures r.Success? <==> ValidArguments(params, sort)
      ensures r.Failure? ==> r.error == ValueError
      ensures r.Success? ==> r.value == http(url, Request(params, sort).value)
    {
      var query :- Request(params, sort);
      Success(http(url, query))
    }

    /** get_all_data, with the pool's page fetches run one after another in
        submission order. Returns the result and the requests sent. */
    method GetAllData(http: (string, Json) -> Body, params: Json, sort: string)
      returns (r: Result<seq<Json>>, sent: seq<Json>)
      requires NoRepeatedKeys(params)
      ensures Run(sent, r) == FetchAll(url, http, params, sort)
    {
      if !(params.Null? || params.Obj?) {
        return Failure(ValueError), [];
      }
      if sort != "asc" && sort != "desc" {
        return Failure(ValueError), [];
      }
      ghost var fs := CallerFields(params);
      // the deep copy: Dafny values are never shared, so the caller's dict
      // cannot see the assignments below
      var paramsCopy := if params.Null? then [] else params.fields;
      paramsCopy := Put(paramsCopy, "pageSize", Int(1));
      paramsCopy := Put(paramsCopy, "current", Int(1));
      var probe := WireRequest(paramsCopy, sort);
      sent := [probe];
      var response := http(url, probe);
      var succeeded := ProbeSucceeded(response);
      if succeeded.Failure? {
        return Failure(succeeded.error), sent;
      }
      if !succeeded.value {
        return Success([]), sent;
      }
      var last := PageTotal(response);
      if last.Failure? {
        return Failure(last.error), sent;
      }
      var responses, pages := SubmitPages(http, paramsCopy, fs, sort, last.value);
      sent := sent + pages;
      r := CollectRows(responses);
    }

    /** The loop of get_all_data that submits pages 1 to `last`: the probe's
        dict takes "pageSize" 100 once, then "current" is set to each page
        number in turn before the request for that page is built. */
    method SubmitPages(http: (string, Json) -> Body, probeFields: Fields, ghost fs: Fields, sort: string, last: int)
      returns (responses: seq<Body>, sent: seq<Json>)
      requires probeFields == ProbeFields(fs)
      ensures sent == PageRequests(fs, sort, PageCount(last))
      ensures responses == Responses(url, http, sent)
    {
      var paramsCopy := Put(probeFields, "pageSize", Int(100));
      ghost var base := paramsCopy;
      responses := [];
      sent := [];
      var i := 1;
      while i <= last
        invariant 1 <= i <= PageCount(last) + 1
        invariant sent == PageRequests(fs, sort, i - 1)
        invariant responses == Responses(url, http, sent)
        invariant paramsCopy == if i == 1 then base else PageFields(fs, i - 1)
      {
        if i > 1 {
          PutPut(base, "current", Int(i - 1), Int(i));
        }
        paramsCopy := Put(paramsCopy, "current", Int(i));
        var request := WireRequest(paramsCopy, sort);
        PageRequestsSnoc(fs, sort, i - 1);
        ResponsesSnoc(url, http, sent, request);
        responses := responses + [http(url, request)];
        sent := sent + [request];
        i := i + 1;
      }
    }

    /** The loop of get_all_data that extends the result with each page's
        rows, in page order, stopping at the first page that raises. */
    static method CollectRows(responses: seq<Body>) returns (r: Result<seq<Json>>)
      ensures r == Merge(responses)
    {
      ghost var outcomes := PageRows(responses);
      var data := [];
      var j := 0;
      while j < |responses|
        invariant 0 <= j <= |responses|
        invariant Concat(outcomes[..j]) == Success(data)
      {
        var rows := Rows(responses[j]);
        assert outcomes[..j + 1][..j] == outcomes[..j];
        assert outcomes[j] == rows;
        if rows.Failure? {
          ConcatPrefixFailure(outcomes, j + 1);
          return Failure(rows.error);
        }
        data := data + rows.value;
        j := j + 1;
      }
      assert outcomes[..j] == outcomes;
      return Success(data);
    }
  }
}
