/**
 * The two request handlers of API_Gateway/controllers/dataController.js: parameter
 * validation, pagination defaults, the offset and page-count arithmetic, and the status
 * each outcome is answered with. The service calls are parameters: the page query's
 * answer as a function of its arguments, and the table the lookup by unit identifier reads.
 */
module DataController {
  import opened Wrappers
  import opened Text
  import opened JsNumber
  import opened DataService

  /** The parts of `GET /api/v1/data/:surveyId/:levelId` the handler reads; an absent query parameter is None. */
  datatype MicrodataRequest = MicrodataRequest(surveyId: string, levelId: string, page: Option<string>, limit: Option<string>, filter: Option<string>)

  /** The parts of `GET /api/v1/data/:surveyId/:levelId/:unitIdentifier` the handler reads. */
  datatype RecordRequest = RecordRequest(surveyId: string, levelId: string, unitIdentifier: string)

  datatype Body =
    | Message(text: string)
    | PageBody(page: int, limit: int, totalCount: Option<int>, totalPages: Option<int>, data: seq<JsValue>)
    | RecordBody(record: StoredRow)

  /** A JSON reply with its status, or the error handed to `next`. */
  datatype Response = Reply(status: int, body: Body) | Forwarded

  /** What the data service answers for a page: its rows and the total count (None for NaN), or the error it throws. */
  type PageAnswer = Result<(seq<JsValue>, Option<int>), string>

  /** The arguments `findMicrodata` is called with. */
  datatype PageArgs = PageArgs(surveyId: int, levelId: int, limit: int, offset: int, filters: JsValue)

  const InvalidIds: string := "Invalid Survey ID or Level ID provided."
  const InvalidFilter: string := "Invalid JSON format for filter parameter."
  const NoData: string := "No data found for the specified survey and level with current filters."
  const InvalidParameters: string := "Invalid parameters provided."
  const NoRecord: string := "Record not found for the specified unit identifier."

  /** `parseInt` of a query parameter: an absent one is `undefined`, whose text parses to NaN. */
  function ParseParam(p: Option<string>): Option<int> {
    match p
    case None => None
    case Some(s) => JsParseInt(s)
  }

  /** `parseInt(x) || d`: NaN and 0 are falsy and give `d`. */
  function OrDefault(n: Option<int>, d: int): int {
    if n.None? || n.value == 0 then d else n.value
  }

  /**
   * The page, the limit and the offset: a missing, non-numeric or zero page is 1 and such a
   * limit 100; the offset skips the pages before this one.
   */
  function Pagination(page: Option<string>, limit: Option<string>): (r: (int, int, int))
    ensures r.0 != 0 && r.1 != 0
    ensures ParseParam(page).Some? && ParseParam(page).value != 0 ==> r.0 == ParseParam(page).value
    ensures ParseParam(page).None? || ParseParam(page) == Some(0) ==> r.0 == 1
    ensures ParseParam(limit).Some? && ParseParam(limit).value != 0 ==> r.1 == ParseParam(limit).value
    ensures ParseParam(limit).None? || ParseParam(limit) == Some(0) ==> r.1 == 100
    ensures r.0 == 1 ==> r.2 == 0
  {
    var p := OrDefault(ParseParam(page), 1);
    var l := OrDefault(ParseParam(limit), 100);
    (p, l, (p - 1) * l)
  }

  /** A page and a limit written as integers are read back as written. */
  lemma PaginationReadsIntegers(page: int, limit: int)
    requires page != 0 && limit != 0
    ensures Pagination(Some(Dec(page)), Some(Dec(limit))) == (page, limit, (page - 1) * limit)
  {
    JsNumber.DecRoundTrip(page, "");
    JsNumber.DecRoundTrip(limit, "");
    assert Dec(page) + "" == Dec(page) && Dec(limit) + "" == Dec(limit);
  }

  /** `Math.ceil(a / b)` for integers: the least integer not below the quotient. */
  function CeilDiv(a: int, b: int): (r: int)
    requires b != 0
    ensures b > 0 ==> r * b >= a && (r - 1) * b < a
    ensures b < 0 ==> r * b <= a && (r - 1) * b > a
  {
    if b > 0 then
      var q := (a + b - 1) / b;
      assert a + b - 1 == q * b + (a + b - 1) % b;
      q
    else
      var q := (-a - b - 1) / (-b);
      assert -a - b - 1 == q * (-b) + (-a - b - 1) % (-b);
      q
  }

  /** `Math.ceil(totalCount / limit)`, NaN (None) when the count is NaN. */
  function TotalPages(totalCount: Option<int>, limit: int): (r: Option<int>)
    requires limit != 0
    ensures r.Some? <==> totalCount.Some?
    ensures r.Some? && limit > 0 ==> r.value * limit >= totalCount.value && (r.value - 1) * limit < totalCount.value
  {
    match totalCount
    case None => None
    case Some(n) => Some(CeilDiv(n, limit))
  }

  lemma MulMono(x: int, y: int, c: nat)
    requires x <= y
    ensures x * c <= y * c
  {
    assert y * c - x * c == (y - x) * c;
  }

  /**
   * With a positive limit, the pages `1 .. totalPages` cover every record: record `i` (from
   * 0) lies on the page whose offset is at most `i` and whose end is past it.
   */
  lemma EveryRecordOnSomePage(totalCount: int, limit: int, i: int)
    requires limit > 0 && 0 <= i < totalCount
    ensures exists p :: 1 <= p <= CeilDiv(totalCount, limit) && (p - 1) * limit <= i < p * limit
  {
    var p := i / limit + 1;
    assert i == (p - 1) * limit + i % limit;
    var r := CeilDiv(totalCount, limit);
    if p > r {
      MulMono(r, p - 1, limit);
      assert false;
    }
    assert (p - 1) * limit <= i < p * limit;
  }

  /** `JSON.parse` of a non-empty filter string, `{}` when there is none; None when it does not parse. */
  function Filters(filter: Option<string>, parseJson: string -> Option<JsValue>): Option<JsValue> {
    if filter.None? || filter.value == "" then Some(JObject([])) else parseJson(filter.value)
  }

  /** The checks before the service is called: the ids, then pagination, then the filter. */
  function PageRequest(req: MicrodataRequest, parseJson: string -> Option<JsValue>): (r: Result<PageArgs, string>)
    ensures r.Failure? <==> JsParseInt(req.surveyId).None? || JsParseInt(req.levelId).None? || Filters(req.filter, parseJson).None?
    ensures r.Failure? ==> r.error == (if JsParseInt(req.surveyId).None? || JsParseInt(req.levelId).None? then InvalidIds else InvalidFilter)
    ensures r.Success? ==>
      var pg := Pagination(req.page, req.limit);
      r.value == PageArgs(JsParseInt(req.surveyId).value, JsParseInt(req.levelId).value, pg.1, pg.2, Filters(req.filter, parseJson).value)
      && r.value.offset == (pg.0 - 1) * r.value.limit
  {
    var surveyId := JsParseInt(req.surveyId);
    var levelId := JsParseInt(req.levelId);
    if surveyId.None? || levelId.None? then Failure(InvalidIds)
    else
      var pg := Pagination(req.page, req.limit);
      match Filters(req.filter, parseJson)
      case None => Failure(InvalidFilter)
      case Some(filters) => Success(PageArgs(surveyId.value, levelId.value, pg.1, pg.2, filters))
  }

  /** `getMicrodata`. */
  function GetMicrodata(req: MicrodataRequest, parseJson: string -> Option<JsValue>, find: PageArgs -> PageAnswer): (r: Response)
    ensures PageRequest(req, parseJson).Failure? <==> r.Reply? && r.status == 400
    ensures PageRequest(req, parseJson).Failure? ==> r.body == Message(PageRequest(req, parseJson).error)
    ensures r.Forwarded? <==> PageRequest(req, parseJson).Success? && find(PageRequest(req, parseJson).value).Failure?
    ensures r.Reply? && r.status == 404 <==>
      PageRequest(req, parseJson).Success? && find(PageRequest(req, parseJson).value).Success?
      && find(PageRequest(req, parseJson).value).value.0 == []
    ensures r.Reply? && r.status == 200 ==>
      var args := PageRequest(req, parseJson).value;
      var answer := find(args).value;
      r.body.PageBody? && r.body.data == answer.0 != [] && r.body.totalCount == answer.1
      && r.body.page == Pagination(req.page, req.limit).0 && r.body.limit == args.limit != 0
      && args.offset == (r.body.page - 1) * r.body.limit
      && r.body.totalPages == TotalPages(answer.1, args.limit)
    ensures r.Reply? ==> r.status in {200, 400, 404}
  {
    match PageRequest(req, parseJson)
    case Failure(message) => Reply(400, Message(message))
    case Success(args) =>
      match find(args)
      case Failure(_) => Forwarded
      case Success(answer) =>
        var (data, totalCount) := answer;
        if |data| == 0 then Reply(404, Message(NoData))
        else
          Reply(200, PageBody(Pagination(req.page, req.limit).0, args.limit, totalCount, TotalPages(totalCount, args.limit), data))
  }

  /**
   * `getMicrodataByUnitIdentifier` over the table the lookup reads, or the error the query
   * throws: 400 for a non-numeric id or an empty unit identifier, 404 when no row matches,
   * else a matching row.
   */
  function GetMicrodataByUnitIdentifier(req: RecordRequest, store: Result<seq<StoredRow>, string>): (r: Response)
    ensures var valid := JsParseInt(req.surveyId).Some? && JsParseInt(req.levelId).Some? && req.unitIdentifier != [];
      (r == Reply(400, Message(InvalidParameters)) <==> !valid)
      && (r.Forwarded? <==> valid && store.Failure?)
      && (r.Reply? && r.status == 404 <==>
            valid && store.Success?
            && forall x :: x in store.value ==> !Matches(x, JsParseInt(req.surveyId).value, JsParseInt(req.levelId).value, req.unitIdentifier))
      && (r.Reply? && r.status == 200 ==>
            valid && store.Success? && r.body.RecordBody? && r.body.record in store.value
            && Matches(r.body.record, JsParseInt(req.surveyId).value, JsParseInt(req.levelId).value, req.unitIdentifier))
    ensures r.Reply? ==> r.status in {200, 400, 404}
  {
    var surveyId := JsParseInt(req.surveyId);
    var levelId := JsParseInt(req.levelId);
    if surveyId.None? || levelId.None? || req.unitIdentifier == [] then Reply(400, Message(InvalidParameters))
    else
      match store
      case Failure(_) => Forwarded
      case Success(table) =>
        match FindByUnitIdentifier(table, surveyId.value, levelId.value, req.unitIdentifier)
        case None => Reply(404, Message(NoRecord))
        case Some(record) => Reply(200, RecordBody(record))
  }
}
