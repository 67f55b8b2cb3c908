/** The HTTP and WebSocket endpoints around the pipeline: the template
    tester, the access check, and the loop that streams result rows to the
    browser. */
module Api {
  import opened Wrappers
  import opened PyValues
  import opened Queries
  import opened Text

  // ------------------------------------------------------------ POST /api/v1/search_query

  const ExampleCompanies: seq<string> := ["WeDo", "Hub"]
  const ExamplePositions: seq<string> := ["директор дискотеки", "менеджер танцев"]
  const ExampleSites: seq<string> := ["roga.com", "kopyta.com"]

  /** `SearchQueryResponse`: `type="error"` with the refusal, or
      `type="success"` with the compiled query strings. */
  datatype SearchQueryResponse =
    | ErrorResponse(error: QueryError)
    | SuccessResponse(queries: seq<string>)

  /** `[q.query for q in qs]`. */
  function QueryTexts(qs: seq<SearchQuery>): (r: seq<string>)
    ensures |r| == |qs| && forall k :: 0 <= k < |qs| ==> r[k] == qs[k].query
  {
    seq(|qs|, k requires 0 <= k < |qs| => qs[k].query)
  }

  /** `compile_search_queries`: the template tried on fixed example lists. */
  function CompileSearchQueries(template: string): SearchQueryResponse
  {
    match Create(template, ExampleCompanies, ExamplePositions, ExampleSites)
    case Err(e) => ErrorResponse(e)
    case Ok(sq) => SuccessResponse(QueryTexts(CompiledSpec(sq)))
  }

  /** The tester answers `error` exactly when construction refuses the
      template, and then with that refusal. */
  lemma CompileErrorIffRefused(template: string)
    ensures CompileSearchQueries(template).ErrorResponse?
            <==> Create(template, ExampleCompanies, ExamplePositions, ExampleSites).Err?
    ensures CompileSearchQueries(template).ErrorResponse?
            ==> CompileSearchQueries(template).error == Create(template, ExampleCompanies, ExamplePositions, ExampleSites).error
  {
  }

  /** On success the tester returns four queries with `{positions}` and
      eight without, the query for company `ci`, site `si` and position
      `pi` of the example lists at index `(ci * 2 + si) * P + pi`, each
      the template with those values substituted. */
  lemma CompileSuccessShape(template: string, ci: nat, si: nat, pi: nat)
    requires CompileSearchQueries(template).SuccessResponse?
    requires ci < 2 && si < 2 && pi < (if Contains(template, "{positions}") then 1 else 2)
    ensures var r := CompileSearchQueries(template).queries;
            var sq := Create(template, ExampleCompanies, ExamplePositions, ExampleSites).value;
            var p := if Contains(template, "{positions}") then 1 else 2;
            |r| == 4 * p
            && r[(ci * 2 + si) * p + pi] == Format(template, Params(sq, ExampleCompanies[ci], ExampleSites[si], PositionsList(sq)[pi]))
  {
    var sq := Create(template, ExampleCompanies, ExamplePositions, ExampleSites).value;
    var p := if Contains(template, "{positions}") then 1 else 2;
    ExampleCompiled(template);
    CompiledOrder(sq, ci, si, pi);
    var k := (ci * 2 + si) * p + pi;
    assert k == (ci * |sq.sites| + si) * |PositionsList(sq)| + pi;
    assert CompiledSpec(sq)[k] == Render(sq, ExampleCompanies[ci], ExampleSites[si], PositionsList(sq)[pi]);
  }

  /** The example lists a successful template is compiled with: two
      companies, two sites, one position group with `{positions}` and two
      positions without, so `4 * P` queries. */
  lemma ExampleCompiled(template: string)
    requires CompileSearchQueries(template).SuccessResponse?
    ensures var sq := Create(template, ExampleCompanies, ExamplePositions, ExampleSites).value;
            var p := if Contains(template, "{positions}") then 1 else 2;
            sq.sites == ExampleSites && sq.companies == ExampleCompanies && |PositionsList(sq)| == p
            && |CompiledSpec(sq)| == 4 * p
            && CompileSearchQueries(template).queries == QueryTexts(CompiledSpec(sq))
  {
    var sq := Create(template, ExampleCompanies, ExamplePositions, ExampleSites).value;
    assert sq.sites == ExampleSites && sq.companies == ExampleCompanies;
    CompiledCount(template, ExampleCompanies, ExamplePositions, ExampleSites);
  }

  // ------------------------------------------------------------ access check

  /** `HTTPException(status_code, detail)`. */
  datatype HttpException = HttpException(status: int, detail: Option<string>)

  /** What the pipeline raises while it works: a HuggingFace error, a
      Mistral error (with the `message` of the JSON inside its text), or
      any other exception, which no handler catches. */
  datatype PipelineError =
    | HuggingFace(detail: string)
    | Mistral(message: string)
    | Fault(error: PyError)

  /** The two handlers every endpoint shares: both service errors become a
      403; anything else is re-raised. */
  function Handled(e: PipelineError): (r: Result<HttpException, PyError>)
    ensures r.Ok? <==> !e.Fault?
    ensures r.Ok? ==> r.value.status == 403
  {
    match e
    case HuggingFace(d) => Ok(HttpException(403, Some(d)))
    case Mistral(m) => Ok(HttpException(403, Some("Ошибка MistralAPI: " + m)))
    case Fault(err) => Err(err)
  }

  /** The answer of `POST /api/v1/csv`. */
  datatype CsvAnswer = DownloadLink(url: string) | Refused(exception: HttpException) | Raised(error: PyError)

  /** `get_csv`: the token is checked before the pipeline runs; `work` is
      what the pipeline would produce (a file name or an error). */
  function GetCsv(token: string, expectedToken: string, host: string, port: string,
                  work: Result<string, PipelineError>): (r: CsvAnswer)
    ensures token != expectedToken ==> r == Refused(HttpException(404, None))
    ensures token == expectedToken && work.Ok? ==>
              r == DownloadLink("http://" + host + ":" + port + "/static/results/" + work.value)
  {
    if token != expectedToken then Refused(HttpException(404, None))
    else match work
      case Ok(link) => DownloadLink("http://" + host + ":" + port + "/static/results/" + link)
      case Err(e) =>
        match Handled(e)
        case Ok(x) => Refused(x)
        case Err(err) => Raised(err)
  }

  /** A wrong token is refused with 404 whatever the pipeline would have
      done: nothing it produces reaches the answer. */
  lemma GetCsvDeniedBeforeWork(token: string, expectedToken: string, host: string, port: string,
                               w1: Result<string, PipelineError>, w2: Result<string, PipelineError>)
    requires token != expectedToken
    ensures GetCsv(token, expectedToken, host, port, w1) == GetCsv(token, expectedToken, host, port, w2)
    ensures GetCsv(token, expectedToken, host, port, w1).Refused?
            && GetCsv(token, expectedToken, host, port, w1).exception.status == 404
  {
  }

  /** A granted request ends in a link to the static results directory
      that ends with the file name the pipeline returned. */
  lemma GetCsvLink(token: string, host: string, port: string, file: string)
    ensures var r := GetCsv(token, token, host, port, Ok(file));
            r.DownloadLink? && |r.url| >= |file|
            && r.url[|r.url| - |file|..] == file
            && r.url[..|r.url| - |file|] == "http://" + host + ":" + port + "/static/results/"
  {
  }

  // ------------------------------------------------------------ /api/v1/csv/progress

  /** A value the pipeline's generator yields: first the download link,
      then result rows. */
  datatype Yielded = LinkText(text: string) | RowFields(fields: map<string, string>)

  /** `CsvRow`, the DTO sent for every result row. */
  datatype CsvRow = CsvRow(name: string, position: string, searchedCompany: string,
                           inferencedCompany: string, originalUrl: string, source: string,
                           downloadLink: string)

  /** How the generator ends once its items are used up. A disconnect of
      the browser surfaces as `WebSocketDisconnect`. */
  datatype GenEnd = Exhausted | Disconnect | Fails(error: PipelineError)

  /** How the socket handler finishes: it closes the socket, silently
      drops a disconnected client, raises the 403 `HTTPException`, or lets
      an exception through. */
  datatype Ending = Closed | Dropped | Rejected(exception: HttpException) | Crashed(error: PyError)

  datatype SocketRun = SocketRun(sent: seq<CsvRow>, ending: Ending)

  /** The keys a result row must have. */
  const RowKeys: set<string> := {"name", "position", "searched_company", "inferenced_company", "original_url", "source"}

  /** `CsvRow(name=row["name"], ..., download_link=download_link)`: the
      six lookups in order, then validation of the link, which must be a
      string. */
  function ToCsvRow(row: Yielded, link: Yielded): (r: Result<CsvRow, PyError>)
    ensures r.Ok? <==> row.RowFields? && RowKeys <= row.fields.Keys && link.LinkText?
    ensures r.Ok? ==> r.value.downloadLink == link.text
    ensures r.Ok? ==> r.value.name == row.fields["name"] && r.value.position == row.fields["position"]
                      && r.value.searchedCompany == row.fields["searched_company"]
                      && r.value.inferencedCompany == row.fields["inferenced_company"]
                      && r.value.originalUrl == row.fields["original_url"]
                      && r.value.source == row.fields["source"]
  {
    if row.LinkText? then Err(TypeError)
    else if "name" !in row.fields then Err(KeyError("name"))
    else if "position" !in row.fields then Err(KeyError("position"))
    else if "searched_company" !in row.fields then Err(KeyError("searched_company"))
    else if "inferenced_company" !in row.fields then Err(KeyError("inferenced_company"))
    else if "original_url" !in row.fields then Err(KeyError("original_url"))
    else if "source" !in row.fields then Err(KeyError("source"))
    else if !link.LinkText? then Err(ValueError("download_link"))
    else
      var f := row.fields;
      Ok(CsvRow(f["name"], f["position"], f["searched_company"], f["inferenced_company"],
                f["original_url"], f["source"], link.text))
  }

  /** The handling of the generator's ending. */
  function EndOf(e: GenEnd): Ending
  {
    match e
    case Exhausted => Closed
    case Disconnect => Dropped
    case Fails(err) =>
      match Handled(err)
      case Ok(x) => Rejected(x)
      case Err(pe) => Crashed(pe)
  }

  /** The rows sent for the items `rows`, each carrying `link`, and where
      the sending stops: at the first item that does not convert, or at
      the generator's end. */
  function Stream(link: Yielded, rows: seq<Yielded>, end: GenEnd): SocketRun
  {
    if rows == [] then SocketRun([], EndOf(end))
    else match ToCsvRow(rows[0], link)
      case Err(e) => SocketRun([], Crashed(e))
      case Ok(r) =>
        var rest := Stream(link, rows[1..], end);
        SocketRun([r] + rest.sent, rest.ending)
  }

  /** What `get_csv_with_progress` does for a token and a generator that
      yields `gen` and then ends as `end`. */
  function SocketSpec(token: string, expectedToken: string, gen: seq<Yielded>, end: GenEnd): SocketRun
  {
    if token != expectedToken then SocketRun([], Closed)
    else if gen == [] then SocketRun([], EndOf(end))
    else Stream(gen[0], gen[1..], end)
  }

  /** One step of the stream: a converted item is sent before the rest;
      one that does not convert stops it. */
  lemma StreamStep(link: Yielded, rows: seq<Yielded>, end: GenEnd)
    requires rows != []
    ensures ToCsvRow(rows[0], link).Err? ==> Stream(link, rows, end) == SocketRun([], Crashed(ToCsvRow(rows[0], link).error))
    ensures ToCsvRow(rows[0], link).Ok? ==>
              Stream(link, rows, end) == SocketRun([ToCsvRow(rows[0], link).value] + Stream(link, rows[1..], end).sent,
                                                   Stream(link, rows[1..], end).ending)
  {
  }

  /** The socket handler: check the token, take the first item as the
      download link, then pull items until `next_` gives `None`, sending
      each as one `csv_row`, and close. */
  method HandleSocket(token: string, expectedToken: string, gen: seq<Yielded>, end: GenEnd)
    returns (sent: seq<CsvRow>, ending: Ending)
    ensures SocketRun(sent, ending) == SocketSpec(token, expectedToken, gen, end)
  {
    sent := [];
    if token != expectedToken {
      ending := Closed;
      return;
    }
    if gen == [] {
      ending := EndOf(end);
      return;
    }
    var link := gen[0];
    ghost var spec := Stream(link, gen[1..], end);
    assert SocketSpec(token, expectedToken, gen, end) == spec;
    var i := 1;
    while true
      invariant 1 <= i <= |gen|
      invariant sent + Stream(link, gen[i..], end).sent == spec.sent
      invariant Stream(link, gen[i..], end).ending == spec.ending
      decreases |gen| - i
    {
      if i == |gen| {
        ending := EndOf(end);
        assert gen[i..] == [];
        assert Stream(link, gen[i..], end) == SocketRun([], EndOf(end));
        assert sent == spec.sent && ending == spec.ending;
        return;
      }
      var row := ToCsvRow(gen[i], link);
      StreamAt(link, gen, i, end);
      if row.Err? {
        ending := Crashed(row.error);
        assert sent == spec.sent && ending == spec.ending;
        return;
      }
      ghost var rest := Stream(link, gen[i + 1..], end).sent;
      assert (sent + [row.value]) + rest == sent + ([row.value] + rest);
      sent := sent + [row.value];
      i := i + 1;
    }
  }

  /** `StreamStep` at item `i` of the generator. */
  lemma StreamAt(link: Yielded, gen: seq<Yielded>, i: nat, end: GenEnd)
    requires i < |gen|
    ensures ToCsvRow(gen[i], link).Err? ==> Stream(link, gen[i..], end) == SocketRun([], Crashed(ToCsvRow(gen[i], link).error))
    ensures ToCsvRow(gen[i], link).Ok? ==>
              Stream(link, gen[i..], end).sent == [ToCsvRow(gen[i], link).value] + Stream(link, gen[i + 1..], end).sent
              && Stream(link, gen[i..], end).ending == Stream(link, gen[i + 1..], end).ending
  {
    assert gen[i..][0] == gen[i] && gen[i..][1..] == gen[i + 1..];
    StreamStep(link, gen[i..], end);
  }

  /** A wrong token sends no row and closes the socket. */
  lemma SocketDenied(token: string, expectedToken: string, gen: seq<Yielded>, end: GenEnd)
    requires token != expectedToken
    ensures SocketSpec(token, expectedToken, gen, end) == SocketRun([], Closed)
  {
  }

  /** Every row sent carries the first generator item as its download
      link, and the rows are the later items converted in order: the k-th
      row sent is item k + 1. */
  lemma {:induction false} StreamRows(link: Yielded, rows: seq<Yielded>, end: GenEnd, k: nat)
    requires k < |Stream(link, rows, end).sent|
    ensures k < |rows| && ToCsvRow(rows[k], link).Ok?
    ensures Stream(link, rows, end).sent[k] == ToCsvRow(rows[k], link).value
    ensures link.LinkText? && Stream(link, rows, end).sent[k].downloadLink == link.text
    decreases |rows|
  {
    if k > 0 {
      StreamRows(link, rows[1..], end, k - 1);
    }
  }

  /** When every item converts, one row is sent per item after the link
      and the generator's ending decides how the handler finishes: plain
      exhaustion closes the socket. */
  lemma {:induction false} StreamComplete(link: Yielded, rows: seq<Yielded>, end: GenEnd)
    requires forall j :: 0 <= j < |rows| ==> ToCsvRow(rows[j], link).Ok?
    ensures |Stream(link, rows, end).sent| == |rows|
    ensures Stream(link, rows, end).ending == EndOf(end)
    ensures end == Exhausted ==> Stream(link, rows, end).ending == Closed
    decreases |rows|
  {
    if rows != [] {
      StreamComplete(link, rows[1..], end);
    }
  }

  /** The handler's order: with the right token and a well-formed stream,
      the k-th row sent is generator item k + 1 with the first item's link. */
  lemma SocketRowsInOrder(token: string, gen: seq<Yielded>, end: GenEnd, k: nat)
    requires |gen| >= 1 && k < |gen| - 1
    requires forall j :: 1 <= j < |gen| ==> ToCsvRow(gen[j], gen[0]).Ok?
    ensures var run := SocketSpec(token, token, gen, end);
            |run.sent| == |gen| - 1
            && run.sent[k] == ToCsvRow(gen[k + 1], gen[0]).value
            && run.sent[k].downloadLink == gen[0].text
            && run.ending == EndOf(end)
  {
    var rows := gen[1..];
    assert forall j :: 0 <= j < |rows| ==> rows[j] == gen[j + 1];
    StreamComplete(gen[0], rows, end);
    StreamRows(gen[0], rows, end, k);
  }
}
