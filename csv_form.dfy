/** The job session of the `CreateCsvForm` component: it tests the search
    query template with the server, opens a WebSocket for the job, sends the
    job payload when the socket opens, and turns every message into a log
    line or a result row. Logs are kept newest first, rows oldest first.
    The server's replies, the parsed socket messages and the socket events
    are inputs; React state updates are immediate assignments. */
module JobSession {
  import opened Wrappers
  import opened Text
  import opened Browser

  /** `IRow`: one result row as the server sends it. */
  datatype CsvRow = CsvRow(name: string, position: string, searchedCompany: string, inferencedCompany: string,
                           originalUrl: string, shortOriginalUrl: string, source: string, downloadLink: string)

  /** `IRowWithId`: a row with the id generated when it arrived (`uuidv4()`,
      modelled as a counter that never repeats). */
  datatype RowWithId = RowWithId(id: nat, row: CsvRow)

  /** `IFormInput`: the values of the form's fields. */
  datatype FormInput = FormInput(searchQueryTemplate: string, companies: string, sites: string, positions: string,
                                 maxLeadCount: int, openaiApiKey: string, openaiApiBase: string,
                                 excludeSitesListName: bool)

  /** The job payload (`CreateCsvOptions`) sent over the socket. */
  datatype Payload = Payload(companies: seq<string>, sites: seq<string>, positions: seq<string>,
                             searchQueryTemplate: string, accessToken: string,
                             companyPrompt: string, positionPrompt: string, maxLeadCount: int,
                             openaiApiKey: string, openaiApiBase: string, excludeSitesListName: bool)

  /** How `POST /search_query` ends: the request or `resp.json()` throws,
      or the reply has type `error`, type `success`, or another type. */
  datatype TestReply = Thrown | ErrorReply(message: string) | SuccessReply(queries: seq<string>) | OtherReply

  /** A parsed socket message: a `csv_row`, a `log`, or another type. */
  datatype Message = CsvRowMessage(row: CsvRow) | LogMessage(text: string) | OtherMessage

  /** `JSON.parse(event.data)`: the message, or the text of the error it
      throws. */
  datatype Incoming = Parsed(message: Message) | Unparsable(error: string)

  /** The state the job session keeps: `logMessages`, `rows`,
      `csvDownloadLink`, `loading`, `compiledSearchQueries`, the error shown
      on the template field, and the next row id. */
  datatype View = View(logs: seq<string>, rows: seq<RowWithId>, downloadLink: string, loading: bool,
                       compiledQueries: seq<string>, templateError: Option<string>, nextId: nat)

  const ConnectingLine: string := "Подключение к серверу..."
  const SendingLine: string := "Отправка данных..."
  const ConnectionErrorLine: string := "Ошибка соединения с сервером."
  const ClosedLine: string := "Соединение закрыто."
  const ParseErrorPrefix: string := "Ошибка при обработке данных: "

  const ApiKeyItem: string := "openai_api_key"
  const ApiBaseItem: string := "openai_api_base"

  /** `logMessage(message)`: the line goes in front, nothing else changes. */
  function Logged(v: View, message: string): (r: View)
    ensures |r.logs| == |v.logs| + 1 && r.logs[0] == message && r.logs[1..] == v.logs
    ensures r.(logs := v.logs) == v
  {
    v.(logs := [message] + v.logs)
  }

  /** `onTestSearchQuery`: the new state and whether the test succeeded.
      `loading` is off again in every case; only a `success` reply passes. */
  function Tested(v: View, reply: TestReply): (r: (View, bool))
    ensures !r.0.loading
    ensures r.1 <==> reply.SuccessReply?
    ensures reply.ErrorReply? ==> r.0 == v.(loading := false, compiledQueries := [], templateError := Some(reply.message))
    ensures reply.SuccessReply? ==> r.0 == v.(loading := false, compiledQueries := reply.queries)
    ensures reply.Thrown? || reply.OtherReply? ==> r.0 == v.(loading := false)
  {
    match reply
    case ErrorReply(message) => (v.(loading := false, compiledQueries := [], templateError := Some(message)), false)
    case SuccessReply(queries) => (v.(loading := false, compiledQueries := queries), true)
    case Thrown => (v.(loading := false), false)
    case OtherReply => (v.(loading := false), false)
  }

  /** `csvWs.onmessage`: an unparsable message becomes one log line; a
      `csv_row` is appended with a new id and its link becomes the download
      link; a `log` message is logged; any other type changes nothing. */
  function Received(v: View, data: Incoming): (r: View)
    ensures r.loading == v.loading && r.compiledQueries == v.compiledQueries && r.templateError == v.templateError
    ensures data.Unparsable? ==> r == Logged(v, ParseErrorPrefix + data.error)
    ensures data.Parsed? && data.message.CsvRowMessage? ==>
              r.rows == v.rows + [RowWithId(v.nextId, data.message.row)] && r.downloadLink == data.message.row.downloadLink
              && r.logs == v.logs && r.nextId == v.nextId + 1
    ensures data.Parsed? && data.message.LogMessage? ==> r == Logged(v, data.message.text)
    ensures data == Parsed(OtherMessage) ==> r == v
  {
    match data
    case Unparsable(error) => Logged(v, ParseErrorPrefix + error)
    case Parsed(CsvRowMessage(row)) =>
      v.(rows := v.rows + [RowWithId(v.nextId, row)], downloadLink := row.downloadLink, nextId := v.nextId + 1)
    case Parsed(LogMessage(text)) => Logged(v, text)
    case Parsed(OtherMessage) => v
  }

  /** `csvWs.onerror`: one log line; `loading` is left as it is. */
  function ErrorSeen(v: View): (r: View)
    ensures r == Logged(v, ConnectionErrorLine) && r.loading == v.loading
  {
    Logged(v, ConnectionErrorLine)
  }

  /** `csvWs.onclose`: `loading` goes off and a closing line is logged. */
  function ClosedSeen(v: View): (r: View)
    ensures !r.loading && r.logs == [ClosedLine] + v.logs
    ensures r.rows == v.rows && r.downloadLink == v.downloadLink && r.nextId == v.nextId
  {
    Logged(v.(loading := false), ClosedLine)
  }

  /** The download link is shown only when there is one and nothing is
      loading. */
  predicate LinkShown(v: View)
  {
    v.downloadLink != "" && !v.loading
  }

  /** The reset button is enabled only when there are rows and nothing is
      loading. */
  predicate ResetEnabled(v: View)
  {
    |v.rows| > 0 && !v.loading
  }

  /** `clearResults`: rows and link go, the logs stay; afterwards neither
      the link nor the reset button is offered. */
  function Cleared(v: View): (r: View)
    ensures r.rows == [] && r.downloadLink == ""
    ensures r.logs == v.logs && r.loading == v.loading && r.nextId == v.nextId
    ensures !LinkShown(r) && !ResetEnabled(r)
  {
    v.(rows := [], downloadLink := "")
  }

  /** Row ids are increasing and all below the next id, so a new row's id
      is never that of an earlier row. */
  predicate IdsFresh(v: View)
  {
    (forall i :: 0 <= i < |v.rows| ==> v.rows[i].id < v.nextId)
    && (forall i, j :: 0 <= i < j < |v.rows| ==> v.rows[i].id < v.rows[j].id)
  }

  /** Receiving a message keeps the ids fresh. */
  lemma ReceivedKeepsIdsFresh(v: View, data: Incoming)
    requires IdsFresh(v)
    ensures IdsFresh(Received(v, data))
  {
    if data.Parsed? && data.message.CsvRowMessage? {
      var r := Received(v, data);
      assert forall i :: 0 <= i < |v.rows| ==> r.rows[i] == v.rows[i];
    }
  }

  // ---------------------------------------------------------------- a whole stream

  /** The messages received one after the other, in arrival order. */
  function Stream(v: View, ds: seq<Incoming>): View
  {
    if ds == [] then v else Received(Stream(v, ds[..|ds| - 1]), ds[|ds| - 1])
  }

  /** The rows carried by the messages, in arrival order. */
  function RowsIn(ds: seq<Incoming>): seq<CsvRow>
  {
    if ds == [] then []
    else
      var d := ds[|ds| - 1];
      RowsIn(ds[..|ds| - 1]) + (if d.Parsed? && d.message.CsvRowMessage? then [d.message.row] else [])
  }

  /** The log line one message gives, if any. */
  function LineOf(d: Incoming): (r: seq<string>)
    ensures |r| <= 1
  {
    match d
    case Unparsable(error) => [ParseErrorPrefix + error]
    case Parsed(LogMessage(text)) => [text]
    case Parsed(_) => []
  }

  /** The log lines the messages give, in arrival order. */
  function LinesIn(ds: seq<Incoming>): seq<string>
  {
    if ds == [] then [] else LinesIn(ds[..|ds| - 1]) + LineOf(ds[|ds| - 1])
  }

  /** The rows without their ids. */
  function Rows(rs: seq<RowWithId>): (r: seq<CsvRow>)
    ensures |r| == |rs| && forall i :: 0 <= i < |rs| ==> r[i] == rs[i].row
  {
    seq(|rs|, i requires 0 <= i < |rs| => rs[i].row)
  }

  function Reversed<T>(s: seq<T>): (r: seq<T>)
    ensures |r| == |s| && forall i :: 0 <= i < |s| ==> r[i] == s[|s| - 1 - i]
  {
    if s == [] then [] else [s[|s| - 1]] + Reversed(s[..|s| - 1])
  }

  /** A stream appends its rows at the tail in arrival order. */
  lemma {:induction false} StreamRows(v: View, ds: seq<Incoming>)
    ensures Rows(Stream(v, ds).rows) == Rows(v.rows) + RowsIn(ds)
    ensures Stream(v, ds).loading == v.loading
  {
    if ds != [] {
      var p, d := ds[..|ds| - 1], ds[|ds| - 1];
      StreamRows(v, p);
      var before := Stream(v, p);
      if d.Parsed? && d.message.CsvRowMessage? {
        assert Rows(before.rows + [RowWithId(before.nextId, d.message.row)]) == Rows(before.rows) + [d.message.row];
      } else {
        assert RowsIn(ds) == RowsIn(p) + [];
      }
    }
  }

  lemma ReversedSnoc<T>(s: seq<T>, x: T)
    ensures Reversed(s + [x]) == [x] + Reversed(s)
  {
    assert (s + [x])[..|s|] == s;
  }

  /** Receiving a message puts its line, if any, in front of the logs. */
  lemma ReceivedLogs(v: View, d: Incoming)
    ensures Received(v, d).logs == LineOf(d) + v.logs
  {
  }

  /** A stream puts its log lines in front, newest first. */
  lemma {:induction false} StreamLogs(v: View, ds: seq<Incoming>)
    ensures Stream(v, ds).logs == Reversed(LinesIn(ds)) + v.logs
  {
    if ds != [] {
      var p, d := ds[..|ds| - 1], ds[|ds| - 1];
      StreamLogs(v, p);
      ReceivedLogs(Stream(v, p), d);
      if LineOf(d) == [] {
        assert LinesIn(ds) == LinesIn(p);
      } else {
        ReversedSnoc(LinesIn(p), LineOf(d)[0]);
        assert LinesIn(ds) == LinesIn(p) + [LineOf(d)[0]];
      }
    }
  }

  /** After a stream the download link is that of its last row, or the old
      link when it carried none. */
  lemma {:induction false} StreamLink(v: View, ds: seq<Incoming>)
    ensures Stream(v, ds).downloadLink
            == (if RowsIn(ds) == [] then v.downloadLink else RowsIn(ds)[|RowsIn(ds)| - 1].downloadLink)
  {
    if ds != [] {
      var p := ds[..|ds| - 1];
      StreamLink(v, p);
    }
  }

  /** A stream keeps the row ids fresh. */
  lemma {:induction false} StreamKeepsIdsFresh(v: View, ds: seq<Incoming>)
    requires IdsFresh(v)
    ensures IdsFresh(Stream(v, ds))
  {
    if ds != [] {
      StreamKeepsIdsFresh(v, ds[..|ds| - 1]);
      ReceivedKeepsIdsFresh(Stream(v, ds[..|ds| - 1]), ds[|ds| - 1]);
    }
  }

  // ---------------------------------------------------------------- the payload

  /** The payload built from the form: the three lists are the text areas
      split on `"\n"`, the template is sent as typed. */
  function PayloadOf(input: FormInput, accessToken: string, companyPrompt: string, positionPrompt: string): Payload
  {
    Payload(Split(input.companies, '\n'), Split(input.sites, '\n'), Split(input.positions, '\n'),
            input.searchQueryTemplate, accessToken, companyPrompt, positionPrompt, input.maxLeadCount,
            input.openaiApiKey, input.openaiApiBase, input.excludeSitesListName)
  }

  /** Joining the lists back with `"\n"` gives the text areas, no list item
      holds a line break, and the template and prompts go unchanged. */
  lemma PayloadRoundTrip(input: FormInput, accessToken: string, companyPrompt: string, positionPrompt: string)
    ensures var p := PayloadOf(input, accessToken, companyPrompt, positionPrompt);
            Join(p.companies, "\n") == input.companies && Join(p.sites, "\n") == input.sites
            && Join(p.positions, "\n") == input.positions
            && (forall k :: 0 <= k < |p.companies| ==> '\n' !in p.companies[k])
            && (forall k :: 0 <= k < |p.sites| ==> '\n' !in p.sites[k])
            && (forall k :: 0 <= k < |p.positions| ==> '\n' !in p.positions[k])
            && p.searchQueryTemplate == input.searchQueryTemplate && p.accessToken == accessToken
            && p.companyPrompt == companyPrompt && p.positionPrompt == positionPrompt
  {
    JoinSplit(input.companies, '\n');
    JoinSplit(input.sites, '\n');
    JoinSplit(input.positions, '\n');
    SplitPieces(input.companies, '\n');
    SplitPieces(input.sites, '\n');
    SplitPieces(input.positions, '\n');
  }

  /** The form's starting values; the credentials come from the store,
      an absent one as `""`. */
  function DefaultInput(items: map<string, string>): (r: FormInput)
    ensures r.openaiApiKey == (if ApiKeyItem in items then items[ApiKeyItem] else "")
    ensures r.openaiApiBase == (if ApiBaseItem in items then items[ApiBaseItem] else "")
    ensures r.maxLeadCount == 2 && !r.excludeSitesListName
  {
    FormInput("{company} AND {positions} AND {site}", "Мосстрой", "sbis.ru",
              "директор\nруководитель\nначальник\nглава", 2,
              if ApiKeyItem in items then items[ApiKeyItem] else "",
              if ApiBaseItem in items then items[ApiBaseItem] else "", false)
  }

  /** The job socket: the payload it was opened for and what was sent. */
  class Socket {
    const payload: Payload
    var sent: seq<Payload>

    constructor (payload: Payload)
      ensures this.payload == payload && sent == []
    {
      this.payload := payload;
      sent := [];
    }
  }

  /** The `CreateCsvForm` component's job state. */
  class CreateCsvForm {
    const accessToken: string
    const store: Store
    var logs: seq<string>
    var rows: seq<RowWithId>
    var downloadLink: string
    var loading: bool
    var compiledQueries: seq<string>
    var templateError: Option<string>
    var nextId: nat
    var companyPromptContext: string
    var positionPromptContext: string

    function ViewOf(): View
      reads this
    {
      View(logs, rows, downloadLink, loading, compiledQueries, templateError, nextId)
    }

    ghost predicate Valid()
      reads this
    {
      IdsFresh(ViewOf())
    }

    constructor (accessToken: string, store: Store)
      ensures this.accessToken == accessToken && this.store == store
      ensures ViewOf() == View([], [], "", false, [], None, 0)
      ensures companyPromptContext == "" && positionPromptContext == ""
      ensures Valid()
    {
      this.accessToken := accessToken;
      this.store := store;
      logs, rows, downloadLink, loading := [], [], "", false;
      compiledQueries, templateError, nextId := [], None, 0;
      companyPromptContext, positionPromptContext := "", "";
    }

    method LogMessage(message: string)
      requires Valid()
      modifies this`logs
      ensures Valid() && ViewOf() == Logged(old(ViewOf()), message)
    {
      logs := [message] + logs;
    }

    method TestSearchQuery(reply: TestReply) returns (ok: bool)
      requires Valid()
      modifies this`loading, this`compiledQueries, this`templateError
      ensures Valid() && (ViewOf(), ok) == Tested(old(ViewOf()), reply)
    {
      loading := true;
      match reply {
        case ErrorReply(message) =>
          compiledQueries := [];
          templateError := Some(message);
          ok := false;
        case SuccessReply(queries) =>
          compiledQueries := queries;
          ok := true;
        case Thrown =>
          ok := false;
        case OtherReply =>
          ok := false;
      }
      loading := false;
    }

    /** `onSubmitWs`: a failed test stops everything; otherwise the
        credentials are stored, the socket is opened for the payload and
        `loading` goes on. */
    method SubmitWs(input: FormInput, reply: TestReply) returns (ws: Option<Socket>)
      requires Valid()
      modifies this`loading, this`compiledQueries, this`templateError, this`logs, store`items
      ensures Valid()
      ensures var tested := Tested(old(ViewOf()), reply);
              if !tested.1 then
                ws == None && ViewOf() == tested.0 && store.items == old(store.items)
              else
                ws.Some? && fresh(ws.value) && ws.value.sent == []
                && ws.value.payload == PayloadOf(input, accessToken, companyPromptContext, positionPromptContext)
                && ViewOf() == Logged(tested.0.(loading := true), ConnectingLine)
                && store.items == old(store.items)[ApiKeyItem := input.openaiApiKey][ApiBaseItem := input.openaiApiBase]
    {
      var ok := TestSearchQuery(reply);
      if !ok {
        return None;
      }
      store.SetItem(ApiKeyItem, input.openaiApiKey);
      store.SetItem(ApiBaseItem, input.openaiApiBase);
      var payload := PayloadOf(input, accessToken, companyPromptContext, positionPromptContext);
      var socket := new Socket(payload);
      loading := true;
      LogMessage(ConnectingLine);
      ws := Some(socket);
    }

    /** `csvWs.onopen`: log, then send the payload. */
    method OnOpen(ws: Socket)
      requires Valid()
      modifies this`logs, ws`sent
      ensures Valid() && ViewOf() == Logged(old(ViewOf()), SendingLine)
      ensures ws.sent == old(ws.sent) + [ws.payload]
    {
      LogMessage(SendingLine);
      ws.sent := ws.sent + [ws.payload];
    }

    method OnMessage(data: Incoming)
      requires Valid()
      modifies this`logs, this`rows, this`downloadLink, this`nextId
      ensures Valid() && ViewOf() == Received(old(ViewOf()), data)
    {
      ReceivedKeepsIdsFresh(ViewOf(), data);
      match data {
        case Unparsable(error) =>
          LogMessage(ParseErrorPrefix + error);
        case Parsed(CsvRowMessage(row)) =>
          downloadLink := row.downloadLink;
          rows := rows + [RowWithId(nextId, row)];
          nextId := nextId + 1;
        case Parsed(LogMessage(text)) =>
          LogMessage(text);
        case Parsed(OtherMessage) =>
      }
    }

    method OnError()
      requires Valid()
      modifies this`logs
      ensures Valid() && ViewOf() == ErrorSeen(old(ViewOf()))
    {
      LogMessage(ConnectionErrorLine);
    }

    method OnClose()
      requires Valid()
      modifies this`loading, this`logs
      ensures Valid() && ViewOf() == ClosedSeen(old(ViewOf()))
    {
      loading := false;
      LogMessage(ClosedLine);
    }

    method ClearResults()
      requires Valid()
      modifies this`rows, this`downloadLink
      ensures Valid() && ViewOf() == Cleared(old(ViewOf()))
    {
      rows := [];
      downloadLink := "";
    }
  }
}
