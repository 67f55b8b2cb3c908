/** The people generators `NerPeople` and `GPTPeople` and the row mapper
    `GPTCSVRows`. A generator is modelled by its whole run: what it
    yields, how it ends (normally or with an exception), and which
    requests it sent. The NER and GPT clients are parameters `ner` and
    `gpt`, from the request to the parsed answer or the exception the
    client raises. */
module People {
  import opened Wrappers
  import opened Text
  import opened Seqs
  import opened PyValues
  import Pipeline

  /** One `NerResponse` (the floating-point `score` and the offsets are
      not needed here). */
  datatype NerResponse = NerResponse(entityGroup: string, word: string)

  /** A `Person`: a name and the batch it was found in. */
  datatype Person = Person(name: string, source: string)

  /** A whole generator run: the items in the order they are yielded, the
      exception that ends it (`None` for a normal end), and the requests
      sent, in order. */
  datatype Run<T> = Run(items: seq<T>, error: Option<PyError>, requests: seq<string>)

  // ---------------------------------------------------------------- NerPeople

  /** The batch size `NerPeople` uses unless told otherwise. */
  const NerPeopleBatchSize: int := 512

  /** The people of one batch: a `Person` for each `PER` answer, in answer
      order, with the batch as its source. */
  function BatchPeople(batch: string, answers: seq<NerResponse>): (r: seq<Person>)
    ensures |r| <= |answers|
    ensures forall k :: 0 <= k < |r| ==> r[k].source == batch
  {
    if answers == [] then []
    else
      BatchPeople(batch, answers[..|answers| - 1])
      + (if answers[|answers| - 1].entityGroup == "PER" then [Person(answers[|answers| - 1].word, batch)] else [])
  }

  /** `BatchPeople` keeps exactly the `PER` answers: its names are their
      words, in order. */
  lemma {:induction false} BatchPeopleNames(batch: string, answers: seq<NerResponse>)
    ensures |BatchPeople(batch, answers)| == |PerOnly(answers)|
    ensures forall k :: 0 <= k < |PerOnly(answers)| ==>
              BatchPeople(batch, answers)[k] == Person(PerOnly(answers)[k].word, batch)
  {
    if answers != [] {
      BatchPeopleNames(batch, answers[..|answers| - 1]);
    }
  }

  /** `filter(__only_people, answers)`. */
  function PerOnly(answers: seq<NerResponse>): (r: seq<NerResponse>)
    ensures |r| <= |answers|
    ensures forall k :: 0 <= k < |r| ==> r[k].entityGroup == "PER" && r[k] in answers
  {
    if answers == [] then []
    else
      PerOnly(answers[..|answers| - 1])
      + (if answers[|answers| - 1].entityGroup == "PER" then [answers[|answers| - 1]] else [])
  }

  /** The loop over the batches: one request per batch, in order; the
      first failing request ends the run with its exception. */
  function NerBatchesRun(batches: seq<string>, ner: string -> Result<seq<NerResponse>, PyError>): Run<Person>
  {
    if batches == [] then Run([], None, [])
    else match ner(batches[0])
      case Err(e) => Run([], Some(e), [batches[0]])
      case Ok(answers) =>
        var rest := NerBatchesRun(batches[1..], ner);
        Run(BatchPeople(batches[0], answers) + rest.items, rest.error, [batches[0]] + rest.requests)
  }

  /** `NerPeople(text, client, batch_size=...).iter()`. */
  function NerPeopleRun(text: string, batchSize: int, ner: string -> Result<seq<NerResponse>, PyError>): Run<Person>
  {
    match Pipeline.RangeBatches(text, batchSize)
    case Err(e) => Run([], Some(e), [])
    case Ok(batches) => NerBatchesRun(batches, ner)
  }

  /** The requests are the batches in order, each once; when the run ends
      normally every batch has been requested. */
  lemma {:induction false} NerRunRequests(batches: seq<string>, ner: string -> Result<seq<NerResponse>, PyError>)
    ensures var run := NerBatchesRun(batches, ner);
            |run.requests| <= |batches| && run.requests == batches[..|run.requests|]
            && (run.error.None? ==> run.requests == batches)
  {
    if batches != [] && ner(batches[0]).Ok? {
      var tail := batches[1..];
      NerRunRequests(tail, ner);
      var rest := NerBatchesRun(tail, ner);
      assert batches[..1 + |rest.requests|] == [batches[0]] + tail[..|rest.requests|];
    }
  }

  /** The run ends normally exactly when no request fails. */
  lemma {:induction false} NerRunNormalEnd(batches: seq<string>, ner: string -> Result<seq<NerResponse>, PyError>)
    ensures NerBatchesRun(batches, ner).error.None? <==> forall k :: 0 <= k < |batches| ==> ner(batches[k]).Ok?
  {
    if batches != [] && ner(batches[0]).Ok? {
      var tail := batches[1..];
      NerRunNormalEnd(tail, ner);
      assert forall k :: 0 <= k < |tail| ==> tail[k] == batches[k + 1];
      if !(forall k :: 0 <= k < |tail| ==> ner(tail[k]).Ok?) {
        var k :| 0 <= k < |tail| && !ner(tail[k]).Ok?;
        assert !ner(batches[k + 1]).Ok?;
      }
    }
  }

  /** A run that ends with an exception ends with the one of its last
      request, and every request before it succeeded. */
  lemma {:induction false} NerRunFailure(batches: seq<string>, ner: string -> Result<seq<NerResponse>, PyError>)
    ensures var run := NerBatchesRun(batches, ner);
            run.error.Some? ==>
              run.requests != [] && ner(run.requests[|run.requests| - 1]) == Err(run.error.value)
              && forall k :: 0 <= k < |run.requests| - 1 ==> ner(run.requests[k]).Ok?
  {
    if batches != [] && ner(batches[0]).Ok? {
      var tail := batches[1..];
      NerRunFailure(tail, ner);
      var run := NerBatchesRun(batches, ner);
      var rest := NerBatchesRun(tail, ner);
      assert run.requests == [batches[0]] + rest.requests;
    }
  }

  /** When no request fails, the people are those of every batch, batch
      by batch. */
  lemma {:induction false} NerRunItems(batches: seq<string>, ner: string -> Result<seq<NerResponse>, PyError>)
    requires forall k :: 0 <= k < |batches| ==> ner(batches[k]).Ok?
    ensures NerBatchesRun(batches, ner).items
            == Flatten(seq(|batches|, k requires 0 <= k < |batches| => BatchPeople(batches[k], ner(batches[k]).value)))
  {
    if batches != [] {
      var tail := batches[1..];
      assert forall k :: 0 <= k < |tail| ==> tail[k] == batches[k + 1];
      NerRunItems(tail, ner);
      var f := seq(|batches|, k requires 0 <= k < |batches| => BatchPeople(batches[k], ner(batches[k]).value));
      assert f[1..] == seq(|tail|, k requires 0 <= k < |tail| => BatchPeople(tail[k], ner(tail[k]).value));
    }
  }

  /** Every person comes from a `PER` answer of its own batch. */
  lemma PeopleFromTheirBatch(text: string, batchSize: int, ner: string -> Result<seq<NerResponse>, PyError>, k: nat)
    requires batchSize > 0
    requires k < |NerPeopleRun(text, batchSize, ner).items|
    requires NerPeopleRun(text, batchSize, ner).error.None?
    ensures NerPeopleRun(text, batchSize, ner).items[k].source in Batches(text, batchSize)
  {
    var batches := Batches(text, batchSize);
    NerRunNormalEnd(batches, ner);
    NerRunItems(batches, ner);
    var parts := seq(|batches|, j requires 0 <= j < |batches| => BatchPeople(batches[j], ner(batches[j]).value));
    var i, m := FlattenIndex<Person>(parts, k);
    assert parts[i][m].source == batches[i];
  }

  /** Where element `k` of a flattened sequence comes from. */
  lemma {:induction false} FlattenIndex<T>(ss: seq<seq<T>>, k: nat) returns (i: nat, m: nat)
    requires k < |Flatten(ss)|
    ensures i < |ss| && m < |ss[i]| && Flatten(ss)[k] == ss[i][m]
  {
    if k < |ss[0]| {
      i, m := 0, k;
    } else {
      var i', m' := FlattenIndex(ss[1..], k - |ss[0]|);
      i, m := i' + 1, m';
    }
  }

  // ---------------------------------------------------------------- GPTPeople

  /** `GPTPerson`. */
  datatype GptPerson = GptPerson(name: string, company: string, position: string)

  /** `GPTResponseWithSource`. */
  datatype WithSource = WithSource(person: GptPerson, source: string)

  const Researcher: string := "researcher"

  const NoInputMessage: string := "Переменная {input} должна быть в промпте."

  /** A `GPTPeople` after its constructor. */
  datatype GptPeople = GptPeople(text: string, promptTemplate: string, batchSize: int, mode: string)

  /** The constructor: the prompt must contain `{input}`. */
  function NewGptPeople(text: string, promptTemplate: string, batchSize: int, mode: string): (r: Result<GptPeople, PyError>)
    ensures r.Err? <==> !Contains(promptTemplate, "{input}")
    ensures r.Err? ==> r.error == ValueError(NoInputMessage)
    ensures r.Ok? ==> r.value == GptPeople(text, promptTemplate, batchSize, mode)
  {
    if !Contains(promptTemplate, "{input}") then Err(ValueError(NoInputMessage))
    else Ok(GptPeople(text, promptTemplate, batchSize, mode))
  }

  /** The prompt sent for a batch: `prompt_template.format(input=batch)`. */
  function PromptFor(p: GptPeople, batch: string): string
  {
    Format(p.promptTemplate, map["input" := batch])
  }

  /** A constructed `GPTPeople` sends the batch inside every prompt. */
  lemma PromptHoldsBatch(p: GptPeople, batch: string)
    requires NewGptPeople(p.text, p.promptTemplate, p.batchSize, p.mode).Ok?
    ensures Contains(PromptFor(p, batch), batch)
  {
    var params := map["input" := batch];
    assert forall key :: key in params ==> key == "input";
    assert "{" + "input" + "}" == "{input}";
    FormatSubstitutes(p.promptTemplate, params, "input");
  }

  /** The people of one answer, each with the batch as its source. */
  function Sourced(people: seq<GptPerson>, batch: string): (r: seq<WithSource>)
    ensures |r| == |people|
    ensures forall k :: 0 <= k < |people| ==> r[k] == WithSource(people[k], batch)
  {
    seq(|people|, k requires 0 <= k < |people| => WithSource(people[k], batch))
  }

  /** `GPTPeople.iter()` as written: `found_leads` is only bound once
      researcher mode has yielded a person, so the test after the inner
      loop raises `UnboundLocalError` in every other case. */
  method GptPeopleIter(p: GptPeople, gpt: string -> Result<seq<GptPerson>, PyError>) returns (run: Run<WithSource>)
    ensures run == GptPeopleAsWritten(p, gpt)
  {
    var batches := Pipeline.RangeBatches(p.text, p.batchSize);
    if batches.Err? {
      return Run([], Some(batches.error), []);
    }
    var items: seq<WithSource> := [];
    var requests: seq<string> := [];
    var foundLeads: Option<bool> := None;
    // Every path through the body of `for batch in batches` leaves the
    // generator, so the loop runs for the first batch at most.
    if batches.value != [] {
      var batch := batches.value[0];
      var prompt := PromptFor(p, batch);
      requests := requests + [prompt];
      var answer := gpt(prompt);
      if answer.Err? {
        return Run(items, Some(answer.error), requests);
      }
      var people := answer.value;
      var j := 0;
      while j < |people|
        invariant 0 <= j <= |people|
        invariant foundLeads == None
        invariant p.mode == Researcher ==> j == 0
        invariant items == Sourced(people[..j], batch)
      {
        items := items + [WithSource(people[j], batch)];
        if p.mode == Researcher {
          foundLeads := Some(true);
          break;
        }
        j := j + 1;
      }
      if foundLeads.None? {
        assert people[..j] == people;
        return Run(items, Some(UnboundLocalError("found_leads")), requests);
      }
      // `found_leads` is only ever bound to `True`, and only in researcher
      // mode, so the test `found_leads and mode == researcher` always holds
      // here: the loop breaks, and nothing follows it.
      assert foundLeads == Some(true) && p.mode == Researcher;
      assert items == [WithSource(people[0], batch)];
      return Run(items, None, requests);
    }
    return Run(items, None, requests);
  }

  /** What `GPTPeople.iter()` as written does: at most the first batch
      is requested. Outside researcher mode it yields that batch's people
      and then raises `UnboundLocalError`; in researcher mode it yields
      the first person and stops, or raises `UnboundLocalError` when the
      first batch has nobody. Only an empty text (no batch at all) ends
      normally without a person. */
  function GptPeopleAsWritten(p: GptPeople, gpt: string -> Result<seq<GptPerson>, PyError>): Run<WithSource>
  {
    match Pipeline.RangeBatches(p.text, p.batchSize)
    case Err(e) => Run([], Some(e), [])
    case Ok(batches) =>
      if batches == [] then Run([], None, [])
      else
        var prompt := PromptFor(p, batches[0]);
        match gpt(prompt)
        case Err(e) => Run([], Some(e), [prompt])
        case Ok(people) =>
          if p.mode == Researcher && people != [] then Run([WithSource(people[0], batches[0])], None, [prompt])
          else Run(Sourced(people, batches[0]), Some(UnboundLocalError("found_leads")), [prompt])
  }

  /** With `found_leads = False` set before the loop, as evidently
      intended: every batch is requested in order until a request fails,
      or, in researcher mode, until the first person is yielded. */
  function GptBatchesIntended(p: GptPeople, batches: seq<string>, gpt: string -> Result<seq<GptPerson>, PyError>): Run<WithSource>
  {
    if batches == [] then Run([], None, [])
    else
      var prompt := PromptFor(p, batches[0]);
      match gpt(prompt)
      case Err(e) => Run([], Some(e), [prompt])
      case Ok(people) =>
        if p.mode == Researcher && people != [] then Run([WithSource(people[0], batches[0])], None, [prompt])
        else
          var rest := GptBatchesIntended(p, batches[1..], gpt);
          Run(Sourced(people, batches[0]) + rest.items, rest.error, [prompt] + rest.requests)
  }

  function GptPeopleIntended(p: GptPeople, gpt: string -> Result<seq<GptPerson>, PyError>): Run<WithSource>
  {
    match Pipeline.RangeBatches(p.text, p.batchSize)
    case Err(e) => Run([], Some(e), [])
    case Ok(batches) => GptBatchesIntended(p, batches, gpt)
  }

  /** The as-written generator fails after the first batch whenever it is
      not in researcher mode, or the first batch has nobody, though that
      batch was answered: the loop never reaches the second batch. */
  lemma FoundLeadsUnbound(p: GptPeople, gpt: string -> Result<seq<GptPerson>, PyError>)
    requires p.batchSize > 0 && p.text != []
    requires gpt(PromptFor(p, Batches(p.text, p.batchSize)[0])).Ok?
    requires p.mode != Researcher || gpt(PromptFor(p, Batches(p.text, p.batchSize)[0])).value == []
    ensures GptPeopleAsWritten(p, gpt).error == Some(UnboundLocalError("found_leads"))
    ensures |GptPeopleAsWritten(p, gpt).requests| == 1
  {
    BatchesShape(p.text, p.batchSize);
  }

  /** The intended generator never raises `UnboundLocalError`: it ends
      normally or with the exception of the batching or of a request. */
  lemma {:induction false} IntendedNeverUnbound(p: GptPeople, batches: seq<string>, gpt: string -> Result<seq<GptPerson>, PyError>)
    ensures var run := GptBatchesIntended(p, batches, gpt);
            run.error.None? || exists k :: 0 <= k < |run.requests| && gpt(run.requests[k]) == Err(run.error.value)
  {
    if batches != [] {
      var prompt := PromptFor(p, batches[0]);
      if gpt(prompt).Ok? && !(p.mode == Researcher && gpt(prompt).value != []) {
        var rest := GptBatchesIntended(p, batches[1..], gpt);
        IntendedNeverUnbound(p, batches[1..], gpt);
        if rest.error.Some? {
          var k :| 0 <= k < |rest.requests| && gpt(rest.requests[k]) == Err(rest.error.value);
          assert GptBatchesIntended(p, batches, gpt).requests[k + 1] == rest.requests[k];
        }
      } else {
        assert GptBatchesIntended(p, batches, gpt).requests[0] == prompt;
      }
    }
  }

  /** Outside researcher mode, when no request fails, the intended
      generator asks once per batch, in order, and yields every person of
      every batch, batch by batch, each with its batch as source. */
  lemma {:induction false} IntendedYieldsAll(p: GptPeople, batches: seq<string>, gpt: string -> Result<seq<GptPerson>, PyError>)
    requires p.mode != Researcher
    requires forall k :: 0 <= k < |batches| ==> gpt(PromptFor(p, batches[k])).Ok?
    ensures var run := GptBatchesIntended(p, batches, gpt);
            run.error.None?
            && run.requests == seq(|batches|, k requires 0 <= k < |batches| => PromptFor(p, batches[k]))
            && run.items == Flatten(seq(|batches|, k requires 0 <= k < |batches| => Sourced(gpt(PromptFor(p, batches[k])).value, batches[k])))
  {
    if batches != [] {
      var tail := batches[1..];
      assert forall k :: 0 <= k < |tail| ==> tail[k] == batches[k + 1];
      IntendedYieldsAll(p, tail, gpt);
      var f := seq(|batches|, k requires 0 <= k < |batches| => Sourced(gpt(PromptFor(p, batches[k])).value, batches[k]));
      assert f[1..] == seq(|tail|, k requires 0 <= k < |tail| => Sourced(gpt(PromptFor(p, tail[k])).value, tail[k]));
    }
  }

  /** In researcher mode the intended generator yields at most one person:
      the first person of the first batch that has one, after which no
      further batch is requested. */
  lemma {:induction false} IntendedResearcherStops(p: GptPeople, batches: seq<string>, gpt: string -> Result<seq<GptPerson>, PyError>)
    requires p.mode == Researcher
    ensures var run := GptBatchesIntended(p, batches, gpt);
            |run.items| <= 1 && |run.requests| <= |batches|
            && (run.items != [] ==>
                  run.error.None?
                  && var last := run.requests[|run.requests| - 1];
                  gpt(last).Ok? && gpt(last).value != [] && run.items[0].person == gpt(last).value[0])
  {
    if batches != [] {
      IntendedResearcherStops(p, batches[1..], gpt);
    }
  }

  // ---------------------------------------------------------------- GPTCSVRows

  /** `model.CSVRow`. */
  datatype CsvRow = CsvRow(name: string, source: string, position: string, searchedCompany: string,
                           inferencedCompany: string, originalUrl: string)

  /** The source with every `\n`, `\r` and `\t` replaced by a space. */
  function Flattened(source: string): (r: string)
  {
    ReplaceChar(ReplaceChar(ReplaceChar(source, '\n', ' '), '\r', ' '), '\t', ' ')
  }

  /** The flattened source has neither line breaks nor tabs and the same
      length, and only those characters changed. */
  lemma FlattenedSource(source: string)
    ensures |Flattened(source)| == |source|
    ensures forall k :: 0 <= k < |source| ==>
              Flattened(source)[k] == (if source[k] in {'\n', '\r', '\t'} then ' ' else source[k])
    ensures '\n' !in Flattened(source) && '\r' !in Flattened(source) && '\t' !in Flattened(source)
  {
    var r := Flattened(source);
    forall k | 0 <= k < |source|
      ensures r[k] == (if source[k] in {'\n', '\r', '\t'} then ' ' else source[k])
    {
    }
  }

  /** The row of one yielded person. */
  function RowOf(response: WithSource, company: string, url: string): CsvRow
  {
    CsvRow(response.person.name, Flattened(response.source), response.person.position, company,
           response.person.company, url)
  }

  /** `GPTCSVRows(people, url, searching_params).iter()` on a finished run
      of the people generator: one row per person, in order; the first row
      reads `searching_params["company"]`, so a missing key raises
      `KeyError` before any row when there is a person at all. The rows are
      made as the people come, so the requests are those of the run only
      when it has made them all by its first person, as the as-written
      generator has (`AsWrittenAsksOnce`); `CsvRowsIntended` is the lazy
      composition with the intended generator. */
  function CsvRowsRun(people: Run<WithSource>, url: string, searchingParams: map<string, string>): (r: Run<CsvRow>)
    ensures r.requests == people.requests
    ensures people.items != [] && "company" !in searchingParams ==> r.items == [] && r.error == Some(KeyError("company"))
    ensures people.items == [] || "company" in searchingParams ==>
              r.error == people.error && |r.items| == |people.items|
              && forall k :: 0 <= k < |people.items| ==> r.items[k] == RowOf(people.items[k], searchingParams["company"], url)
  {
    if people.items == [] then Run([], people.error, people.requests)
    else if "company" !in searchingParams then Run([], Some(KeyError("company")), people.requests)
    else Run(Map(people.items, (w: WithSource) => RowOf(w, searchingParams["company"], url)), people.error, people.requests)
  }

  /** The as-written generator asks at most once, so its first person, if
      any, comes from the batch of its only request. */
  lemma AsWrittenAsksOnce(p: GptPeople, gpt: string -> Result<seq<GptPerson>, PyError>)
    ensures var run := GptPeopleAsWritten(p, gpt);
            |run.requests| <= 1
            && (run.items != [] ==> run.requests == [PromptFor(p, run.items[0].source)])
  {
  }

  /** `GPTCSVRows(GPTPeople(…), url, searching_params).iter()` with the
      intended generator over `batches`, one step of one driving the other:
      each batch is requested only when the rows of the previous one are
      out, and a missing `company` raises `KeyError` at the first person,
      before any later batch is requested. */
  function CsvRowsIntended(p: GptPeople, batches: seq<string>, gpt: string -> Result<seq<GptPerson>, PyError>,
                           url: string, searchingParams: map<string, string>): Run<CsvRow>
  {
    if batches == [] then Run([], None, [])
    else
      var prompt := PromptFor(p, batches[0]);
      match gpt(prompt)
      case Err(e) => Run([], Some(e), [prompt])
      case Ok(people) =>
        if people == [] then
          var rest := CsvRowsIntended(p, batches[1..], gpt, url, searchingParams);
          Run(rest.items, rest.error, [prompt] + rest.requests)
        else if "company" !in searchingParams then Run([], Some(KeyError("company")), [prompt])
        else
          var company := searchingParams["company"];
          if p.mode == Researcher then Run([RowOf(WithSource(people[0], batches[0]), company, url)], None, [prompt])
          else
            var rest := CsvRowsIntended(p, batches[1..], gpt, url, searchingParams);
            Run(Map(Sourced(people, batches[0]), (w: WithSource) => RowOf(w, company, url)) + rest.items,
                rest.error, [prompt] + rest.requests)
  }

  /** With a `company` parameter the lazy composition makes the rows of
      every person the generator yields, in order, and the same requests
      and error. */
  lemma {:induction false} CsvRowsFollowPeople(p: GptPeople, batches: seq<string>, gpt: string -> Result<seq<GptPerson>, PyError>,
                                               url: string, searchingParams: map<string, string>)
    requires "company" in searchingParams
    ensures var r, ps := CsvRowsIntended(p, batches, gpt, url, searchingParams), GptBatchesIntended(p, batches, gpt);
            r.requests == ps.requests && r.error == ps.error && |r.items| == |ps.items|
            && forall k :: 0 <= k < |ps.items| ==> r.items[k] == RowOf(ps.items[k], searchingParams["company"], url)
  {
    if batches != [] {
      var prompt := PromptFor(p, batches[0]);
      if gpt(prompt).Ok? && !(p.mode == Researcher && gpt(prompt).value != []) {
        var people := gpt(prompt).value;
        var company := searchingParams["company"];
        CsvRowsFollowPeople(p, batches[1..], gpt, url, searchingParams);
        var rest, psRest := CsvRowsIntended(p, batches[1..], gpt, url, searchingParams), GptBatchesIntended(p, batches[1..], gpt);
        var head := Map(Sourced(people, batches[0]), (w: WithSource) => RowOf(w, company, url));
        assert CsvRowsIntended(p, batches, gpt, url, searchingParams).items == head + rest.items;
        assert GptBatchesIntended(p, batches, gpt).items == Sourced(people, batches[0]) + psRest.items;
        RowsOfConcat(Sourced(people, batches[0]), psRest.items, rest.items, company, url);
      }
    }
  }

  /** The rows of a block of people followed by rows already made for
      the people after it are the rows of all of them. */
  lemma RowsOfConcat(head: seq<WithSource>, tail: seq<WithSource>, rows: seq<CsvRow>, company: string, url: string)
    requires |rows| == |tail| && forall k :: 0 <= k < |tail| ==> rows[k] == RowOf(tail[k], company, url)
    ensures var all, ps := Map(head, (w: WithSource) => RowOf(w, company, url)) + rows, head + tail;
            |all| == |ps| && forall k :: 0 <= k < |ps| ==> all[k] == RowOf(ps[k], company, url)
  {
    var all, ps := Map(head, (w: WithSource) => RowOf(w, company, url)) + rows, head + tail;
    forall k | 0 <= k < |ps|
      ensures all[k] == RowOf(ps[k], company, url)
    {
      if k >= |head| {
        assert all[k] == rows[k - |head|] && ps[k] == tail[k - |head|];
      }
    }
  }

  /** Without a `company` parameter no row is made; when the generator
      yields anybody, the composition raises `KeyError` at its first person,
      after the requests up to and including that person's batch and no
      later one. */
  lemma {:induction false} CsvRowsStopAtFirstPerson(p: GptPeople, batches: seq<string>, gpt: string -> Result<seq<GptPerson>, PyError>,
                                                    url: string, searchingParams: map<string, string>)
    requires "company" !in searchingParams
    ensures var r, ps := CsvRowsIntended(p, batches, gpt, url, searchingParams), GptBatchesIntended(p, batches, gpt);
            r.items == []
            && (ps.items == [] ==> r.error == ps.error && r.requests == ps.requests)
            && (ps.items != [] ==>
                  r.error == Some(KeyError("company")) && |r.requests| >= 1 && r.requests <= ps.requests
                  && r.requests[|r.requests| - 1] == PromptFor(p, ps.items[0].source))
  {
    if batches != [] {
      var prompt := PromptFor(p, batches[0]);
      if gpt(prompt).Ok? && gpt(prompt).value == [] {
        EmptyBatchSkipped(p, batches, gpt, url, searchingParams);
        CsvRowsStopAtFirstPerson(p, batches[1..], gpt, url, searchingParams);
      } else if gpt(prompt).Ok? {
        FirstPersonBatch(p, batches, gpt, url, searchingParams);
      }
    }
  }

  /** A batch in which nobody is found adds its request to both runs and
      nothing else. */
  lemma EmptyBatchSkipped(p: GptPeople, batches: seq<string>, gpt: string -> Result<seq<GptPerson>, PyError>,
                          url: string, searchingParams: map<string, string>)
    requires batches != [] && gpt(PromptFor(p, batches[0])) == Ok([])
    ensures var rest, psRest := CsvRowsIntended(p, batches[1..], gpt, url, searchingParams), GptBatchesIntended(p, batches[1..], gpt);
            CsvRowsIntended(p, batches, gpt, url, searchingParams)
              == Run(rest.items, rest.error, [PromptFor(p, batches[0])] + rest.requests)
            && GptBatchesIntended(p, batches, gpt)
              == Run(psRest.items, psRest.error, [PromptFor(p, batches[0])] + psRest.requests)
  {
    assert Sourced([], batches[0]) == [];
  }

  /** Without a `company` parameter, a first batch in which somebody is
      found ends the rows with `KeyError` after its one request; the
      generator's first person comes from that batch. */
  lemma FirstPersonBatch(p: GptPeople, batches: seq<string>, gpt: string -> Result<seq<GptPerson>, PyError>,
                         url: string, searchingParams: map<string, string>)
    requires "company" !in searchingParams
    requires batches != [] && gpt(PromptFor(p, batches[0])).Ok? && gpt(PromptFor(p, batches[0])).value != []
    ensures CsvRowsIntended(p, batches, gpt, url, searchingParams) == Run([], Some(KeyError("company")), [PromptFor(p, batches[0])])
    ensures var ps := GptBatchesIntended(p, batches, gpt);
            ps.items != [] && ps.items[0].source == batches[0] && ps.requests != [] && ps.requests[0] == PromptFor(p, batches[0])
  {
    var people := gpt(PromptFor(p, batches[0])).value;
    assert GptBatchesIntended(p, batches, gpt).items[0] == WithSource(people[0], batches[0]);
  }

  /** Every row copies the person's name, position and company, takes the
      searched company and the URL from the parameters, and has a source
      without line breaks or tabs. */
  lemma CsvRowFields(response: WithSource, company: string, url: string)
    ensures var row := RowOf(response, company, url);
            row.name == response.person.name && row.position == response.person.position
            && row.inferencedCompany == response.person.company
            && row.searchedCompany == company && row.originalUrl == url
            && |row.source| == |response.source|
            && '\n' !in row.source && '\r' !in row.source && '\t' !in row.source
  {
    FlattenedSource(response.source);
  }
}
