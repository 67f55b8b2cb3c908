# hubase lead pipeline and job session, modelled in Dafny

hubase finds people who work at a list of companies. It searches the web
for the companies' pages, cuts each page's text into batches, asks a
named-entity service (HuggingFace NER) or GPT for the people in each batch,
and decorates every person found. The decorators add the text around the
word, the person's company and their position. The results are streamed to
a browser as CSV rows over a WebSocket.

This project models the deterministic core of that pipeline and of the web
client that drives it. Every remote service is a function-typed parameter:
Google, HuggingFace, OpenAI, the LLM that answers questions, and
`json.loads`.

- **Query compiler.** The search-query template compiler
  (`SearchQueries`) is modelled with its regex-based validation and the
  order of three nested loops.
- **Search helpers.** The query strings of `GoogleClient`, `SearchPage`
  and the two `get_url` variants, and the company/site traversal and URL
  buffer of `SearchPage`.
- **API.** The search-query tester, the access checks, and the
  row-streaming loop of the WebSocket endpoint.
- **Pipeline steps.** Batching, `decode_json`, `decode_ner` and
  `extend_json`.
- **Classifiers.** The two buffered classifying iterators, the NER and GPT
  people generators (including researcher mode) and the GPT CSV row
  mapping.
- **Decorators.** `WithSource`, `OnlyPeople`, `WithCompany` and
  `WithPosition`, in both variants. They update the same dictionary in
  place, modelled as a `Dict` object.
- **Prompt objects.** `InMemoryPrompt` and `Cached`.
- **Web client.** The `CreateCsvForm` job session: template test, submit,
  socket callbacks and reset. Also the `PromptForm` preferences: validation,
  startup seeding, update and reset. `localStorage` is a `Store` object;
  server replies and socket messages are inputs.

Some behaviours of the code that the model keeps:

- A whole job gives four log lines in the browser: connected, sent, the server's own lines, and closed.
- The startup of the prompt form never writes the store: a prompt fetched from the server goes only to the field and the job form.
- The reset button is disabled when there are no rows or while loading, whatever the job's outcome.
- Resetting a prompt does not change the prompt the job form sends until the page is reloaded or the prompt is updated.

Generators are modelled as whole runs. A run is the items yielded, the
requests made and the exception that ended it, if any.

Modules, one per source file or concern:

- **Shared:** `Wrappers` (Option, Result), `Seqs` (flattening), `Text`
  (Python string operations), `PyValues` (JSON values, in-place dicts,
  inner iterators), `Browser`.
- **Back end:** `Google`, `Queries`, `Api`, `SearchPages`, `Pipeline`,
  `LegacyMain`, `Classifications`, `People`, `Annotations` (what the
  decorators share), `Decorators`, `NerDecorators`, `Prompts`.
- **Web client:** `JobSession`, `PromptForms`.

## Model

| member | source | states |
|---|---|---|
| Google.SearchQueryText | hubase/src/google_client.py:12-21 | a non-empty site gives `"company" AND site:site AND (positions)`, an empty site gives `"company" AND (positions)` |
| Google.QuotedOrSmall | hubase/src/google_client.py:11-17 | an empty position list gives the clause `()`; one position gives just that position in double quotes |
| Google.QuotedOrHasEach | hubase/src/google_client.py:17 | every position appears double-quoted in the `OR` clause |
| Text.JoinSplit | web_ui/src/components/CreateCsvForm.tsx:123-125 | joining the pieces of `split(c)` with `c` gives the text back |
| Text.SplitPieces | web_ui/src/components/CreateCsvForm.tsx:123-125 | no piece of `split(c)` contains `c` |
| Text.Split | web_ui/src/components/CreateCsvForm.tsx:123-125 | `split` always gives at least one piece, `[""]` for the empty text |
| Text.StripIsTrim | hubase/src/word_classifications/ner/with_source.py:21 | `strip()` is the slice left after cutting leading and trailing whitespace, and starts and ends with no whitespace |
| Text.StripIdempotent | hubase/src/word_classifications/ner/with_source.py:21 | stripping twice is stripping once |
| Text.ReplaceChar | hubase/src/word_classifications/ner/with_source.py:21 | `replace` of one character keeps the length and changes exactly the occurrences |
| Text.PyIndex | hubase/src/word_classifications/with_source.py:15 | a Python slice bound, negative ones counted from the end, lands within the text |
| Text.PySliceWithin | hubase/src/word_classifications/with_source.py:15 | a Python slice is always a contiguous part of the text |
| Text.BatchesConcat | hubase/src/word_classifications/word_classifications.py:48-52 | the batches concatenate to the text |
| Text.BatchesShape | hubase/src/word_classifications/word_classifications.py:48-52 | there are no batches exactly for the empty text; each has 1 to `batch_size` characters and all but the last exactly `batch_size` |
| Text.FormatSubstitutes | hubase/src/prompt/in_memory.py:18-19 | `format` puts the value of every named field the template holds into the result |
| Queries.LazyClose | hubase/src/search_queries.py:52 | a lazy `{.+?}` match closes at the first `}` after its start, with no `}` and no line break in between |
| Queries.Create | hubase/src/search_queries.py:19-33 | construction fails exactly when validation refuses the template; otherwise it keeps the template and lists, replaces an empty site list by `[""]` and records whether `{positions}` occurs |
| Queries.SiteQueries | hubase/src/search_queries.py:40-49 | the innermost loop yields one query per position, in order |
| Queries.CompanyQueriesLength | hubase/src/search_queries.py:39-49 | one company yields sites × positions queries |
| Queries.AllQueriesLength | hubase/src/search_queries.py:37-49 | all companies yield companies × sites × positions queries |
| Queries.CompileSite | hubase/src/search_queries.py:40-49 | the innermost loop computes exactly the queries of the specification function |
| Queries.CompileCompany | hubase/src/search_queries.py:39-49 | the middle loop computes one block per site, in site order |
| Queries.Compiled | hubase/src/search_queries.py:35-49 | `compiled()` yields exactly the specified sequence of queries |
| Queries.CompanyQueriesAt | hubase/src/search_queries.py:39-49 | within one company, the query for site `si` and position `pi` is at index `si·P + pi` |
| Queries.AllQueriesAt | hubase/src/search_queries.py:37-49 | the block of company `ci` starts at index `ci·S·P` |
| Queries.CompiledOrder | hubase/src/search_queries.py:35-49 | company outermost, site in the middle, position innermost: the query for `(ci, si, pi)` is at `(ci·S + si)·P + pi` and renders those three values |
| Queries.CompiledCount | hubase/src/search_queries.py:23-72 | the count is companies × max(1, sites) × (1 with `{positions}`, else the number of positions) |
| Queries.PositionsCollapse | hubase/src/search_queries.py:67-72 | with `{positions}` the positions collapse to `"(" + " OR ".join(positions) + ")"`, which is `()` for none; without it an empty position list compiles to no queries |
| Queries.QueryParams | hubase/src/search_queries.py:41-48 | every query's parameters have exactly the keys `company`, `site` and the active position key, with `site:<site>` or `""`, and its text is the template formatted with them |
| Queries.CreatedShape | hubase/src/search_queries.py:23-33 | an accepted template has a non-empty site list, the right position key, and does not name both position forms |
| Queries.MatchesShape | hubase/src/search_queries.py:52 | every regex match is a one-line `{…}` piece of the template, at least three characters long |
| Queries.LazyCloseAt | hubase/src/search_queries.py:52 | the first `}` with no line break before it is where the lazy match ends |
| Queries.MatchesSuffix | hubase/src/search_queries.py:52 | scanning from an earlier point with no `{` in between finds the same matches |
| Queries.OverrunNotAllowed | hubase/src/search_queries.py:17 | a match that runs over a later `{` is never an allowed placeholder |
| Queries.AllowedHaveOneOpen | hubase/src/search_queries.py:17 | each allowed placeholder has its only `{` at its start |
| Queries.ScanFinds | hubase/src/search_queries.py:52-55 | when every match is allowed, every one-line `{x}` with no inner brace is allowed |
| Queries.AcceptedPlaceholdersAllowed | hubase/src/search_queries.py:51-59 | an accepted template contains no placeholder outside `{company}`, `{site}`, `{positions}`, `{position}` |
| Queries.BothFormsRefused | hubase/src/search_queries.py:61-65 | a template naming both `{positions}` and `{position}` is refused |
| Queries.UnknownVariableRefused | hubase/tests/test_search_queries.py:89-92 | every template naming `{abracadabra}` is refused, whatever text surrounds it and whatever the lists |
| Api.QueryTexts | hubase/src/api/api.py:165 | the response lists each query's text, in order |
| Api.CompileErrorIffRefused | hubase/src/api/api.py:160-163 | the tester answers `error` exactly when construction on the example lists refuses the template, carrying that refusal |
| Api.CompileSuccessShape | hubase/src/api/api.py:157-166 | on success the tester returns 4 or 8 queries in compiled order, each the template formatted with its example values |
| Api.ExampleCompiled | hubase/src/api/api.py:157-166 | a template the tester accepts is compiled over the two example companies and sites, and one position group or two positions, so 4 or 8 queries |
| Api.Handled | hubase/src/api/api.py:109-115 | HuggingFace and Mistral errors become HTTP 403; anything else propagates |
| Api.GetCsv | hubase/src/api/api.py:118-133 | a wrong token gives 404; a granted request whose work succeeds gives the static results link |
| Api.GetCsvDeniedBeforeWork | hubase/src/api/api.py:120-122 | a wrong token's answer does not depend on the pipeline at all, and is 404 |
| Api.GetCsvLink | hubase/src/api/api.py:133 | a granted link ends with the file name and starts with `http://host:port/static/results/` |
| Api.ToCsvRow | hubase/src/api/api.py:95-103 | a row converts exactly when it has the six keys and the link is text; the DTO copies those fields and the link |
| Api.StreamStep | hubase/src/api/api.py:89-106 | one loop step: a converted item is sent before the rest, one that fails ends the stream |
| Api.HandleSocket | hubase/src/api/api.py:56-108 | the handler's loop sends exactly the rows, and ends exactly as, the specification function says |
| Api.SocketDenied | hubase/src/api/api.py:61-64 | a wrong token sends no row and closes |
| Api.StreamRows | hubase/src/api/api.py:88-106 | the k-th row sent is item k converted, and carries the first item as its download link |
| Api.StreamComplete | hubase/src/api/api.py:82-108 | when every item converts, one row is sent per item and exhaustion closes the socket |
| Api.SocketRowsInOrder | hubase/src/api/api.py:88-108 | with the right token, row k is generator item k + 1 with item 0's link |
| SearchPages.PageQueryText | hubase/src/search_page.py:39-48 | the query is `"company"`, then the positions clause only for non-empty positions, then `site:s` only for a non-empty site, joined by ` AND ` |
| SearchPages.CompanyTargets | hubase/src/search_page.py:31-37 | one company's targets are its sites in list order |
| SearchPages.FirstHit | hubase/src/search_page.py:27-51 | the first target whose search returns URLs, every earlier one returning none |
| SearchPages.NoHitsFirstHit | hubase/src/search_page.py:27-29 | targets that all return nothing have no first hit |
| SearchPages.NoHitsExtend | hubase/src/search_page.py:27-51 | a search returning no URLs just advances |
| SearchPages.FirstHitIs | hubase/src/search_page.py:27-51 | the first target with URLs after targets without is the first hit |
| SearchPages.PendingAdvance | hubase/src/search_page.py:36-37 | taking the next site leaves the rest of the traversal |
| SearchPages.PendingNextCompany | hubase/src/search_page.py:31-33 | after the last site the traversal continues with the next company's first site |
| SearchPages.PendingNonEmpty | hubase/src/search_page.py:28 | the traversal is not over while a site or a company remains |
| SearchPages.PendingDone | hubase/src/search_page.py:28 | no company and no site left means nothing pending |
| SearchPages.SearchPage.constructor | hubase/src/search_page.py:13-21 | needs a company and a site; the traversal is every company's sites in order |
| SearchPages.SearchPage.SearchNextTarget | hubase/src/search_page.py:31-51 | one search: the next target becomes current, its query is built and its URLs are appended |
| SearchPages.SearchPage.Refill | hubase/src/search_page.py:27-51 | the loop searches to the first target with URLs, or exhausts everything |
| SearchPages.SearchPage.Next | hubase/src/search_page.py:26-58 | URLs come out first in, first out with the search's site, company and positions; a buffered call keeps the current site, company and query, a refill makes them the searched pair's; StopIteration only when nothing remains |
| SearchPages.TwoFromOneSearch | hubase/src/search_page.py:26-58 | two calls on an empty buffer give the first two URLs of the first productive search, both with its site, company and positions |
| SearchPages.AllTargetsAt | hubase/src/search_page.py:31-37 | target `ci·|sites| + si` is company `ci` with site `si` |
| SearchPages.AllTargetsLength | hubase/src/search_page.py:31-37 | there are companies × sites targets |
| Pipeline.RangeBatchesShape | hubase/src/main.py:131-135 | batch size 0 raises; a negative size gives `[]`; otherwise the batches concatenate to `md`, all but the last have `batch_size` characters and the last is non-empty |
| Pipeline.GetMdBatches | hubase/src/main.py:131-135 | the loop computes exactly the batches of the specification function |
| Pipeline.DecodeJson | hubase/src/main.py:200-205 | `data["results"]` for an object that has it, the fallback row for non-JSON or a missing key, and an error for JSON that is not an object |
| Pipeline.DecodeJsonResults | src/main.py:64-67 | `{"results": rows}` decodes to `rows` unchanged |
| Pipeline.DecodeJsonNotJson | hubase/src/main.py:204-205 | non-JSON gives `[{"name": input, "position": ""}]` |
| Pipeline.DecodeJsonNotObject | src/main.py:66-68 | a JSON list is an error, not the fallback |
| Pipeline.NerRecord | hubase/src/main.py:213-220 | a person's record has exactly five keys: name = word, position `-`, the company, the link and the source |
| Pipeline.Persons | hubase/src/main.py:209 | the filter keeps only `PER` entities |
| Pipeline.DecodeNer | hubase/src/main.py:208-222 | the loop computes exactly the specification function's records |
| Pipeline.NerSpecSnoc | hubase/src/main.py:212-220 | one more choice adds its record, or its error |
| Pipeline.DecodeNerErrSticks | hubase/src/main.py:208-222 | once a choice fails, the result is that failure |
| Pipeline.DecodeNerKeepsPersons | hubase/src/main.py:208-222 | decoding succeeds exactly for well-formed choices, and then gives one record per `PER` entity, in order |
| Pipeline.DecodeNerOkIffWellFormed | hubase/src/main.py:208-222 | decoding raises no `KeyError` exactly when every answer has `entity_group` and every person `word` and `source` |
| Pipeline.DecodeNerRowsArePersons | hubase/src/main.py:208-222 | on well-formed answers each row is the record of the matching `PER` answer, in order, with position `-` |
| Pipeline.Extended | hubase/src/main.py:226-228 | `company` and `link` are set and every other key is unchanged |
| Pipeline.ExtendedIdempotent | src/main.py:72-76 | extending twice is extending once |
| Pipeline.ExtendJson | hubase/src/main.py:225-229 | every dict is updated in place and the same list is returned |
| Pipeline.UrlQuery | hubase/src/main.py:114-117 | the with-site query exactly when the site is not `""` |
| Pipeline.GetUrl | hubase/src/main.py:112-119 | the first search result for that query, if any |
| Pipeline.UrlQuerySiteClause | hubase/src/main.py:17-22 | the site clause is inserted after the company, and the queries differ exactly when the site is not `""` |
| LegacyMain.LegacyQuery | src/main.py:31-36 | the site clause is left out exactly when `site is None` |
| LegacyMain.LegacyGetUrl | src/main.py:31-38 | the first search result for that query, if any |
| LegacyMain.LegacySiteClause | src/main.py:33-36 | an empty site string still gives a site clause, unlike the newer `get_url` |
| Classifications.TaggedShape | hubase/src/word_classifications/word_classifications.py:41-42 | every answer gets `original_text` = its batch and keeps its other keys; a non-object answer is a TypeError |
| Classifications.TagBatch | hubase/src/word_classifications/word_classifications.py:41-42 | the tagging loop computes exactly the specification function |
| Classifications.TaggedErrSticks | hubase/src/word_classifications/word_classifications.py:41-42 | once an answer fails, tagging fails with it |
| Classifications.NextFilled | hubase/src/word_classifications/word_classifications.py:27-32 | the next batch whose answer is not empty, every batch skipped answering `[]` |
| Classifications.NextFilledPending | hubase/src/word_classifications/word_classifications.py:27-44 | the answers still to come are those of the next non-empty batch, then the rest |
| Classifications.FillBuffer | hubase/src/word_classifications/word_classifications.py:27-44 | the refill loop requests batches in index order up to the next non-empty answer |
| Classifications.Advance | hubase/src/word_classifications/word_classifications.py:26-46 | one `__next__` computes exactly the specified item, buffer and batch index |
| Classifications.NextSpecCases | hubase/src/word_classifications/word_classifications.py:26-46 | buffered items come first; StopIteration only with an empty buffer and all batches used; an error is the last requested batch's, with the index already advanced |
| Classifications.NextSpecFifo | hubase/src/word_classifications/word_classifications.py:44-46 | items come out first in, first out: the item and the new queue make up the old queue |
| Classifications.HuggingFaceReply | hubase/src/word_classifications/word_classifications.py:61-65 | a response with `error` raises HuggingFaceException with it; a list without it is the answers |
| Classifications.WordClassifications.New | hubase/src/word_classifications/word_classifications.py:17-21 | the batches are those of the text, an empty buffer and index 0 |
| Classifications.WordClassifications.constructor | hubase/src/word_classifications/word_classifications.py:19-21 | empty buffer, batch index 0 |
| Classifications.WordClassifications.Next | hubase/src/word_classifications/word_classifications.py:26-46 | the object's `__next__` follows the specification and keeps every requested batch requested once, in order |
| Classifications.ParseGptResponse | hubase/src/word_classifications/word_classifications_with_gpt.py:71-87 | empty text and text not bracketed by `[`…`]` are ValueErrors; it is the parsed value only when that is a list; a decode error propagates |
| Classifications.CallGptParsesCompletion | hubase/src/word_classifications/word_classifications_with_gpt.py:49-69 | the completion is parsed, and a client exception is re-raised unchanged |
| Classifications.WordClassificationsWithGpt.constructor | hubase/src/word_classifications/word_classifications_with_gpt.py:12-18 | no batches until `__iter__` |
| Classifications.WordClassificationsWithGpt.Iter | hubase/src/word_classifications/word_classifications_with_gpt.py:21-23 | `__iter__` builds the batches; batch size 0 raises |
| Classifications.WordClassificationsWithGpt.Next | hubase/src/word_classifications/word_classifications_with_gpt.py:25-41 | the same buffered behaviour as the NER iterator, with the GPT responder |
| People.BatchPeople | hubase/src/word_classifications/ner/people.py:33-37 | every person found in a batch has that batch as its source |
| People.BatchPeopleNames | hubase/src/word_classifications/ner/people.py:33-37 | one person per `PER` answer, in order, named after its word |
| People.PerOnly | hubase/src/word_classifications/ner/people.py:43-44 | only `PER` answers pass |
| People.NerRunRequests | hubase/src/word_classifications/ner/people.py:24-32 | the requests are the batches, in order, each at most once; all of them when nothing fails |
| People.NerRunNormalEnd | hubase/src/word_classifications/ner/people.py:24-37 | the run ends normally exactly when every batch's call succeeds |
| People.NerRunFailure | hubase/src/word_classifications/ner/people.py:24-32 | a failing run stops at the first failing call, with its error |
| People.NerRunItems | hubase/src/word_classifications/ner/people.py:23-37 | the people come out batch by batch, then in answer order |
| People.PeopleFromTheirBatch | hubase/src/word_classifications/ner/people.py:39-41 | every person's source is one of the text's batches |
| People.NewGptPeople | hubase/src/word_classifications/gpt/people.py:40-50 | a prompt without `{input}` raises ValueError |
| People.PromptHoldsBatch | hubase/src/word_classifications/gpt/people.py:57 | the prompt sent for a batch contains the batch |
| People.Sourced | hubase/src/word_classifications/gpt/people.py:58-61 | every result carries its batch as source |
| People.GptPeopleIter | hubase/src/word_classifications/gpt/people.py:55-71 | the generator as written, including the unbound `found_leads` |
| People.FoundLeadsUnbound | hubase/src/word_classifications/gpt/people.py:62-66 | outside researcher mode, or in researcher mode after a batch with nobody, the first batch ends in UnboundLocalError |
| People.IntendedNeverUnbound | hubase/src/word_classifications/gpt/people.py:55-67 | the intended generator only fails with a service error |
| People.IntendedYieldsAll | hubase/src/word_classifications/gpt/people.py:55-61 | outside researcher mode every batch is sent once, in order, and every person is yielded with its batch |
| People.IntendedResearcherStops | hubase/src/word_classifications/gpt/people.py:62-67 | researcher mode stops right after the first person found |
| People.FlattenedSource | hubase/src/word_classifications/gpt/csv_rows.py:20-22 | `\n`, `\r` and `\t` become spaces; the length is unchanged and none remain |
| People.CsvRowsRun | hubase/src/word_classifications/gpt/csv_rows.py:16-27 | on a run that has made all its requests by its first person: one row per person, in order, with the same requests and error; a missing `company` parameter raises KeyError at the first person |
| People.AsWrittenAsksOnce | hubase/src/word_classifications/gpt/people.py:55-67 | the as-written generator makes at most one request, and its first person comes from that request's batch, so `CsvRowsRun` applies to it |
| People.CsvRowsFollowPeople | hubase/src/word_classifications/gpt/csv_rows.py:16-27 | with a `company` parameter, the rows made lazily over the intended generator are its people's rows, in order, with its requests and its error |
| People.CsvRowsStopAtFirstPerson | hubase/src/word_classifications/gpt/csv_rows.py:17-24 | without a `company` parameter no row is made; when the generator yields anybody, KeyError is raised at the first person, after the requests up to that person's batch and none later |
| People.CsvRowFields | hubase/src/word_classifications/gpt/csv_rows.py:18-27 | name, position and company come from the person; the searched company and URL from the parameters |
| Annotations.CleanedShape | hubase/src/word_classifications/ner/with_source.py:21 | the window text is stripped, has no `\n` or `\t`, and otherwise keeps its characters |
| Annotations.ClampedLow | hubase/src/word_classifications/ner/with_source.py:18 | the window starts at 0 or later, and no more than 100 before the word |
| Annotations.ClampedHigh | hubase/src/word_classifications/ner/with_source.py:19 | the window ends within the text, and no more than 100 after the word |
| Annotations.ClampedWindowWithin | hubase/src/word_classifications/ner/with_source.py:18-21 | the window is a slice of the text of length at most `end - start + 200`, and holds the word |
| Annotations.UnclampedLosesWord | hubase/src/word_classifications/with_source.py:13-15 | for `0 <= start < 100` in a long enough text the unclamped window is empty, while the clamped one holds the word |
| Annotations.UnclampedSource | hubase/src/word_classifications/with_source.py:13-15 | the source is computed exactly when `start`, `end` and `original_text` are readable, failing on the first unreadable one in that order |
| Annotations.ClampedSource | hubase/src/word_classifications/ner/with_source.py:18-21 | the same, in the order `start`, `original_text`, `end` |
| Annotations.ClampedSourceShape | hubase/src/word_classifications/ner/with_source.py:18-21 | the clamped source is stripped, has no `\n` or `\t` and its length is at most `end - start + 200` |
| Annotations.UnclampedSourceShape | hubase/src/word_classifications/with_source.py:15 | the unclamped source is stripped, has no `\n` or `\t`, and is no longer than the text |
| Annotations.ScanFrom | hubase/src/word_classifications/only_people.py:12-16 | the scan stops at a `PER` item that has a word, or at an error |
| Annotations.ScanSkips | hubase/src/word_classifications/only_people.py:12-16 | every item before the stop is not a person; a failure is a missing `entity_group`, or a person without `word` |
| Annotations.Named | hubase/src/word_classifications/only_people.py:15 | `name` is set to `word` and nothing else changes |
| Annotations.PeopleRunIsFilter | hubase/src/word_classifications/only_people.py:11-16 | repeated `__next__` gives exactly the people, named, in their order |
| Annotations.NonPeopleDropped | hubase/src/word_classifications/only_people.py:12-14 | items that are not people are consumed and dropped |
| Annotations.NextPerson | hubase/src/word_classifications/only_people.py:11-16 | one `__next__` consumes up to and including the next person, returns that same dict with `name` set, and changes no other dict |
| Annotations.AskAbout | hubase/src/word_classifications/with_company.py:20-23 | a non-`PER` item raises RuntimeError, a missing `word` or `source` its KeyError; for a person the outcome is the LLM client's, answer or exception, on the prompt formatted with its word and source |
| Annotations.AskedPromptMentions | hubase/src/word_classifications/with_company.py:23 | a prompt with `{person}` and `{context}` sends the person's word and source |
| Annotations.NextAnnotated | hubase/src/word_classifications/with_source.py:11-16 | the next inner item is updated in place at one key and returned; an error leaves it unchanged |
| Annotations.NextAsked | hubase/src/word_classifications/ner/with_position.py:19-24 | the next item gets the answer to the cached prompt at one key; nothing else changes |
| Decorators.WithSource.Iter | hubase/src/word_classifications/with_source.py:8-9 | `__iter__` returns the decorator |
| Decorators.WithSource.Next | hubase/src/word_classifications/with_source.py:11-16 | only `source` is written, with the unclamped window; exhaustion propagates |
| Decorators.OnlyPeople.Next | hubase/src/word_classifications/only_people.py:11-16 | the next person, named; earlier non-people consumed |
| Decorators.OnlyPeople.Iter | hubase/src/word_classifications/only_people.py:8-9 | `__iter__` returns the decorator |
| Decorators.WithCompany.Iter | hubase/src/word_classifications/with_company.py:15-17 | `__iter__` calls the inner `__iter__` once and returns itself |
| Decorators.WithCompany.Next | hubase/src/word_classifications/with_company.py:19-24 | one item out per item in; only `inferenced_company` changes; a non-person raises RuntimeError |
| Decorators.PositionQueryMentions | hubase/src/word_classifications/with_position.py:6-9 | the fixed question asked holds the person's word and source |
| Decorators.WithPosition.Iter | hubase/src/word_classifications/with_position.py:15-16 | `__iter__` returns the decorator |
| Decorators.WithPosition.Next | hubase/src/word_classifications/with_position.py:18-23 | only `position` changes, to the answer to the fixed question; a non-person raises RuntimeError |
| NerDecorators.WithSource.Iter | hubase/src/word_classifications/ner/with_source.py:11-13 | `__iter__` calls the inner `__iter__` once and returns itself |
| NerDecorators.WithSource.Next | hubase/src/word_classifications/ner/with_source.py:15-22 | only `source` is written, with the clamped window |
| NerDecorators.Logger.Info | hubase/src/word_classifications/ner/only_people.py:21 | a log line is appended |
| NerDecorators.OnlyPeople.Iter | hubase/src/word_classifications/ner/only_people.py:13-15 | `__iter__` calls the inner `__iter__` once and returns itself |
| NerDecorators.OnlyPeople.Next | hubase/src/word_classifications/ner/only_people.py:17-23 | the next person, named, and one log line naming its word |
| NerDecorators.WithPosition.Iter | hubase/src/word_classifications/ner/with_position.py:15-17 | `__iter__` calls the inner `__iter__` once and returns itself |
| NerDecorators.WithPosition.Next | hubase/src/word_classifications/ner/with_position.py:19-24 | only `position` changes, to the answer to the cached prompt; a non-person raises RuntimeError |
| Prompts.InMemoryPrompt.Get | hubase/src/prompt/in_memory.py:8-9 | the text last stored |
| Prompts.InMemoryPrompt.Update | hubase/src/prompt/in_memory.py:11-13 | the text is replaced and returned |
| Prompts.InMemoryPrompt.Compile | hubase/src/prompt/in_memory.py:18-19 | the text formatted with the named parameters |
| Prompts.InMemoryPrompt.GetAndCompile | hubase/src/prompt/in_memory.py:15-16 | the stored text, compiled |
| Prompts.GetBeforeUpdate | hubase/src/prompt/in_memory.py:5-9 | `get` returns the constructor's text until an update |
| Prompts.UpdateTwice | hubase/src/prompt/in_memory.py:11-13 | after `update(p)` every `get` gives `p`; updating twice is updating once |
| Prompts.Cached.constructor | hubase/src/prompt/cached.py:8-10 | nothing cached yet |
| Prompts.Cached.Get | hubase/src/prompt/cached.py:12-16 | the cached text once there is one, the inner text before; the cache is not filled |
| Prompts.Cached.Update | hubase/src/prompt/cached.py:18-21 | the inner prompt is updated, then the text is cached and returned |
| Prompts.Cached.GetAndCompile | hubase/src/prompt/cached.py:23-24 | the inner prompt compiles the text `get` gives |
| Prompts.Cached.Compile | hubase/src/prompt/cached.py:26-27 | compiling is the inner prompt's |
| Prompts.CachedFollowsInner | hubase/src/prompt/cached.py:12-16 | before any update `get` follows the inner prompt, even when the inner text changes |
| Prompts.CachedHidesInner | hubase/src/prompt/cached.py:13-20 | after `update(p)`, `get` gives `p` whatever the inner prompt later holds |
| Browser.Store.GetItem | web_ui/src/components/PromptForm.tsx:57 | `null` exactly for an absent key, else the stored text |
| Browser.Store.SetItem | web_ui/src/components/PromptForm.tsx:98 | the key is set and nothing else changes |
| JobSession.Logged | web_ui/src/components/CreateCsvForm.tsx:72-74 | the message goes in front, the log grows by one and nothing else changes |
| JobSession.Tested | web_ui/src/components/CreateCsvForm.tsx:80-109 | `error` clears the compiled queries and sets the field error; `success` stores the server's list; only `success` passes; `loading` ends false in every case |
| JobSession.Received | web_ui/src/components/CreateCsvForm.tsx:149-168 | unparsable data adds one log line; `csv_row` appends a row with the next id and sets the link; `log` prepends its text; other types change nothing |
| JobSession.ErrorSeen | web_ui/src/components/CreateCsvForm.tsx:170-172 | an error only logs and leaves `loading` as it was |
| JobSession.ClosedSeen | web_ui/src/components/CreateCsvForm.tsx:174-177 | closing turns `loading` off and logs a closing line |
| JobSession.Cleared | web_ui/src/components/CreateCsvForm.tsx:181-184 | rows and link go, logs stay, and neither the link nor the reset button is offered after |
| JobSession.ReceivedKeepsIdsFresh | web_ui/src/components/CreateCsvForm.tsx:158-163 | a new row's id is above every earlier one |
| JobSession.LineOf | web_ui/src/components/CreateCsvForm.tsx:150-166 | a message gives at most one log line |
| JobSession.StreamRows | web_ui/src/components/CreateCsvForm.tsx:158-163 | over a whole stream, rows are appended at the tail in arrival order, and `loading` is untouched |
| JobSession.StreamLogs | web_ui/src/components/CreateCsvForm.tsx:150-166 | over a whole stream, log lines go in front, newest first |
| JobSession.StreamLink | web_ui/src/components/CreateCsvForm.tsx:161 | the download link is that of the last row received |
| JobSession.StreamKeepsIdsFresh | web_ui/src/components/CreateCsvForm.tsx:158-163 | row ids stay increasing across a whole stream |
| JobSession.PayloadRoundTrip | web_ui/src/components/CreateCsvForm.tsx:122-134 | the lists are the text areas split on `\n`: joined back they give the text, and no item holds a line break; template, token and prompts go as typed |
| JobSession.DefaultInput | web_ui/src/components/CreateCsvForm.tsx:51-60 | the credentials come from the store, an absent one as `""`; two leads, sites not excluded |
| JobSession.CreateCsvForm.constructor | web_ui/src/components/CreateCsvForm.tsx:63-70 | empty logs, rows and link, not loading |
| JobSession.CreateCsvForm.LogMessage | web_ui/src/components/CreateCsvForm.tsx:72-74 | the state becomes `Logged` of the old state; the row ids stay fresh (`Valid`) |
| JobSession.CreateCsvForm.TestSearchQuery | web_ui/src/components/CreateCsvForm.tsx:80-109 | the state and answer are `Tested` of the old state; the row ids stay fresh (`Valid`) |
| JobSession.CreateCsvForm.SubmitWs | web_ui/src/components/CreateCsvForm.tsx:112-140 | a failed test writes no storage and opens no socket; otherwise the credentials are stored, a socket is opened for the payload, `loading` turns on and a line is logged; the row ids stay fresh (`Valid`) |
| JobSession.CreateCsvForm.OnOpen | web_ui/src/components/CreateCsvForm.tsx:144-147 | a line is logged and the payload is sent once; the row ids stay fresh (`Valid`) |
| JobSession.CreateCsvForm.OnMessage | web_ui/src/components/CreateCsvForm.tsx:149-168 | the state becomes `Received` of the old state, and ids stay fresh |
| JobSession.CreateCsvForm.OnError | web_ui/src/components/CreateCsvForm.tsx:170-172 | the state becomes `ErrorSeen` of the old state; the row ids stay fresh (`Valid`) |
| JobSession.CreateCsvForm.OnClose | web_ui/src/components/CreateCsvForm.tsx:174-177 | the state becomes `ClosedSeen` of the old state; the row ids stay fresh (`Valid`) |
| JobSession.CreateCsvForm.ClearResults | web_ui/src/components/CreateCsvForm.tsx:181-184 | the state becomes `Cleared` of the old state |
| PromptForms.ContainsVariables | web_ui/src/components/PromptForm.tsx:21-26 | no message exactly when the text holds both `{person}` and `{context}`; otherwise the fixed message |
| PromptForms.AcceptedPromptMentions | web_ui/src/components/PromptForm.tsx:21-26 | a prompt the form accepts sends the person's word and context once the back end compiles it |
| PromptForms.NameOf | web_ui/src/components/PromptForm.tsx:34-52 | the two forms are named `company` and `position` |
| PromptForms.SeedValue | web_ui/src/components/PromptForm.tsx:57-85 | a stored text wins; else the server's text; else the field is left as it was |
| PromptForms.PromptForm.constructor | web_ui/src/components/PromptForm.tsx:19-52 | empty fields, no errors, not loading |
| PromptForms.PromptForm.SetText | web_ui/src/components/PromptForm.tsx:63 | only this form's field changes |
| PromptForms.PromptForm.SetContext | web_ui/src/components/PromptForm.tsx:64 | only this prompt of the job form changes |
| PromptForms.PromptForm.Seed | web_ui/src/components/PromptForm.tsx:57-70 | the server is asked only when the store has no text; the store is never written |
| PromptForms.PromptForm.Startup | web_ui/src/components/PromptForm.tsx:54-88 | the prompts fetched are exactly those the store lacks; each field and job prompt is seeded from the store, else the server |
| PromptForms.PromptForm.UpdatePrompt | web_ui/src/components/PromptForm.tsx:90-99 | an invalid text only sets the field's error; a valid one becomes the job prompt and is stored under the form's name |
| PromptForms.PromptForm.ResetPrompt | web_ui/src/components/PromptForm.tsx:101-113 | the server's default goes into the field and the store; the job prompt is left as it was; `loading` ends false |
| PromptForms.UpdateThenReload | web_ui/src/components/PromptForm.tsx:57-98 | an accepted prompt survives a reload: it is seeded from the store and not fetched |

## Left out

- **Remote services.** Google search, Jina, HuggingFace, OpenAI, Mistral and the LLM question answering are function parameters. The NER, GPT and LLM clients return an answer or the exception they raise; the decorators pass the LLM client's exception on after the item is taken and before it is written. Retries, timeouts, tokens and logging to them are out.
- **`json.loads`.** It is an oracle returning a parsed value or nothing. JSON values are objects, arrays, strings, integers and an "other" case. Floating point, including the NER `score`, is out.
- **`str.format`.** `Text.Format` substitutes only `{name}` fields whose name is a parameter and copies all other text as it is; it never fails. Python instead turns `{{` and `}}` into single braces, raises ValueError on a single `{` or `}`, raises KeyError on a `{name}` that is not passed, and reads positional fields, conversions and format specs. This affects every member that formats: `Queries.Compiled`, `Api.CompileSearchQueries`, `People.PromptFor`, `Annotations.AskAbout`, `Decorators.WithPosition.Next`, `Prompts.InMemoryPrompt.Compile` and `Prompts.Cached.Compile`. For example, the template `{company} }` passes validation; `search_queries.py:47` then raises ValueError, while `Api.CompileSearchQueries` reports success with ` }` kept. A GPT prompt with a JSON example in `{{…}}` reaches the service with single braces in Python, and with the braces doubled in `People.PromptFor`.
- **Types of dictionary values.** A dictionary value of the wrong type where a string or integer is needed becomes a TypeError. Python would sometimes raise a different error or compute something else.
- **Logging.** Logging and the log text of the back end are out, except for the one log line of `ner/only_people.py`.
- **The GPT answer schema.** The GPT prompt wording, the response schema of `gpt/people.py`, and the parsing done by the OpenAI client are out: the service returns the people directly.
- **Prompts on disk.** `FileSystemPrompt` (file I/O) is not part of this model. `Prompts.Cached` wraps an `InMemoryPrompt`, the only other prompt class shown.
- **Async and socket plumbing.** Async scheduling, `asyncify`, FastAPI routing, CORS and static mounts are out. So are the server's `WebSocketLoggingHandler` and the browser `WebSocket` object itself; the socket is reduced to its payload and what was sent on it.
- **Socket message shapes.** Socket messages are already parsed into `csv_row`, `log` or another type. A message whose `data` has the wrong shape for its type is not modelled.
- **React.** Rendering, state batching and `react-hook-form` internals (an error clearing when its field is edited, the validation `handleSubmit` runs) are out. Every state update is an immediate assignment. The view-type switch of `CreateCsvForm` is out.
- **The template test's request body.** The client posts `{search_query_template: …}` while the server declares a bare string body. The model takes the server's reply as an input and leaves the request shape unresolved.
- **Decorators.PositionQueryMentions:** states that the question holds the word and the source, not the exact text the formatted question has.
- **console.error:** the errors written to the console by `onTestSearchQuery` and the prompt form's promises have no effect on the model's state.

## Findings

| source | as written | input that shows it | evidently intended | confidence | as-written member | corrected member |
|---|---|---|---|---|---|---|
| hubase/src/word_classifications/gpt/people.py:62-66 | `found_leads` is assigned only after a person is yielded in researcher mode, but it is read after every batch | any text in the default mode, or in researcher mode a first batch in which GPT finds nobody: reading `found_leads` raises UnboundLocalError | `found_leads = False` before the batches, so other modes go through every batch and researcher mode stops after the first person | not executed | People.FoundLeadsUnbound | People.IntendedYieldsAll |
| hubase/src/word_classifications/with_source.py:13-15 | the window is `original_text[start - 100:end + 100]` with no clamping, so a negative start counts from the end of the text | a word at `start = 5`, `end = 10` in a text of 300 characters: the slice `[-95:110]` is empty and `source` is `""` | clamp the start at 0, as `ner/with_source.py:18-19` does, so the window holds the word | not executed | Annotations.UnclampedLosesWord | Annotations.ClampedWindowWithin |
