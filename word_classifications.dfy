/** The two classifying iterators `WordClassifications` (HuggingFace NER)
    and `WordClassificationsWithGPT`. Both cut a text into batches, send
    one batch at a time to the service, tag every answer with the batch
    it came from, and hand the answers out one by one from a first-in,
    first-out buffer. The services are parameters: `post` is the parsed
    HuggingFace response for a batch, `gpt` the completion text (or the
    exception of the OpenAI client) and `parse` stands for `json.loads`. */
module Classifications {
  import opened Wrappers
  import opened Text
  import opened PyValues
  import Pipeline

  /** One call of `__next__`: an answer, `StopIteration`, or an
      exception. */
  datatype Pulled = Item(wc: map<string, Json>) | Exhausted | Failed(error: PyError)

  // ---------------------------------------------------------------- tagging

  /** `wc["original_text"] = batch` on one answer. */
  function Tag(wc: map<string, Json>, batch: string): map<string, Json>
  {
    wc["original_text" := JStr(batch)]
  }

  /** The answers of one batch after the tagging loop: every answer must be
      a dictionary (item assignment on anything else raises `TypeError`),
      and each gets `original_text` set to the batch. */
  function Tagged(raw: seq<Json>, batch: string): Result<seq<map<string, Json>>, PyError>
  {
    if raw == [] then Ok([])
    else
      var prefix := Tagged(raw[..|raw| - 1], batch);
      var last := raw[|raw| - 1];
      if prefix.Err? then prefix
      else if !last.JObj? then Err(TypeError)
      else Ok(prefix.value + [Tag(last.fields, batch)])
  }

  /** Tagging fails, with `TypeError`, exactly when some answer is not a
      dictionary; otherwise there is one tagged answer per answer, with
      `original_text` set to the batch and every other key unchanged. */
  lemma {:induction false} TaggedShape(raw: seq<Json>, batch: string)
    ensures Tagged(raw, batch).Ok? <==> forall k :: 0 <= k < |raw| ==> raw[k].JObj?
    ensures Tagged(raw, batch).Err? ==> Tagged(raw, batch).error == TypeError
    ensures Tagged(raw, batch).Ok? ==>
              var r := Tagged(raw, batch).value;
              |r| == |raw|
              && forall k :: 0 <= k < |raw| ==>
                   r[k].Keys == raw[k].fields.Keys + {"original_text"}
                   && r[k]["original_text"] == JStr(batch)
                   && forall key :: key in raw[k].fields && key != "original_text" ==> r[k][key] == raw[k].fields[key]
  {
    if raw != [] {
      var init := raw[..|raw| - 1];
      TaggedShape(init, batch);
      assert forall k :: 0 <= k < |init| ==> init[k] == raw[k];
    }
  }

  /** The `for wc in raw: wc["original_text"] = batch` loop. */
  method TagBatch(raw: seq<Json>, batch: string) returns (r: Result<seq<map<string, Json>>, PyError>)
    ensures r == Tagged(raw, batch)
  {
    var tagged: seq<map<string, Json>> := [];
    var i := 0;
    while i < |raw|
      invariant 0 <= i <= |raw|
      invariant Tagged(raw[..i], batch) == Ok(tagged)
    {
      assert raw[..i + 1][..i] == raw[..i];
      if !raw[i].JObj? {
        TaggedErrSticks(raw, i + 1, batch);
        return Err(TypeError);
      }
      tagged := tagged + [Tag(raw[i].fields, batch)];
      i := i + 1;
    }
    assert raw[..i] == raw;
    return Ok(tagged);
  }

  lemma {:induction false} TaggedErrSticks(raw: seq<Json>, n: nat, batch: string)
    requires n <= |raw| && Tagged(raw[..n], batch).Err?
    ensures Tagged(raw, batch) == Tagged(raw[..n], batch)
    decreases |raw| - n
  {
    if n < |raw| {
      assert raw[..n + 1][..n] == raw[..n];
      TaggedErrSticks(raw, n + 1, batch);
    } else {
      assert raw[..n] == raw;
    }
  }

  // ---------------------------------------------------------------- buffered batches

  /** What one batch brings into the buffer: the service's answers,
      tagged, or the exception the service call or the tagging raises. */
  function Outcome(batch: string, respond: string -> Result<seq<Json>, PyError>): Result<seq<map<string, Json>>, PyError>
  {
    match respond(batch)
    case Err(e) => Err(e)
    case Ok(raw) => Tagged(raw, batch)
  }

  /** The index of the batch at which the `while` loop of `__next__` stops
      searching from batch `i`: the first one that fails or brings at least
      one answer; `|batches|` (or `i` when already past the end) when
      there is none. */
  function NextFilled(batches: seq<string>, i: nat, respond: string -> Result<seq<Json>, PyError>): (r: nat)
    ensures i <= r
    ensures i <= |batches| ==> r <= |batches|
    ensures i >= |batches| ==> r == i
    ensures r < |batches| ==> Outcome(batches[r], respond) != Ok([])
    ensures forall k :: i <= k < r && k < |batches| ==> Outcome(batches[k], respond) == Ok([])
    decreases |batches| - i
  {
    if i >= |batches| then i
    else if Outcome(batches[i], respond) == Ok([]) then NextFilled(batches, i + 1, respond)
    else i
  }

  /** Every batch from `i` on is answered without an exception. */
  predicate NoFailure(batches: seq<string>, i: nat, respond: string -> Result<seq<Json>, PyError>)
  {
    forall k :: i <= k < |batches| ==> Outcome(batches[k], respond).Ok?
  }

  /** The answers batches `i..` will still bring, batch by batch and in
      answer order. */
  function Pending(batches: seq<string>, i: nat, respond: string -> Result<seq<Json>, PyError>): seq<map<string, Json>>
    decreases |batches| - i
  {
    if i >= |batches| then []
    else
      var o := Outcome(batches[i], respond);
      (if o.Ok? then o.value else []) + Pending(batches, i + 1, respond)
  }

  /** Searching from batch `i` skips only batches that bring nothing: when
      no batch fails, there is nothing left exactly when the search runs
      off the end, and otherwise the answers still to come start with
      those of the batch it stops at. */
  lemma {:induction false} NextFilledPending(batches: seq<string>, i: nat, respond: string -> Result<seq<Json>, PyError>)
    requires i <= |batches| && NoFailure(batches, i, respond)
    ensures var j := NextFilled(batches, i, respond);
            (j == |batches| <==> Pending(batches, i, respond) == [])
            && (j < |batches| ==>
                  Pending(batches, i, respond) == Outcome(batches[j], respond).value + Pending(batches, j + 1, respond)
                  && Outcome(batches[j], respond).value != [])
    decreases |batches| - i
  {
    if i < |batches| {
      var o := Outcome(batches[i], respond);
      assert o.Ok?;
      assert Pending(batches, i, respond) == o.value + Pending(batches, i + 1, respond);
      if o.value == [] {
        assert NoFailure(batches, i + 1, respond);
        NextFilledPending(batches, i + 1, respond);
        assert NextFilled(batches, i, respond) == NextFilled(batches, i + 1, respond);
      } else {
        assert NextFilled(batches, i, respond) == i;
      }
    } else {
      assert Pending(batches, i, respond) == [];
    }
  }

  /** The `while len(buffer) == 0` loop of `__next__`, entered with an
      empty buffer at batch `i0`: request batch after batch, each at most
      once and in index order, until one fails or brings answers. Returns
      the new batch index and what the buffer is extended with. */
  method FillBuffer(batches: seq<string>, i0: nat, respond: string -> Result<seq<Json>, PyError>)
    returns (i: nat, r: Result<seq<map<string, Json>>, PyError>)
    ensures var j := NextFilled(batches, i0, respond);
            (j >= |batches| ==> i == j && r == Ok([]))
            && (j < |batches| ==> i == j + 1 && r == Outcome(batches[j], respond))
  {
    i := i0;
    var found: seq<map<string, Json>> := [];
    while found == []
      invariant i0 <= i && NextFilled(batches, i0, respond) == NextFilled(batches, i, respond)
      decreases |batches| - i
    {
      if i >= |batches| {
        return i, Ok([]);
      }
      var batch := batches[i];
      i := i + 1;
      var reply := respond(batch);
      if reply.Err? {
        return i, Err(reply.error);
      }
      var tagged := TagBatch(reply.value, batch);
      if tagged.Err? {
        return i, tagged;
      }
      if tagged.value != [] {
        return i, tagged;
      }
    }
    assert false;
  }

  /** Where one call of `__next__` leaves an iterator with buffer
      `buffer` at batch `i`: what it returns, the new buffer and the new
      batch index. */
  function NextSpec(buffer: seq<map<string, Json>>, batches: seq<string>, i: nat,
                    respond: string -> Result<seq<Json>, PyError>): (Pulled, seq<map<string, Json>>, nat)
  {
    if buffer != [] then (Item(buffer[0]), buffer[1..], i)
    else
      var j := NextFilled(batches, i, respond);
      if j >= |batches| then (Exhausted, [], j)
      else match Outcome(batches[j], respond)
        case Err(e) => (Failed(e), [], j + 1)
        case Ok(v) => (Item(v[0]), v[1..], j + 1)
  }

  /** The body of `__next__` on the iterator's buffer and batch index:
      refill an empty buffer, then pop its first answer. */
  method Advance(buffer: seq<map<string, Json>>, batches: seq<string>, i: nat,
                 respond: string -> Result<seq<Json>, PyError>)
    returns (r: Pulled, buffer': seq<map<string, Json>>, i': nat)
    ensures (r, buffer', i') == NextSpec(buffer, batches, i, respond)
    ensures i <= |batches| ==> i <= i' <= |batches|
  {
    buffer', i' := buffer, i;
    if buffer' == [] {
      var filled;
      i', filled := FillBuffer(batches, i, respond);
      if filled.Err? {
        return Failed(filled.error), [], i';
      }
      buffer' := filled.value;
      if buffer' == [] {
        return Exhausted, [], i';
      }
    }
    r := Item(buffer'[0]);
    buffer' := buffer'[1..];
  }

  /** A non-empty buffer is popped without a request; an empty one makes
      `__next__` request the batches from `i` on, in order, skipping the
      ones that bring nothing. `StopIteration` comes only once every batch
      is used up; an exception is raised with the batch index already
      past the failing batch and nothing buffered. */
  lemma NextSpecCases(buffer: seq<map<string, Json>>, batches: seq<string>, i: nat,
                      respond: string -> Result<seq<Json>, PyError>)
    requires i <= |batches|
    ensures var (r, b, i') := NextSpec(buffer, batches, i, respond);
            i <= i' <= |batches|
            && (buffer != [] ==> r == Item(buffer[0]) && b == buffer[1..] && i' == i)
            && (r.Exhausted? <==> buffer == [] && i' == |batches| && forall k :: i <= k < |batches| ==> Outcome(batches[k], respond) == Ok([]))
            && (r.Exhausted? ==> b == [])
            && (r.Failed? <==> buffer == [] && i < i' && Outcome(batches[i' - 1], respond).Err?)
            && (r.Failed? ==> b == [] && r.error == Outcome(batches[i' - 1], respond).error)
            && (buffer == [] && i < i' ==> forall k :: i <= k < i' - 1 ==> Outcome(batches[k], respond) == Ok([]))
  {
  }

  /** `__next__` is first in, first out: when no batch fails, the answers
      still to come are the buffer followed by the answers of the
      remaining batches in batch order, and each call hands out the first
      of them, or raises `StopIteration` when there is none. */
  lemma NextSpecFifo(buffer: seq<map<string, Json>>, batches: seq<string>, i: nat,
                     respond: string -> Result<seq<Json>, PyError>)
    requires i <= |batches| && NoFailure(batches, i, respond)
    ensures var (r, b, i') := NextSpec(buffer, batches, i, respond);
            !r.Failed?
            && (r.Exhausted? <==> buffer + Pending(batches, i, respond) == [])
            && (r.Item? ==> buffer + Pending(batches, i, respond) == [r.wc] + (b + Pending(batches, i', respond)))
  {
    if buffer != [] {
      BufferedFifo(buffer, batches, i, respond);
    } else {
      RefilledFifo(batches, i, respond);
    }
  }

  /** A non-empty buffer gives its first answer. */
  lemma BufferedFifo(buffer: seq<map<string, Json>>, batches: seq<string>, i: nat,
                     respond: string -> Result<seq<Json>, PyError>)
    requires buffer != []
    ensures NextSpec(buffer, batches, i, respond) == (Item(buffer[0]), buffer[1..], i)
    ensures buffer + Pending(batches, i, respond) == [buffer[0]] + (buffer[1..] + Pending(batches, i, respond))
  {
    Seqs.ConsSplit(buffer, Pending(batches, i, respond));
  }

  /** An empty buffer is refilled from the next batch with answers. */
  lemma RefilledFifo(batches: seq<string>, i: nat, respond: string -> Result<seq<Json>, PyError>)
    requires i <= |batches| && NoFailure(batches, i, respond)
    ensures var (r, b, i') := NextSpec([], batches, i, respond);
            !r.Failed?
            && (r.Exhausted? <==> Pending(batches, i, respond) == [])
            && (r.Item? ==> Pending(batches, i, respond) == [r.wc] + (b + Pending(batches, i', respond)))
  {
    NextFilledPending(batches, i, respond);
    var j := NextFilled(batches, i, respond);
    if j < |batches| {
      assert Outcome(batches[j], respond).Ok?;
      var v := Outcome(batches[j], respond).value;
      assert NextSpec([], batches, i, respond) == (Item(v[0]), v[1..], j + 1);
      Seqs.ConsSplit(v, Pending(batches, j + 1, respond));
    }
  }

  // ---------------------------------------------------------------- HuggingFace

  /** The batch size `WordClassifications` uses unless told otherwise. */
  const NerBatchSize: int := 514

  /** How the NER answer for a batch is read: a dictionary with `"error"`
      raises `HuggingFaceException`; then `for wc in response` runs over
      the response. `"error" in` a list, a string or a number, and
      iterating a non-empty dictionary or string, end in `TypeError`. */
  function HuggingFaceReply(response: Json): (r: Result<seq<Json>, PyError>)
    ensures response.JObj? && "error" in response.fields ==> r == Err(HuggingFaceError(response.fields["error"]))
    ensures response.JArr? && JStr("error") !in response.items ==> r == Ok(response.items)
    ensures r.Ok? ==> (response.JArr? && r.value == response.items) || r.value == []
    ensures r.Err? && !r.error.HuggingFaceError? ==> r.error == TypeError
  {
    match response
    case JObj(fields) =>
      if "error" in fields then Err(HuggingFaceError(fields["error"]))
      else if fields == map[] then Ok([])
      else Err(TypeError)
    case JArr(items) => if JStr("error") in items then Err(TypeError) else Ok(items)
    case JStr(s) => if Contains(s, "error") || s != "" then Err(TypeError) else Ok([])
    case _ => Err(TypeError)
  }

  /** The per-batch service of `WordClassifications`. */
  function NerResponder(post: string -> Json): string -> Result<seq<Json>, PyError>
  {
    batch => HuggingFaceReply(post(batch))
  }

  /** `WordClassifications(page, batch_size)`: the page's text in batches,
      an empty buffer, batch index 0. */
  class WordClassifications {
    const textBatches: seq<string>
    var buffer: seq<map<string, Json>>
    var currentBatchI: nat
    /** The batches requested so far, in the order they were. */
    ghost var requested: seq<string>

    ghost predicate Valid()
      reads this`currentBatchI, this`requested
    {
      currentBatchI <= |textBatches| && requested == textBatches[..currentBatchI]
    }

    constructor (textBatches: seq<string>)
      ensures this.textBatches == textBatches && buffer == [] && currentBatchI == 0
      ensures Valid()
    {
      this.textBatches := textBatches;
      buffer := [];
      currentBatchI := 0;
      requested := [];
    }

    /** `WordClassifications(page, batch_size)` on the page's text: the
        batches are those of `get_md_batches`, and a zero batch size
        raises `ValueError`. */
    static method New(md: string, batchSize: int) returns (r: Result<WordClassifications, PyError>)
      ensures r.Err? <==> batchSize == 0
      ensures r.Ok? ==>
                fresh(r.value) && r.value.Valid() && r.value.buffer == []
                && r.value.textBatches == (if batchSize > 0 then Batches(md, batchSize) else [])
    {
      var batches := Pipeline.GetMdBatches(md, batchSize);
      if batches.Err? {
        return Err(batches.error);
      }
      var wc := new WordClassifications(batches.value);
      return Ok(wc);
    }

    /** `__next__`. */
    method Next(post: string -> Json) returns (r: Pulled)
      requires Valid()
      modifies this`buffer, this`currentBatchI, this`requested
      ensures Valid()
      ensures (r, buffer, currentBatchI) == NextSpec(old(buffer), textBatches, old(currentBatchI), NerResponder(post))
    {
      var i0 := currentBatchI;
      var b, i;
      r, b, i := Advance(buffer, textBatches, i0, NerResponder(post));
      buffer, currentBatchI := b, i;
      requested := requested + textBatches[i0..i];
      assert requested == textBatches[..i];
    }
  }

  // ---------------------------------------------------------------- GPT

  /** The batch size `WordClassificationsWithGPT` uses unless told
      otherwise. */
  const GptBatchSize: int := 2000

  const EmptyAnswer: string := "Ответ пустой"
  const BadAnswer: string := "Некорректный формат ответа от GPT-4"

  /** `__parse_gpt_response(response)`: the stripped text must be non-empty
      and bracketed, and must parse to a list. */
  function ParseGptResponse(response: string, parse: string -> Option<Json>): (r: Result<seq<Json>, PyError>)
    ensures var s := Strip(response);
            (s == [] ==> r == Err(ValueError(EmptyAnswer)))
            && (s != [] && !(s[0] == '[' && s[|s| - 1] == ']') ==> r == Err(ValueError(BadAnswer)))
            && (r.Ok? <==> s != [] && s[0] == '[' && s[|s| - 1] == ']' && parse(s).Some? && parse(s).value.JArr?)
            && (r.Ok? ==> r.value == parse(s).value.items)
            && (s != [] && s[0] == '[' && s[|s| - 1] == ']' && parse(s).None? ==> r == Err(JsonDecodeError))
  {
    var s := Strip(response);
    if s == [] then Err(ValueError(EmptyAnswer))
    else if !(s[0] == '[' && s[|s| - 1] == ']') then Err(ValueError(BadAnswer))
    else match parse(s)
      case None => Err(JsonDecodeError)
      case Some(v) => if v.JArr? then Ok(v.items) else Err(ValueError(BadAnswer))
  }

  /** `__call_gpt_or_raise(batch)`: the completion, stripped, through
      `__parse_gpt_response`; an exception of the client is re-raised as
      it is. */
  function CallGpt(batch: string, gpt: string -> Result<string, PyError>, parse: string -> Option<Json>): Result<seq<Json>, PyError>
  {
    match gpt(batch)
    case Err(e) => Err(e)
    case Ok(content) => ParseGptResponse(Strip(content), parse)
  }

  /** Stripping the completion before `__parse_gpt_response` strips it
      again changes nothing: the answer is that of the completion itself,
      and an exception of the client comes back unchanged. */
  lemma CallGptParsesCompletion(batch: string, gpt: string -> Result<string, PyError>, parse: string -> Option<Json>)
    ensures gpt(batch).Ok? ==> CallGpt(batch, gpt, parse) == ParseGptResponse(gpt(batch).value, parse)
    ensures gpt(batch).Err? ==> CallGpt(batch, gpt, parse) == Err(gpt(batch).error)
  {
    if gpt(batch).Ok? {
      StripIdempotent(gpt(batch).value);
    }
  }

  /** The per-batch service of `WordClassificationsWithGPT`. */
  function GptResponder(gpt: string -> Result<string, PyError>, parse: string -> Option<Json>): string -> Result<seq<Json>, PyError>
  {
    batch => CallGpt(batch, gpt, parse)
  }

  /** `WordClassificationsWithGPT(text, logger, batch_size)`: the batches
      are only computed by `__iter__`. */
  class WordClassificationsWithGpt {
    const text: string
    const batchSize: int
    var textBatches: seq<string>
    var buffer: seq<map<string, Json>>
    var currentBatchI: nat
    /** The batches requested so far, in the order they were. */
    ghost var requested: seq<string>
    ghost predicate Valid()
      reads this`textBatches, this`currentBatchI, this`requested
    {
      (textBatches == [] || (batchSize > 0 && textBatches == Batches(text, batchSize)))
      && currentBatchI <= |textBatches| && requested == textBatches[..currentBatchI]
    }

    constructor (text: string, batchSize: int)
      ensures this.text == text && this.batchSize == batchSize
      ensures textBatches == [] && buffer == [] && currentBatchI == 0
      ensures Valid()
    {
      this.text := text;
      this.batchSize := batchSize;
      textBatches := [];
      buffer := [];
      currentBatchI := 0;
      requested := [];
    }

    /** `__iter__`: computes the batches (a zero batch size raises
        `ValueError` and leaves them as they were). */
    method Iter() returns (err: Option<PyError>)
      requires Valid()
      modifies this`textBatches
      ensures Valid()
      ensures err.Some? <==> batchSize == 0
      ensures batchSize == 0 ==> textBatches == old(textBatches)
      ensures batchSize != 0 ==> textBatches == (if batchSize > 0 then Batches(text, batchSize) else [])
    {
      var batches := Pipeline.GetMdBatches(text, batchSize);
      if batches.Err? {
        return Some(batches.error);
      }
      assert textBatches[..currentBatchI] == batches.value[..currentBatchI];
      textBatches := batches.value;
      return None;
    }

    /** `__next__`: the same buffered loop as `WordClassifications`, with
        GPT-4 as the service. Before `__iter__` there are no batches, so
        it raises `StopIteration` at once. */
    method Next(gpt: string -> Result<string, PyError>, parse: string -> Option<Json>) returns (r: Pulled)
      requires Valid()
      modifies this`buffer, this`currentBatchI, this`requested
      ensures Valid()
      ensures (r, buffer, currentBatchI) == NextSpec(old(buffer), textBatches, old(currentBatchI), GptResponder(gpt, parse))
    {
      var i0 := currentBatchI;
      var b, i;
      r, b, i := Advance(buffer, textBatches, i0, GptResponder(gpt, parse));
      buffer, currentBatchI := b, i;
      requested := requested + textBatches[i0..i];
      assert requested == textBatches[..i];
    }
  }
}
