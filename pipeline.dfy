/** The deterministic steps of the original lead pipeline in
    `hubase/src/main.py`: cutting a page into batches, decoding the
    model's JSON answer, turning NER answers into rows, stamping rows with
    the company and the link, and choosing the Google query. The calls
    into Google, Jina, HuggingFace and Mistral are not part of this
    model; `search` and `json.loads` are parameters. */
module Pipeline {
  import opened Wrappers
  import opened Text
  import opened PyValues
  import Google
  import Seqs

  // ---------------------------------------------------------------- get_md_batches

  /** The slices `md[i:i + batch_size]` for `i` in
      `range(0, len(md), batch_size)`, as `get_md_batches` and the
      `__text_batches`/`__split_text` helpers of the iterators compute
      them. A zero step makes `range` raise `ValueError`; a negative step
      gives an empty range. */
  function RangeBatches(md: string, batchSize: int): Result<seq<string>, PyError>
  {
    if batchSize == 0 then Err(ValueError("range() arg 3 must not be zero"))
    else if batchSize < 0 then Ok([])
    else Ok(Batches(md, batchSize))
  }

  /** Only a zero batch size fails. With a positive one, the batches put
      back together give the text, each but the last has exactly
      `batch_size` characters and the last is non-empty; an empty text
      has no batches. */
  lemma RangeBatchesShape(md: string, batchSize: int)
    ensures RangeBatches(md, batchSize).Err? <==> batchSize == 0
    ensures batchSize < 0 ==> RangeBatches(md, batchSize) == Ok([])
    ensures batchSize > 0 ==>
              var bs := RangeBatches(md, batchSize).value;
              Seqs.Flatten(bs) == md
              && (bs == [] <==> md == [])
              && (forall k :: 0 <= k < |bs| - 1 ==> |bs[k]| == batchSize)
              && (bs != [] ==> 0 < |bs[|bs| - 1]| <= batchSize)
  {
    if batchSize > 0 {
      BatchesConcat(md, batchSize);
      BatchesShape(md, batchSize);
    }
  }

  /** `get_md_batches(md, batch_size)`. */
  method GetMdBatches(md: string, batchSize: int) returns (r: Result<seq<string>, PyError>)
    ensures r == RangeBatches(md, batchSize)
  {
    if batchSize == 0 {
      return Err(ValueError("range() arg 3 must not be zero"));
    }
    if batchSize < 0 {
      return Ok([]);
    }
    var size: nat := batchSize;
    var results: seq<string> := [];
    var i: nat := 0;
    while i < |md|
      invariant i == |results| * size
      invariant i <= |md| ==> results == Batches(md[..i], size)
      invariant i > |md| ==> results == Batches(md, size)
      decreases |md| - i
    {
      var hi := if i + size < |md| then i + size else |md|;
      BatchesSnoc(md[..i], md[i..hi], size, |results|);
      assert md[..i] + md[i..hi] == md[..hi];
      if hi == |md| {
        assert md[..hi] == md;
      }
      Seqs.MulStep(|results|, size);
      results := results + [md[i..hi]];
      i := i + size;
    }
    if i == |md| {
      assert md[..i] == md;
    }
    return Ok(results);
  }

  // ---------------------------------------------------------------- decode_json

  /** The row `decode_json` falls back to: the whole answer as the name and
      an empty position. */
  function Fallback(answer: string): Json
  {
    JArr([JObj(map["name" := JStr(answer), "position" := JStr("")])])
  }

  /** `decode_json(answer)`, where `parsed` is what `json.loads(answer)`
      gives (`None` for a `ValueError`). Only `ValueError` and `KeyError`
      are caught: indexing parsed JSON that is not an object with
      `"results"` raises `TypeError`, which propagates. */
  function DecodeJson(answer: string, parsed: Option<Json>): (r: Result<Json, PyError>)
    ensures r.Err? <==> parsed.Some? && !parsed.value.JObj?
    ensures r.Err? ==> r.error == TypeError
    ensures parsed.Some? && parsed.value.JObj? && "results" in parsed.value.fields
            ==> r == Ok(parsed.value.fields["results"])
    ensures parsed.None? || (parsed.value.JObj? && "results" !in parsed.value.fields)
            ==> r == Ok(Fallback(answer))
  {
    match parsed
    case None => Ok(Fallback(answer))
    case Some(data) =>
      if !data.JObj? then Err(TypeError)
      else if "results" in data.fields then Ok(data.fields["results"])
      else Ok(Fallback(answer))
  }

  /** An answer of the form `{"results": [...]}` decodes to that list,
      unchanged. */
  lemma DecodeJsonResults(answer: string, rows: seq<Json>, other: map<string, Json>)
    ensures DecodeJson(answer, Some(JObj(other["results" := JArr(rows)]))) == Ok(JArr(rows))
  {
  }

  /** Text that is not JSON decodes to the single fallback row holding the
      text as its name. */
  lemma DecodeJsonNotJson(answer: string)
    ensures DecodeJson(answer, None).Ok?
    ensures var v := DecodeJson(answer, None).value;
            v.JArr? && |v.items| == 1 && v.items[0].JObj?
            && v.items[0].fields.Keys == {"name", "position"}
            && v.items[0].fields["name"] == JStr(answer) && v.items[0].fields["position"] == JStr("")
  {
  }

  /** JSON that is not an object, such as a list, is an error and not the
      fallback. */
  lemma DecodeJsonNotObject(answer: string, items: seq<Json>)
    ensures DecodeJson(answer, Some(JArr(items))) == Err(TypeError)
  {
  }

  // ---------------------------------------------------------------- decode_ner

  /** The row `decode_ner` builds from one `PER` answer. */
  function NerRecord(word: Json, source: Json, company: string, link: string): (r: map<string, Json>)
    ensures r.Keys == {"name", "position", "searched_company", "link", "source"}
    ensures r["name"] == word && r["source"] == source && r["position"] == JStr("-")
    ensures r["searched_company"] == JStr(company) && r["link"] == JStr(link)
  {
    map["name" := word, "position" := JStr("-"), "searched_company" := JStr(company),
        "link" := JStr(link), "source" := source]
  }

  /** One answer through the filter and the loop body: no row when its
      `entity_group` is not `"PER"`, the `KeyError` of the first missing
      key otherwise. */
  function NerStep(choice: map<string, Json>, company: string, link: string): Result<seq<map<string, Json>>, PyError>
  {
    if "entity_group" !in choice then Err(KeyError("entity_group"))
    else if choice["entity_group"] != JStr("PER") then Ok([])
    else if "word" !in choice then Err(KeyError("word"))
    else if "source" !in choice then Err(KeyError("source"))
    else Ok([NerRecord(choice["word"], choice["source"], company, link)])
  }

  /** The outcome of `decode_ner` on the answers, step by step from the
      first: the first error stops it. */
  function DecodeNerSpec(choices: seq<map<string, Json>>, company: string, link: string): Result<seq<map<string, Json>>, PyError>
  {
    if choices == [] then Ok([])
    else
      var prefix := DecodeNerSpec(choices[..|choices| - 1], company, link);
      if prefix.Err? then prefix
      else
        var step := NerStep(choices[|choices| - 1], company, link);
        if step.Err? then step else Ok(prefix.value + step.value)
  }

  /** The answers whose `entity_group` is `"PER"`, in order. */
  function Persons(choices: seq<map<string, Json>>): (r: seq<map<string, Json>>)
    ensures |r| <= |choices|
    ensures forall k :: 0 <= k < |r| ==> r[k] in choices && "entity_group" in r[k] && r[k]["entity_group"] == JStr("PER")
  {
    if choices == [] then []
    else
      var last := choices[|choices| - 1];
      Persons(choices[..|choices| - 1])
      + (if "entity_group" in last && last["entity_group"] == JStr("PER") then [last] else [])
  }

  /** Every answer has an `entity_group`, and every person a `word` and a
      `source`. */
  predicate NerWellFormed(choices: seq<map<string, Json>>)
  {
    forall k :: 0 <= k < |choices| ==>
      "entity_group" in choices[k]
      && (choices[k]["entity_group"] == JStr("PER") ==> "word" in choices[k] && "source" in choices[k])
  }

  /** `decode_ner(choices, company, link)`: a new row for each `PER`
      answer, in order. */
  method DecodeNer(choices: seq<map<string, Json>>, company: string, link: string) returns (r: Result<seq<map<string, Json>>, PyError>)
    ensures r == DecodeNerSpec(choices, company, link)
  {
    var results: seq<map<string, Json>> := [];
    var i := 0;
    while i < |choices|
      invariant 0 <= i <= |choices|
      invariant DecodeNerSpec(choices[..i], company, link) == Ok(results)
    {
      var choice := choices[i];
      NerSpecSnoc(choices, i, company, link);
      if "entity_group" !in choice {
        DecodeNerErrSticks(choices, i + 1, company, link);
        return Err(KeyError("entity_group"));
      }
      if choice["entity_group"] == JStr("PER") {
        if "word" !in choice {
          DecodeNerErrSticks(choices, i + 1, company, link);
          return Err(KeyError("word"));
        }
        if "source" !in choice {
          DecodeNerErrSticks(choices, i + 1, company, link);
          return Err(KeyError("source"));
        }
        results := results + [NerRecord(choice["word"], choice["source"], company, link)];
      } else {
        assert results + [] == results;
      }
      i := i + 1;
    }
    assert choices[..i] == choices;
    return Ok(results);
  }

  /** One more answer after a successful prefix adds its step. */
  lemma NerSpecSnoc(choices: seq<map<string, Json>>, i: nat, company: string, link: string)
    requires i < |choices| && DecodeNerSpec(choices[..i], company, link).Ok?
    ensures var step := NerStep(choices[i], company, link);
            DecodeNerSpec(choices[..i + 1], company, link)
            == if step.Err? then step else Ok(DecodeNerSpec(choices[..i], company, link).value + step.value)
  {
    assert choices[..i + 1][..i] == choices[..i];
  }

  /** An error stays an error however many answers follow. */
  lemma {:induction false} DecodeNerErrSticks(choices: seq<map<string, Json>>, n: nat, company: string, link: string)
    requires n <= |choices| && DecodeNerSpec(choices[..n], company, link).Err?
    ensures DecodeNerSpec(choices, company, link) == DecodeNerSpec(choices[..n], company, link)
    decreases |choices| - n
  {
    if n < |choices| {
      assert choices[..n + 1][..n] == choices[..n];
      DecodeNerErrSticks(choices, n + 1, company, link);
    } else {
      assert choices[..n] == choices;
    }
  }

  /** `decode_ner` succeeds exactly on well-formed answers, and then its
      rows are the `PER` answers, in order, each with `name` = `word`,
      position `"-"`, the searched company, the link and its source. */
  lemma {:induction false} DecodeNerKeepsPersons(choices: seq<map<string, Json>>, company: string, link: string)
    ensures DecodeNerSpec(choices, company, link).Ok? <==> NerWellFormed(choices)
    ensures DecodeNerSpec(choices, company, link).Ok? ==>
              var rows := DecodeNerSpec(choices, company, link).value;
              var ps := Persons(choices);
              |rows| == |ps|
              && forall k :: 0 <= k < |ps| ==>
                   "word" in ps[k] && "source" in ps[k]
                   && rows[k] == NerRecord(ps[k]["word"], ps[k]["source"], company, link)
  {
    DecodeNerOkIffWellFormed(choices, company, link);
    if NerWellFormed(choices) {
      DecodeNerRowsArePersons(choices, company, link);
    }
  }

  /** Decoding succeeds exactly on well-formed answers. */
  lemma {:induction false} DecodeNerOkIffWellFormed(choices: seq<map<string, Json>>, company: string, link: string)
    ensures DecodeNerSpec(choices, company, link).Ok? <==> NerWellFormed(choices)
  {
    if choices != [] {
      var init := choices[..|choices| - 1];
      DecodeNerOkIffWellFormed(init, company, link);
      assert forall k :: 0 <= k < |init| ==> init[k] == choices[k];
      if NerWellFormed(choices) {
        assert NerWellFormed(init);
      }
      if !NerWellFormed(init) {
        var k :| 0 <= k < |init| && !("entity_group" in init[k]
                   && (init[k]["entity_group"] == JStr("PER") ==> "word" in init[k] && "source" in init[k]));
        assert choices[k] == init[k];
      }
    }
  }

  /** On well-formed answers the rows are the persons' records, in order. */
  lemma {:induction false} DecodeNerRowsArePersons(choices: seq<map<string, Json>>, company: string, link: string)
    requires NerWellFormed(choices)
    ensures DecodeNerSpec(choices, company, link).Ok?
    ensures var rows := DecodeNerSpec(choices, company, link).value;
            var ps := Persons(choices);
            |rows| == |ps|
            && forall k :: 0 <= k < |ps| ==>
                 "word" in ps[k] && "source" in ps[k]
                 && rows[k] == NerRecord(ps[k]["word"], ps[k]["source"], company, link)
  {
    DecodeNerOkIffWellFormed(choices, company, link);
    if choices != [] {
      var init := choices[..|choices| - 1];
      assert forall k :: 0 <= k < |init| ==> init[k] == choices[k];
      assert NerWellFormed(init);
      DecodeNerRowsArePersons(init, company, link);
    }
  }

  // ---------------------------------------------------------------- extend_json

  /** A row after `extend_json`: `company` and `link` set, every other key
      as it was. */
  function Extended(row: map<string, Json>, company: string, link: string): (r: map<string, Json>)
    ensures r.Keys == row.Keys + {"company", "link"}
    ensures r["company"] == JStr(company) && r["link"] == JStr(link)
    ensures forall k :: k in row && k != "company" && k != "link" ==> r[k] == row[k]
  {
    row["company" := JStr(company)]["link" := JStr(link)]
  }

  /** Stamping a row twice is stamping it once, so a dictionary that
      appears twice in the list ends up the same. */
  lemma ExtendedIdempotent(row: map<string, Json>, company: string, link: string)
    ensures Extended(Extended(row, company, link), company, link) == Extended(row, company, link)
  {
  }

  /** `extend_json(data, company, link)`: sets `company` and `link` on every
      dictionary of the list in place and returns the same list. */
  method ExtendJson(data: seq<Dict>, company: string, link: string) returns (r: seq<Dict>)
    modifies set d | d in data
    ensures r == data
    ensures forall k :: 0 <= k < |data| ==> data[k].entries == Extended(old(data[k].entries), company, link)
  {
    var i := 0;
    while i < |data|
      invariant 0 <= i <= |data|
      invariant forall k :: 0 <= k < |data| ==>
                  data[k].entries == if data[k] in data[..i] then Extended(old(data[k].entries), company, link)
                                     else old(data[k].entries)
    {
      var d := data[i];
      ghost var before := d.entries;
      d.entries := d.entries["company" := JStr(company)];
      d.entries := d.entries["link" := JStr(link)];
      assert d.entries == Extended(before, company, link);
      assert data[..i + 1] == data[..i] + [d];
      i := i + 1;
    }
    assert data[..i] == data;
    return data;
  }

  // ---------------------------------------------------------------- get_url

  /** The fixed positions clause of the Google query. */
  const Positions: string := "(\"директор\" OR \"директор ГК ССК\" OR \"руководитель\" OR \"начальник\" OR \"глава\")"

  /** `google_query_with_site.format(company, site)`. */
  function QueryWithSite(company: string, site: string): string
  {
    Google.CompanyName(company) + " AND " + Google.SiteName(site) + " AND " + Positions
  }

  /** `google_query.format(company)`. */
  function QueryWithoutSite(company: string): string
  {
    Google.CompanyName(company) + " AND " + Positions
  }

  /** The query `get_url` sends for a company and a site. */
  function UrlQuery(company: string, site: string): (r: string)
    ensures site != "" ==> r == QueryWithSite(company, site)
    ensures site == "" ==> r == QueryWithoutSite(company)
  {
    if site != "" then QueryWithSite(company, site) else QueryWithoutSite(company)
  }

  /** `get_url(company, site)`: the first result of the search, `None` for
      the `StopIteration` of an empty one. */
  function GetUrl(company: string, site: string, search: string -> seq<string>): (r: Option<string>)
    ensures r.None? <==> search(UrlQuery(company, site)) == []
    ensures r.Some? ==> r.value == search(UrlQuery(company, site))[0]
  {
    var found := search(UrlQuery(company, site));
    if found == [] then None else Some(found[0])
  }

  /** The site clause is there exactly when the site is non-empty: the
      query with a site is the one without it with ` AND site:<site>`
      inserted after the company. */
  lemma UrlQuerySiteClause(company: string, site: string)
    ensures site != "" ==>
              UrlQuery(company, site)
              == Google.CompanyName(company) + " AND site:" + site + " AND " + Positions
    ensures site != "" ==> |UrlQuery(company, site)| == |UrlQuery(company, "")| + |" AND site:"| + |site|
    ensures UrlQuery(company, site) == UrlQuery(company, "") <==> site == ""
  {
    if site != "" {
      SiteClauseInserted(Google.CompanyName(company), site, Positions);
    }
  }

  /** The two query shapes, for any company clause `c` and tail `p`. */
  lemma SiteClauseInserted(c: string, site: string, p: string)
    requires site != ""
    ensures c + " AND " + ("site:" + site) + " AND " + p == c + " AND site:" + site + " AND " + p
    ensures |c + " AND site:" + site + " AND " + p| == |c + " AND " + p| + |" AND site:"| + |site|
    ensures c + " AND site:" + site + " AND " + p != c + " AND " + p
  {
    assert " AND " + ("site:" + site) == " AND site:" + site;
    assert |c + " AND site:" + site + " AND " + p| > |c + " AND " + p|;
  }
}
