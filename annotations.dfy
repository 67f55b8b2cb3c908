/** What the item decorators of `word_classifications` compute for one
    NER item (a dictionary with `entity_group`, `word`, `start`, `end` and
    `original_text`): the context window around the word, the first person
    among the items still to come, and the answer an LLM gives about a
    person. The classes that apply these to the items of an inner iterator
    are in `Decorators` and `NerDecorators`. */
module Annotations {
  import opened Wrappers
  import opened Text
  import opened PyValues
  import Prompts

  /** How many characters of context the window takes on each side. */
  const Margin: int := 100

  // ---------------------------------------------------------------- source window

  /** `s.strip().replace("\n", " ").replace("\t", " ")`. */
  function Cleaned(s: string): string
  {
    ReplaceChar(ReplaceChar(Strip(s), '\n', ' '), '\t', ' ')
  }

  /** The cleaned text is the stripped text with line feeds and tabs turned
      into spaces: no line feed or tab is left, it is no longer than the
      text, and it is still stripped. */
  lemma CleanedShape(s: string)
    ensures |Cleaned(s)| == |Strip(s)| <= |s|
    ensures forall k :: 0 <= k < |Strip(s)| ==>
              Cleaned(s)[k] == (if Strip(s)[k] == '\n' || Strip(s)[k] == '\t' then ' ' else Strip(s)[k])
    ensures '\n' !in Cleaned(s) && '\t' !in Cleaned(s)
    ensures Stripped(Cleaned(s))
  {
    var t := Strip(s);
    var _, _ := StripIsTrim(s);
    var c := Cleaned(s);
    assert IsSpace('\n') && IsSpace('\t');
    if t != [] {
      assert c[0] == t[0];
      assert c[|c| - 1] == t[|t| - 1];
    }
  }

  /** `original_text[start - 100:end + 100]` with Python's slice rules, as
      `word_classifications/with_source.py` takes it: the bounds are not
      clamped, so a negative lower bound counts from the end of the text. */
  function UnclampedWindow(text: string, start: int, end: int): string
  {
    PySlice(text, start - Margin, end + Margin)
  }

  /** The lower bound of the window in `ner/with_source.py`. */
  function ClampedLow(start: int): (lo: int)
    ensures lo >= 0 && lo >= start - Margin
  {
    if start - Margin < 0 then 0 else start - Margin
  }

  /** The upper bound of the window in `ner/with_source.py`. */
  function ClampedHigh(n: nat, end: int): (hi: int)
    ensures hi <= n && hi <= end + Margin
  {
    if n < end + Margin then n else end + Margin
  }

  /** `original_text[max(0, start - 100):min(len(original_text), end + 100)]`. */
  function ClampedWindow(text: string, start: int, end: int): string
  {
    PySlice(text, ClampedLow(start), ClampedHigh(|text|, end))
  }

  /** For an end offset no smaller than `-100` (NER offsets are never
      negative) the clamped window is the part of the text between the two
      bounds, at most `(end - start) + 200` long, and it holds the word
      `original_text[start:end]` whenever the offsets lie in the text. */
  lemma ClampedWindowWithin(text: string, start: int, end: int)
    requires end + Margin >= 0
    ensures var lo, hi := ClampedLow(start), ClampedHigh(|text|, end);
            ClampedWindow(text, start, end) == (if lo < hi then text[lo..hi] else [])
    ensures |ClampedWindow(text, start, end)| <= (if end - start + 2 * Margin < 0 then 0 else end - start + 2 * Margin)
    ensures 0 <= start <= end <= |text| ==> Contains(ClampedWindow(text, start, end), text[start..end])
  {
    var lo, hi := ClampedLow(start), ClampedHigh(|text|, end);
    assert PyIndex(lo, |text|) == (if lo > |text| then |text| else lo);
    assert PyIndex(hi, |text|) == hi;
    if 0 <= start <= end <= |text| {
      WindowHoldsWord(text, lo, hi, start, end);
    }
  }

  /** A slice around the word holds the word. */
  lemma WindowHoldsWord(text: string, lo: nat, hi: nat, start: nat, end: nat)
    requires lo <= start <= end <= hi <= |text|
    ensures Contains(if lo < hi then text[lo..hi] else [], text[start..end])
  {
    var w := if lo < hi then text[lo..hi] else [];
    var d := start - lo;
    if lo < hi {
      forall m | 0 <= m < end - start
        ensures w[d..d + (end - start)][m] == text[start..end][m]
      {
        assert w[d + m] == text[lo + d + m];
      }
      assert w[d..d + (end - start)] == text[start..end];
    } else {
      assert text[start..end] == [];
    }
    ContainsAt(w, text[start..end], d);
  }

  /** Near the start of a long text the unclamped window of
      `with_source.py` is empty: `start - 100` is negative, so Python counts
      it from the end of the text, past `end + 100`. The clamped window
      still holds the word. */
  lemma UnclampedLosesWord(text: string, start: int, end: int)
    requires 0 <= start < Margin && start <= end
    requires |text| >= end - start + 2 * Margin
    ensures UnclampedWindow(text, start, end) == []
    ensures Cleaned(UnclampedWindow(text, start, end)) == []
    ensures Contains(ClampedWindow(text, start, end), text[start..end])
  {
    assert PyIndex(start - Margin, |text|) == |text| + start - Margin;
    assert PyIndex(end + Margin, |text|) == end + Margin;
    assert StripStart([]) == [];
    ClampedWindowWithin(text, start, end);
  }

  /** The `source` that `with_source.py` computes for an item, or the
      exception it raises: `start`, then `end`, then `original_text` is
      read. */
  function UnclampedSource(m: map<string, Json>): (r: Result<string, PyError>)
    ensures r.Ok? <==> GetInt(m, "start").Ok? && GetInt(m, "end").Ok? && GetStr(m, "original_text").Ok?
    ensures r.Err? ==> r.error == (if GetInt(m, "start").Err? then GetInt(m, "start").error
                                   else if GetInt(m, "end").Err? then GetInt(m, "end").error
                                   else GetStr(m, "original_text").error)
    ensures r.Ok? ==> r.value == Cleaned(UnclampedWindow(m["original_text"].s, m["start"].i, m["end"].i))
  {
    match GetInt(m, "start")
    case Err(e) => Err(e)
    case Ok(start) =>
      match GetInt(m, "end")
      case Err(e) => Err(e)
      case Ok(end) =>
        match GetStr(m, "original_text")
        case Err(e) => Err(e)
        case Ok(text) => Ok(Cleaned(UnclampedWindow(text, start, end)))
  }

  /** The `source` that `ner/with_source.py` computes, or the exception it
      raises: `start`, then `original_text` (its length is taken first),
      then `end` is read. */
  function ClampedSource(m: map<string, Json>): (r: Result<string, PyError>)
    ensures r.Ok? <==> GetInt(m, "start").Ok? && GetStr(m, "original_text").Ok? && GetInt(m, "end").Ok?
    ensures r.Err? ==> r.error == (if GetInt(m, "start").Err? then GetInt(m, "start").error
                                   else if GetStr(m, "original_text").Err? then GetStr(m, "original_text").error
                                   else GetInt(m, "end").error)
    ensures r.Ok? ==> r.value == Cleaned(ClampedWindow(m["original_text"].s, m["start"].i, m["end"].i))
  {
    match GetInt(m, "start")
    case Err(e) => Err(e)
    case Ok(start) =>
      match GetStr(m, "original_text")
      case Err(e) => Err(e)
      case Ok(text) =>
        match GetInt(m, "end")
        case Err(e) => Err(e)
        case Ok(end) => Ok(Cleaned(ClampedWindow(text, start, end)))
  }

  /** A clamped `source` has no line feed or tab, is stripped, and is no
      longer than `(end - start) + 200`. */
  lemma ClampedSourceShape(m: map<string, Json>)
    requires ClampedSource(m).Ok? && m["end"].i + Margin >= 0
    ensures var s := ClampedSource(m).value;
            '\n' !in s && '\t' !in s && Stripped(s)
            && |s| <= (if m["end"].i - m["start"].i + 2 * Margin < 0 then 0 else m["end"].i - m["start"].i + 2 * Margin)
  {
    var w := ClampedWindow(m["original_text"].s, m["start"].i, m["end"].i);
    CleanedShape(w);
    ClampedWindowWithin(m["original_text"].s, m["start"].i, m["end"].i);
  }

  /** An unclamped `source` has no line feed or tab, is stripped, and is
      a cleaned part of the text. */
  lemma UnclampedSourceShape(m: map<string, Json>)
    requires UnclampedSource(m).Ok?
    ensures var s := UnclampedSource(m).value;
            '\n' !in s && '\t' !in s && Stripped(s) && |s| <= |m["original_text"].s|
  {
    var text := m["original_text"].s;
    var w := UnclampedWindow(text, m["start"].i, m["end"].i);
    CleanedShape(w);
    var _, _ := PySliceWithin(text, m["start"].i - Margin, m["end"].i + Margin);
  }

  // ---------------------------------------------------------------- people only

  /** Where a call of `OnlyPeople.__next__` over the items `es` ends when it
      starts at item `i`: at the first person `k` (whose `name` it sets),
      at the end of the items (`StopIteration`), or at item `k` with the
      exception reading that item raised. */
  datatype Scan = Found(k: nat) | Exhausted | Failed(k: nat, error: PyError)

  /** The index just past the last item a scan consumed. */
  function Consumed(s: Scan, n: nat): nat
  {
    match s
    case Found(k) => k + 1
    case Exhausted => n
    case Failed(k, _) => k + 1
  }

  /** The scan of `OnlyPeople.__next__` from item `i`. */
  function ScanFrom(es: seq<map<string, Json>>, i: nat): (r: Scan)
    requires i <= |es|
    ensures i <= Consumed(r, |es|) <= |es|
    ensures r.Found? ==> i <= r.k && IsPerson(es[r.k]) == Ok(true) && "word" in es[r.k]
    ensures r.Failed? ==> i <= r.k
    decreases |es| - i
  {
    if i == |es| then Exhausted
    else match IsPerson(es[i])
      case Err(e) => Failed(i, e)
      case Ok(isPerson) =>
        if !isPerson then ScanFrom(es, i + 1)
        else if "word" !in es[i] then Failed(i, KeyError("word"))
        else Found(i)
  }

  /** A scan skips only items that are not people, and it fails exactly on
      an item without `entity_group` or a person without `word`. */
  lemma {:induction false} ScanSkips(es: seq<map<string, Json>>, i: nat)
    requires i <= |es|
    ensures var r := ScanFrom(es, i);
            (forall j :: i <= j < |es| && j < Consumed(r, |es|) - (if r.Exhausted? then 0 else 1) ==> IsPerson(es[j]) == Ok(false))
            && (r.Failed? ==> (r.error == KeyError("entity_group") && "entity_group" !in es[r.k])
                              || (IsPerson(es[r.k]) == Ok(true) && r.error == KeyError("word") && "word" !in es[r.k]))
    decreases |es| - i
  {
    if i < |es| && IsPerson(es[i]) == Ok(false) {
      ScanSkips(es, i + 1);
    }
  }

  /** An item as `OnlyPeople` returns it: `name` set to its `word`. */
  function Named(m: map<string, Json>): (r: map<string, Json>)
    requires "word" in m
    ensures r.Keys == m.Keys + {"name"} && r["name"] == m["word"]
    ensures forall key :: key in m && key != "name" ==> r[key] == m[key]
  {
    m["name" := m["word"]]
  }

  /** An item the filter can read: it has `entity_group`, and `word` when
      it is a person. */
  predicate Readable(m: map<string, Json>)
  {
    "entity_group" in m && (m["entity_group"] == JStr("PER") ==> "word" in m)
  }

  /** The people among the items, in order, each named after its word. */
  function NamedPeople(es: seq<map<string, Json>>): seq<map<string, Json>>
    requires forall j :: 0 <= j < |es| ==> Readable(es[j])
  {
    if es == [] then []
    else
      assert Readable(es[0]);
      (if es[0]["entity_group"] == JStr("PER") then [Named(es[0])] else []) + NamedPeople(es[1..])
  }

  /** Calling `OnlyPeople.__next__` again and again from item `i`: the
      items returned, in order, and the exception that ended the calls
      (`None` for `StopIteration`). The items are taken as they were
      before the first call. */
  function PeopleRunFrom(es: seq<map<string, Json>>, i: nat): (seq<map<string, Json>>, Option<PyError>)
    requires i <= |es|
    decreases |es| - i
  {
    match ScanFrom(es, i)
    case Exhausted => ([], None)
    case Failed(_, e) => ([], Some(e))
    case Found(k) =>
      var rest := PeopleRunFrom(es, k + 1);
      ([Named(es[k])] + rest.0, rest.1)
  }

  /** Over items the filter can read, the calls return exactly the people,
      in their order, each named after its word, and end with
      `StopIteration`. */
  lemma {:induction false} PeopleRunIsFilter(es: seq<map<string, Json>>, i: nat)
    requires i <= |es|
    requires forall j :: 0 <= j < |es| ==> Readable(es[j])
    ensures PeopleRunFrom(es, i) == (NamedPeople(es[i..]), None)
    decreases |es| - i
  {
    var r := ScanFrom(es, i);
    ScanSkips(es, i);
    match r
    case Exhausted =>
      NonPeopleDropped(es, i, |es|);
    case Failed(k, e) =>
      assert false;
    case Found(k) =>
      PeopleRunIsFilter(es, k + 1);
      NonPeopleDropped(es, i, k);
      assert es[k..][1..] == es[k + 1..];
  }

  /** Items that are not people contribute nothing. */
  lemma {:induction false} NonPeopleDropped(es: seq<map<string, Json>>, i: nat, k: nat)
    requires i <= k <= |es|
    requires forall j :: 0 <= j < |es| ==> Readable(es[j])
    requires forall j :: i <= j < k ==> IsPerson(es[j]) == Ok(false)
    ensures NamedPeople(es[i..]) == NamedPeople(es[k..])
    decreases k - i
  {
    if i < k {
      assert es[i..][0] == es[i] && es[i..][1..] == es[i + 1..];
      NonPeopleDropped(es, i + 1, k);
    }
  }

  /** `OnlyPeople.__next__` on an inner iterator: items that are not people
      are consumed and dropped; the first person gets `name` set to its
      `word` and is returned; an item that cannot be read raises. */
  method NextPerson(inner: ItemSource) returns (r: Step)
    modifies inner`remaining, set d | d in inner.remaining
    ensures var items, es := old(inner.remaining), old(EntriesOf(inner.remaining));
            match ScanFrom(es, 0)
            case Exhausted => r == Stop && inner.remaining == []
            case Failed(k, e) => r == Raise(e) && inner.remaining == items[k + 1..]
            case Found(k) => r == Yield(items[k]) && inner.remaining == items[k + 1..] && items[k].entries == Named(es[k])
    ensures forall d :: d in old(inner.remaining) && !(r.Yield? && d == r.item) ==> d.entries == old(d.entries)
  {
    ghost var items := inner.remaining;
    ghost var es := EntriesOf(items);
    var i := 0;
    while true
      invariant 0 <= i <= |items| && inner.remaining == items[i..]
      invariant ScanFrom(es, 0) == ScanFrom(es, i)
      invariant forall j :: 0 <= j < |items| ==> items[j].entries == es[j]
      decreases |items| - i
    {
      var o := inner.Next();
      if o.None? {
        return Stop;
      }
      var wc := o.value;
      assert wc == items[i];
      var isPerson := IsPerson(wc.entries);
      if isPerson.Err? {
        return Raise(isPerson.error);
      }
      if isPerson.value {
        if "word" !in wc.entries {
          return Raise(KeyError("word"));
        }
        wc.entries := wc.entries["name" := wc.entries["word"]];
        return Yield(wc);
      }
      i := i + 1;
    }
  }

  // ---------------------------------------------------------------- asking about a person

  const CompanyNotPerson: string := "WithCompany decorator works only with entity type = 'PER'"
  const PositionNotPerson: string := "WithPosition decorator works only with entity type = 'PER'"

  /** The prompt parameters `person=wc["word"], context=wc["source"]`. */
  function PersonParams(word: string, source: string): map<string, string>
  {
    map["person" := word, "context" := source]
  }

  /** `ask(template.format(person=wc["word"], context=wc["source"]))` for
      a person item; `RuntimeError(notPerson)` for any other entity, the
      `KeyError` (or the `TypeError` of a value that is not a string) of a
      missing field, and the exception the LLM client raises. */
  function AskAbout(m: map<string, Json>, template: string, ask: string -> Result<string, PyError>, notPerson: string)
    : (r: Result<string, PyError>)
    ensures IsPerson(m).Err? ==> r == Err(KeyError("entity_group"))
    ensures IsPerson(m) == Ok(false) ==> r == Err(RuntimeError(notPerson))
    ensures IsPerson(m) == Ok(true) && GetStr(m, "word").Err? ==> r == Err(GetStr(m, "word").error)
    ensures IsPerson(m) == Ok(true) && GetStr(m, "word").Ok? && GetStr(m, "source").Err?
            ==> r == Err(GetStr(m, "source").error)
    ensures IsPerson(m) == Ok(true) && GetStr(m, "word").Ok? && GetStr(m, "source").Ok?
            ==> r == ask(Format(template, PersonParams(m["word"].s, m["source"].s)))
    ensures r.Ok? ==> IsPerson(m) == Ok(true) && GetStr(m, "word").Ok? && GetStr(m, "source").Ok?
  {
    match IsPerson(m)
    case Err(e) => Err(e)
    case Ok(isPerson) =>
      if !isPerson then Err(RuntimeError(notPerson))
      else
        match GetStr(m, "word")
        case Err(e) => Err(e)
        case Ok(word) =>
          match GetStr(m, "source")
          case Err(e) => Err(e)
          case Ok(source) => ask(Format(template, PersonParams(word, source)))
  }

  /** The answer of `AskAbout` as the value stored in the item. */
  function AnswerValue(m: map<string, Json>, template: string, ask: string -> Result<string, PyError>, notPerson: string): (r: Result<Json, PyError>)
    ensures r.Err? <==> AskAbout(m, template, ask, notPerson).Err?
    ensures r.Err? ==> r.error == AskAbout(m, template, ask, notPerson).error
    ensures r.Ok? ==> r.value == JStr(AskAbout(m, template, ask, notPerson).value)
  {
    match AskAbout(m, template, ask, notPerson)
    case Err(e) => Err(e)
    case Ok(a) => Ok(JStr(a))
  }

  /** A template with `{person}` and `{context}` sends the person's word
      and context to the LLM. */
  lemma AskedPromptMentions(word: string, source: string, template: string)
    requires Contains(template, "{person}") && Contains(template, "{context}")
    ensures Contains(Format(template, PersonParams(word, source)), word)
    ensures Contains(Format(template, PersonParams(word, source)), source)
  {
    var params := PersonParams(word, source);
    assert forall key :: key in params ==> key == "person" || key == "context";
    assert "{" + "person" + "}" == "{person}";
    assert "{" + "context" + "}" == "{context}";
    FormatSubstitutes(template, params, "person");
    FormatSubstitutes(template, params, "context");
  }

  /** The value `source` gets, as the item stores it. */
  function SourceValue(source: Result<string, PyError>): (r: Result<Json, PyError>)
    ensures r.Err? <==> source.Err?
    ensures r.Err? ==> r.error == source.error
    ensures r.Ok? ==> r.value == JStr(source.value)
  {
    match source
    case Err(e) => Err(e)
    case Ok(s) => Ok(JStr(s))
  }

  function FirstOf(items: seq<Dict>): set<Dict>
  {
    if items == [] then {} else {items[0]}
  }

  /** One `__next__` of a decorator that sets one field on every item:
      the next inner item gets `key` set to the value `f` computes from its
      fields, or the exception `f` gives is raised; `StopIteration` of the
      inner iterator goes through. */
  method NextAnnotated(inner: ItemSource, key: string, f: map<string, Json> -> Result<Json, PyError>) returns (r: Step)
    modifies inner`remaining, FirstOf(inner.remaining)
    ensures old(inner.remaining) == [] ==> r == Stop && inner.remaining == []
    ensures old(inner.remaining) != [] ==>
              var wc := old(inner.remaining[0]);
              inner.remaining == old(inner.remaining[1..])
              && match f(old(wc.entries))
                 case Err(e) => r == Raise(e) && wc.entries == old(wc.entries)
                 case Ok(v) => r == Yield(wc) && wc.entries == old(wc.entries)[key := v]
  {
    var o := inner.Next();
    if o.None? {
      return Stop;
    }
    var wc := o.value;
    var v := f(wc.entries);
    if v.Err? {
      return Raise(v.error);
    }
    wc.entries := wc.entries[key := v.value];
    return Yield(wc);
  }

  /** One `__next__` of `WithCompany` or of the NER `WithPosition`: the
      next inner item must be a person; it gets `key` set to the LLM's
      answer to the prompt compiled with its word and context. An exception
      of the LLM client leaves the item, already taken, as it was. */
  method NextAsked(inner: ItemSource, prompt: Prompts.Cached, ask: string -> Result<string, PyError>, key: string,
                   notPerson: string)
    returns (r: Step)
    modifies inner`remaining, FirstOf(inner.remaining)
    ensures old(inner.remaining) == [] ==> r == Stop && inner.remaining == []
    ensures old(inner.remaining) != [] ==>
              var wc := old(inner.remaining[0]);
              inner.remaining == old(inner.remaining[1..])
              && match AskAbout(old(wc.entries), prompt.Text(), ask, notPerson)
                 case Err(e) => r == Raise(e) && wc.entries == old(wc.entries)
                 case Ok(a) => r == Yield(wc) && wc.entries == old(wc.entries)[key := JStr(a)]
  {
    var o := inner.Next();
    if o.None? {
      return Stop;
    }
    var wc := o.value;
    var isPerson := IsPerson(wc.entries);
    if isPerson.Err? {
      return Raise(isPerson.error);
    }
    if !isPerson.value {
      return Raise(RuntimeError(notPerson));
    }
    var word := GetStr(wc.entries, "word");
    if word.Err? {
      return Raise(word.error);
    }
    var source := GetStr(wc.entries, "source");
    if source.Err? {
      return Raise(source.error);
    }
    var text := prompt.GetAndCompile(PersonParams(word.value, source.value));
    var answer := ask(text);
    if answer.Err? {
      return Raise(answer.error);
    }
    wc.entries := wc.entries[key := JStr(answer.value)];
    return Yield(wc);
  }
}
