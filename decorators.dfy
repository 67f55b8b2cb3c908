/** The item decorators of `word_classifications/`: each wraps an inner
    iterator of NER items and, on every `__next__`, takes the next inner
    item and updates that same dictionary in place. `OnlyPeople` drops the
    items that are not people; the others pass exactly one item out per
    item in and set one field. */
module Decorators {
  import opened Wrappers
  import opened Text
  import opened PyValues
  import opened Annotations
  import Prompts

  /** `with_source.WithSource`: sets `source` to the unclamped context
      window around the word. */
  class WithSource {
    const inner: ItemSource

    constructor (inner: ItemSource)
      ensures this.inner == inner
    {
      this.inner := inner;
    }

    /** `__iter__` returns the decorator itself (the inner iterator's
        `__iter__` is not called). */
    method Iter() returns (r: WithSource)
      ensures r == this
    {
      r := this;
    }

    method Next() returns (r: Step)
      modifies inner`remaining, FirstOf(inner.remaining)
      ensures old(inner.remaining) == [] ==> r == Stop && inner.remaining == []
      ensures old(inner.remaining) != [] ==>
                var wc := old(inner.remaining[0]);
                inner.remaining == old(inner.remaining[1..])
                && match UnclampedSource(old(wc.entries))
                   case Err(e) => r == Raise(e) && wc.entries == old(wc.entries)
                   case Ok(s) => r == Yield(wc) && wc.entries == old(wc.entries)["source" := JStr(s)]
    {
      r := NextAnnotated(inner, "source", m => SourceValue(UnclampedSource(m)));
    }
  }

  /** `only_people.OnlyPeople`: returns the next person, named after its
      word. */
  class OnlyPeople {
    const inner: ItemSource

    constructor (inner: ItemSource)
      ensures this.inner == inner
    {
      this.inner := inner;
    }

    method Iter() returns (r: OnlyPeople)
      ensures r == this
    {
      r := this;
    }

    method Next() returns (r: Step)
      modifies inner`remaining, set d | d in inner.remaining
      ensures var items, es := old(inner.remaining), old(EntriesOf(inner.remaining));
              match ScanFrom(es, 0)
              case Exhausted => r == Stop && inner.remaining == []
              case Failed(k, e) => r == Raise(e) && inner.remaining == items[k + 1..]
              case Found(k) => r == Yield(items[k]) && inner.remaining == items[k + 1..] && items[k].entries == Named(es[k])
      ensures forall d :: d in old(inner.remaining) && !(r.Yield? && d == r.item) ==> d.entries == old(d.entries)
    {
      r := NextPerson(inner);
    }
  }

  /** `with_company.WithCompany`: sets `inferenced_company` to the LLM's
      answer to the prompt compiled with the person and its context.
      `ask` is the LLM client; its exception goes through. */
  class WithCompany {
    const ask: string -> Result<string, PyError>
    const prompt: Prompts.Cached
    const inner: ItemSource

    constructor (ask: string -> Result<string, PyError>, prompt: Prompts.Cached, inner: ItemSource)
      ensures this.ask == ask && this.prompt == prompt && this.inner == inner
    {
      this.ask := ask;
      this.prompt := prompt;
      this.inner := inner;
    }

    /** `__iter__` calls the inner iterator's `__iter__` and returns the
        decorator itself. */
    method Iter() returns (r: WithCompany)
      modifies inner`iterCalls
      ensures r == this && inner.iterCalls == old(inner.iterCalls) + 1
    {
      inner.Iter();
      r := this;
    }

    method Next() returns (r: Step)
      modifies inner`remaining, FirstOf(inner.remaining)
      ensures old(inner.remaining) == [] ==> r == Stop && inner.remaining == []
      ensures old(inner.remaining) != [] ==>
                var wc := old(inner.remaining[0]);
                inner.remaining == old(inner.remaining[1..])
                && match AskAbout(old(wc.entries), prompt.Text(), ask, CompanyNotPerson)
                   case Err(e) => r == Raise(e) && wc.entries == old(wc.entries)
                   case Ok(a) => r == Yield(wc) && wc.entries == old(wc.entries)["inferenced_company" := JStr(a)]
    {
      r := NextAsked(inner, prompt, ask, "inferenced_company", CompanyNotPerson);
    }
  }

  /** The text before `{person}` in the fixed question of
      `with_position.WithPosition`. */
  const PositionQueryHead: string := "Какую должность занимает "

  /** The text between `{person}` and `{context}` in that question. */
  const PositionQueryMiddle: string :=
    "? В ответе напиши только название должности. \nЕсли в тексте нет информации для ответа на вопрос, просто скажи None.\n\n"

  /** The fixed question `WithPosition.__query`. */
  const PositionQuery: string := PositionQueryHead + "{person}" + PositionQueryMiddle + "{context}"

  /** The question sent for a person holds its word and its context. */
  lemma PositionQueryMentions(word: string, source: string)
    ensures Contains(Format(PositionQuery, PersonParams(word, source)), word)
    ensures Contains(Format(PositionQuery, PersonParams(word, source)), source)
  {
    var h := |PositionQueryHead|;
    assert PositionQuery[h..h + |"{person}"|] == "{person}";
    ContainsAt(PositionQuery, "{person}", h);
    var c := |PositionQuery| - |"{context}"|;
    assert PositionQuery[c..c + |"{context}"|] == "{context}";
    ContainsAt(PositionQuery, "{context}", c);
    AskedPromptMentions(word, source, PositionQuery);
  }

  /** `with_position.WithPosition`: sets `position` to the LLM's answer to
      the fixed question about the person and its context.
      `ask` is the LLM client; its exception goes through. */
  class WithPosition {
    const ask: string -> Result<string, PyError>
    const inner: ItemSource

    constructor (ask: string -> Result<string, PyError>, inner: ItemSource)
      ensures this.ask == ask && this.inner == inner
    {
      this.ask := ask;
      this.inner := inner;
    }

    method Iter() returns (r: WithPosition)
      ensures r == this
    {
      r := this;
    }

    method Next() returns (r: Step)
      modifies inner`remaining, FirstOf(inner.remaining)
      ensures old(inner.remaining) == [] ==> r == Stop && inner.remaining == []
      ensures old(inner.remaining) != [] ==>
                var wc := old(inner.remaining[0]);
                inner.remaining == old(inner.remaining[1..])
                && match AskAbout(old(wc.entries), PositionQuery, ask, PositionNotPerson)
                   case Err(e) => r == Raise(e) && wc.entries == old(wc.entries)
                   case Ok(a) => r == Yield(wc) && wc.entries == old(wc.entries)["position" := JStr(a)]
    {
      r := NextAnnotated(inner, "position", m => AnswerValue(m, PositionQuery, ask, PositionNotPerson));
    }
  }
}
