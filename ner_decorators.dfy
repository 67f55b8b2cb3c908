/** The item decorators of `word_classifications/ner/`: the same kind of
    in-place decorators as in `Decorators`, but each `__iter__` also calls
    the inner iterator's `__iter__`; `WithSource` clamps its window to the
    text, `OnlyPeople` logs every person it finds, and `WithPosition` asks
    with a prompt object instead of a fixed question. */
module NerDecorators {
  import opened Wrappers
  import opened PyValues
  import opened Annotations
  import Prompts

  /** `ner/with_source.WithSource`: sets `source` to the clamped context
      window around the word. */
  class WithSource {
    const inner: ItemSource

    constructor (inner: ItemSource)
      ensures this.inner == inner
    {
      this.inner := inner;
    }

    /** `__iter__` calls the inner iterator's `__iter__` and returns the
        decorator itself. */
    method Iter() returns (r: WithSource)
      modifies inner`iterCalls
      ensures r == this && inner.iterCalls == old(inner.iterCalls) + 1
    {
      inner.Iter();
      r := this;
    }

    method Next() returns (r: Step)
      modifies inner`remaining, FirstOf(inner.remaining)
      ensures old(inner.remaining) == [] ==> r == Stop && inner.remaining == []
      ensures old(inner.remaining) != [] ==>
                var wc := old(inner.remaining[0]);
                inner.remaining == old(inner.remaining[1..])
                && match ClampedSource(old(wc.entries))
                   case Err(e) => r == Raise(e) && wc.entries == old(wc.entries)
                   case Ok(s) => r == Yield(wc) && wc.entries == old(wc.entries)["source" := JStr(s)]
    {
      r := NextAnnotated(inner, "source", m => SourceValue(ClampedSource(m)));
    }
  }

  /** A line of the log: `Найден человек: {word}` at level INFO. */
  datatype LogLine = PersonFound(word: Json)

  /** The `logging.Logger` the filter writes to, seen as its lines. */
  class Logger {
    var lines: seq<LogLine>

    constructor ()
      ensures lines == []
    {
      lines := [];
    }

    method Info(line: LogLine)
      modifies this`lines
      ensures lines == old(lines) + [line]
    {
      lines := lines + [line];
    }
  }

  /** `ner/only_people.OnlyPeople`: returns the next person, named after
      its word, and logs it. */
  class OnlyPeople {
    const logger: Logger
    const inner: ItemSource

    constructor (logger: Logger, inner: ItemSource)
      ensures this.logger == logger && this.inner == inner
    {
      this.logger := logger;
      this.inner := inner;
    }

    method Iter() returns (r: OnlyPeople)
      modifies inner`iterCalls
      ensures r == this && inner.iterCalls == old(inner.iterCalls) + 1
    {
      inner.Iter();
      r := this;
    }

    method Next() returns (r: Step)
      modifies inner`remaining, (set d | d in inner.remaining), logger`lines
      ensures var items, es := old(inner.remaining), old(EntriesOf(inner.remaining));
              match ScanFrom(es, 0)
              case Exhausted => r == Stop && inner.remaining == [] && logger.lines == old(logger.lines)
              case Failed(k, e) => r == Raise(e) && inner.remaining == items[k + 1..] && logger.lines == old(logger.lines)
              case Found(k) =>
                r == Yield(items[k]) && inner.remaining == items[k + 1..] && items[k].entries == Named(es[k])
                && logger.lines == old(logger.lines) + [PersonFound(es[k]["word"])]
      ensures forall d :: d in old(inner.remaining) && !(r.Yield? && d == r.item) ==> d.entries == old(d.entries)
    {
      // The source logs just before it sets `name`; the log does not see
      // the item, so logging just after is the same.
      r := NextPerson(inner);
      if r.Yield? {
        logger.Info(PersonFound(r.item.entries["word"]));
      }
    }
  }

  /** `ner/with_position.WithPosition`: sets `position` to the LLM's answer
      to the prompt compiled with the person and its context.
      `ask` is the LLM client; its exception goes through. */
  class WithPosition {
    const ask: string -> Result<string, PyError>
    const prompt: Prompts.Cached
    const inner: ItemSource

    constructor (ask: string -> Result<string, PyError>, prompt: Prompts.Cached, inner: ItemSource)
      ensures this.ask == ask && this.prompt == prompt && this.inner == inner
    {
      this.ask := ask;
      this.prompt := prompt;
      this.inner := inner;
    }

    method Iter() returns (r: WithPosition)
      modifies inner`iterCalls
      ensures r == this && inner.iterCalls == old(inner.iterCalls) + 1
    {
      inner.Iter();
      r := this;
    }

    method Next() returns (r: Step)
      modifies inner`remaining, FirstOf(inner.remaining)
      ensures old(inner.remaining) == [] ==> r == Stop && inner.remaining == []
      ensures old(inner.remaining) != [] ==>
                var wc := old(inner.remaining[0]);
                inner.remaining == old(inner.remaining[1..])
                && match AskAbout(old(wc.entries), prompt.Text(), ask, PositionNotPerson)
                   case Err(e) => r == Raise(e) && wc.entries == old(wc.entries)
                   case Ok(a) => r == Yield(wc) && wc.entries == old(wc.entries)["position" := JStr(a)]
    {
      r := NextAsked(inner, prompt, ask, "position", PositionNotPerson);
    }
  }
}
