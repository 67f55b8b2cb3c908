/** The prompt objects: `InMemoryPrompt`, which keeps its text in the
    object, and the `Cached` decorator, which remembers the last text it
    was given and from then on answers `get` without asking the prompt it
    wraps. `compile` is `str.format` with named parameters only. */
module Prompts {
  import opened Wrappers
  import opened Text

  /** `InMemoryPrompt`. */
  class InMemoryPrompt {
    var prompt: string

    constructor (prompt: string)
      ensures this.prompt == prompt
    {
      this.prompt := prompt;
    }

    /** `get()`: the text last stored. */
    method Get() returns (r: string)
      ensures r == prompt
    {
      r := prompt;
    }

    /** `update(new_prompt)`: the text is replaced and returned. */
    method Update(newPrompt: string) returns (r: string)
      modifies this`prompt
      ensures prompt == newPrompt && r == newPrompt
    {
      prompt := newPrompt;
      r := newPrompt;
    }

    /** `compile(prompt, **kwargs)`: `prompt.format(**kwargs)`. */
    method Compile(text: string, kwargs: map<string, string>) returns (r: string)
      ensures r == Format(text, kwargs)
    {
      r := Format(text, kwargs);
    }

    /** `get_and_compile(**kwargs)`: the stored text, formatted. */
    method GetAndCompile(kwargs: map<string, string>) returns (r: string)
      ensures r == Format(prompt, kwargs)
    {
      var text := Get();
      r := Compile(text, kwargs);
    }
  }

  /** A new `InMemoryPrompt` gives back its constructor's text. */
  method GetBeforeUpdate(text: string) returns (r: string)
    ensures r == text
  {
    var m := new InMemoryPrompt(text);
    r := m.Get();
  }

  /** After `update(p)` every `get` gives `p`, and `update(p)` twice leaves
      the prompt as `update(p)` once. */
  method UpdateTwice(m: InMemoryPrompt, p: string) returns (first: string, second: string)
    modifies m
    ensures m.prompt == p && first == p && second == p
  {
    var _ := m.Update(p);
    first := m.Get();
    var _ := m.Update(p);
    second := m.Get();
  }

  /** `Cached(inner)`. */
  class Cached {
    const inner: InMemoryPrompt
    var promptText: Option<string>

    constructor (inner: InMemoryPrompt)
      ensures this.inner == inner && promptText == None
    {
      this.inner := inner;
      promptText := None;
    }

    /** The text `get` gives: the cached text once there is one, the inner
        prompt's text before. */
    function Text(): string
      reads this, inner
    {
      if promptText.Some? then promptText.value else inner.prompt
    }

    /** `get()`; it never fills the cache. */
    method Get() returns (r: string)
      ensures promptText.Some? ==> r == promptText.value
      ensures promptText.None? ==> r == inner.prompt
    {
      if promptText.Some? {
        return promptText.value;
      }
      r := inner.Get();
    }

    /** `update(new_prompt)`: the inner prompt is updated first, then the
        text is cached and returned. */
    method Update(newPrompt: string) returns (r: string)
      modifies this`promptText, inner`prompt
      ensures inner.prompt == newPrompt && promptText == Some(newPrompt) && r == newPrompt
    {
      var _ := inner.Update(newPrompt);
      promptText := Some(newPrompt);
      r := newPrompt;
    }

    /** `get_and_compile(**kwargs)`: the inner prompt compiles the text
        `get` gives. */
    method GetAndCompile(kwargs: map<string, string>) returns (r: string)
      ensures r == Format(Text(), kwargs)
    {
      var text := Get();
      r := inner.Compile(text, kwargs);
    }

    /** `compile(prompt, **kwargs)`: handed to the inner prompt. */
    method Compile(text: string, kwargs: map<string, string>) returns (r: string)
      ensures r == Format(text, kwargs)
    {
      r := inner.Compile(text, kwargs);
    }
  }

  /** Before any `update`, a `Cached` prompt follows its inner prompt, even
      when the inner text changes between two calls of `get`. */
  method CachedFollowsInner(inner: InMemoryPrompt, q: string) returns (before: string, after: string)
    modifies inner
    ensures before == old(inner.prompt) && after == q
  {
    var c := new Cached(inner);
    before := c.Get();
    var _ := inner.Update(q);
    after := c.Get();
  }

  /** After `update(p)`, a `Cached` prompt gives `p` without consulting its
      inner prompt: a later change of the inner text is not seen. */
  method CachedHidesInner(inner: InMemoryPrompt, p: string, q: string) returns (r: string)
    modifies inner
    ensures inner.prompt == q && r == p
  {
    var c := new Cached(inner);
    var _ := c.Update(p);
    var _ := inner.Update(q);
    r := c.Get();
  }
}
