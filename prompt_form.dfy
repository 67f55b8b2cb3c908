/** The `PromptForm` component: two forms, one for the company prompt and
    one for the position prompt. At startup each form takes its text from
    the browser's store or, when the store has none, from the server; the
    update button checks that the text names both variables before it
    hands the text to the job form and stores it; the reset button asks the
    server for the default text and stores that. Server replies are
    inputs: `None` is a request or a `resp.json()` that fails. */
module PromptForms {
  import opened Wrappers
  import opened Text
  import opened Browser
  import Annotations
  import JobSession

  const MissingVariables: string := "Промпт должен содержать переменные: {person}, {context}"

  /** `isContainsVariables`: no message exactly when the text holds both
      `{person}` and `{context}`. */
  function ContainsVariables(value: string): (r: Option<string>)
    ensures r.None? <==> Contains(value, "{person}") && Contains(value, "{context}")
    ensures r.Some? ==> r.value == MissingVariables
  {
    if !Contains(value, "{person}") || !Contains(value, "{context}") then Some(MissingVariables) else None
  }

  /** A prompt the form accepts sends the person's word and context to the
      LLM once the back end compiles it. */
  lemma AcceptedPromptMentions(text: string, word: string, source: string)
    requires ContainsVariables(text).None?
    ensures Contains(Format(text, Annotations.PersonParams(word, source)), word)
    ensures Contains(Format(text, Annotations.PersonParams(word, source)), source)
  {
    Annotations.AskedPromptMentions(word, source, text);
  }

  /** The two forms, by their `name` field. */
  datatype PromptKind = Company | Position

  /** The form's `name`, which is also its key in the store and its path
      on the server. */
  function NameOf(k: PromptKind): (r: string)
    ensures k == Company <==> r == "company"
    ensures k == Position <==> r == "position"
  {
    match k
    case Company => "company"
    case Position => "position"
  }

  function Other(k: PromptKind): (r: PromptKind)
    ensures r != k
  {
    match k
    case Company => Position
    case Position => Company
  }

  /** The text a form shows after startup: the stored text when there is
      one, else the server's text when the request succeeds, else what it
      showed before. */
  function SeedValue(items: map<string, string>, name: string, reply: Option<string>, current: string): (r: string)
    ensures name in items ==> r == items[name]
    ensures name !in items && reply.Some? ==> r == reply.value
    ensures name !in items && reply.None? ==> r == current
  {
    if name in items then items[name] else if reply.Some? then reply.value else current
  }

  class PromptForm {
    const parent: JobSession.CreateCsvForm
    const store: Store
    var loading: bool
    var companyText: string
    var positionText: string
    var companyError: Option<string>
    var positionError: Option<string>

    constructor (parent: JobSession.CreateCsvForm, store: Store)
      ensures this.parent == parent && this.store == store
      ensures !loading && companyText == "" && positionText == "" && companyError == None && positionError == None
    {
      this.parent := parent;
      this.store := store;
      loading := false;
      companyText, positionText := "", "";
      companyError, positionError := None, None;
    }

    /** The text of the form's `prompt_text` field. */
    function TextOf(k: PromptKind): string
      reads this
    {
      if k == Company then companyText else positionText
    }

    /** The error shown on the form's `prompt_text` field. */
    function ErrorOf(k: PromptKind): Option<string>
      reads this
    {
      if k == Company then companyError else positionError
    }

    /** The prompt the job form will send for this kind. */
    function ContextOf(k: PromptKind): string
      reads this, parent
    {
      if k == Company then parent.companyPromptContext else parent.positionPromptContext
    }

    /** `setValue("prompt_text", text)`, also what typing in the field does. */
    method SetText(k: PromptKind, text: string)
      modifies this`companyText, this`positionText
      ensures TextOf(k) == text && TextOf(Other(k)) == old(TextOf(Other(k)))
    {
      if k == Company {
        companyText := text;
      } else {
        positionText := text;
      }
    }

    /** `setCompanyPromptContext` / `setPositionPromptContext`. */
    method SetContext(k: PromptKind, text: string)
      modifies parent`companyPromptContext, parent`positionPromptContext
      ensures ContextOf(k) == text && ContextOf(Other(k)) == old(ContextOf(Other(k)))
    {
      if k == Company {
        parent.companyPromptContext := text;
      } else {
        parent.positionPromptContext := text;
      }
    }

    /** One half of the startup effect: it asks the server only when the
        store has no text, and never writes the store. */
    method Seed(k: PromptKind, reply: Option<string>) returns (fetched: bool)
      modifies this`companyText, this`positionText, parent`companyPromptContext, parent`positionPromptContext
      ensures fetched <==> NameOf(k) !in store.items
      ensures TextOf(k) == SeedValue(store.items, NameOf(k), reply, old(TextOf(k)))
      ensures ContextOf(k) == SeedValue(store.items, NameOf(k), reply, old(ContextOf(k)))
      ensures TextOf(Other(k)) == old(TextOf(Other(k))) && ContextOf(Other(k)) == old(ContextOf(Other(k)))
    {
      var stored := store.GetItem(NameOf(k));
      var value := stored;
      fetched := stored.None?;
      if fetched {
        value := reply;
      }
      if value.Some? {
        SetText(k, value.value);
        SetContext(k, value.value);
      }
    }

    /** The startup effect: the names of the prompts requested from the
        server, which are those the store lacks. */
    method Startup(companyReply: Option<string>, positionReply: Option<string>) returns (fetched: seq<string>)
      modifies this`companyText, this`positionText, parent`companyPromptContext, parent`positionPromptContext
      ensures fetched == (if "company" in store.items then [] else ["company"])
                         + (if "position" in store.items then [] else ["position"])
      ensures companyText == SeedValue(store.items, "company", companyReply, old(companyText))
      ensures parent.companyPromptContext == SeedValue(store.items, "company", companyReply, old(parent.companyPromptContext))
      ensures positionText == SeedValue(store.items, "position", positionReply, old(positionText))
      ensures parent.positionPromptContext
              == SeedValue(store.items, "position", positionReply, old(parent.positionPromptContext))
    {
      fetched := [];
      var company := Seed(Company, companyReply);
      if company {
        fetched := fetched + ["company"];
      }
      var position := Seed(Position, positionReply);
      if position {
        fetched := fetched + ["position"];
      }
    }

    /** `onUpdatePrompt` on the form's current text: a text without both
        variables only sets the field's error; a valid one becomes the job
        form's prompt and is stored under the form's name. */
    method UpdatePrompt(k: PromptKind)
      modifies this`companyError, this`positionError, parent`companyPromptContext, parent`positionPromptContext, store`items
      ensures var text := TextOf(k);
              if ContainsVariables(text).Some? then
                ErrorOf(k) == ContainsVariables(text) && ContextOf(k) == old(ContextOf(k))
                && store.items == old(store.items)
              else
                ErrorOf(k) == old(ErrorOf(k)) && ContextOf(k) == text
                && store.items == old(store.items)[NameOf(k) := text]
      ensures ErrorOf(Other(k)) == old(ErrorOf(Other(k))) && ContextOf(Other(k)) == old(ContextOf(Other(k)))
    {
      var text := TextOf(k);
      var error := ContainsVariables(text);
      if error.Some? {
        if k == Company {
          companyError := error;
        } else {
          positionError := error;
        }
        return;
      }
      SetContext(k, text);
      store.SetItem(NameOf(k), text);
    }

    /** `onResetPrompt`: the server's default text goes into the field and
        the store; the job form's prompt is left as it was. `loading` is off
        again in every case. */
    method ResetPrompt(k: PromptKind, reply: Option<string>)
      modifies this`loading, this`companyText, this`positionText, store`items
      ensures !loading
      ensures reply.Some? ==> TextOf(k) == reply.value && store.items == old(store.items)[NameOf(k) := reply.value]
      ensures reply.None? ==> TextOf(k) == old(TextOf(k)) && store.items == old(store.items)
      ensures TextOf(Other(k)) == old(TextOf(Other(k)))
      ensures parent.companyPromptContext == old(parent.companyPromptContext)
      ensures parent.positionPromptContext == old(parent.positionPromptContext)
    {
      loading := true;
      if reply.Some? {
        SetText(k, reply.value);
        store.SetItem(NameOf(k), reply.value);
      }
      loading := false;
    }
  }

  /** A prompt accepted by the update button survives a reload of the page:
      the new forms take it from the store and do not ask the server for
      it. */
  method UpdateThenReload(store: Store, k: PromptKind, text: string, companyReply: Option<string>,
                          positionReply: Option<string>)
    returns (fetched: seq<string>, seeded: string)
    requires ContainsVariables(text).None?
    modifies store
    ensures NameOf(k) !in fetched && seeded == text
  {
    var parent := new JobSession.CreateCsvForm("", store);
    var form := new PromptForm(parent, store);
    form.SetText(k, text);
    assert form.TextOf(k) == text;
    form.UpdatePrompt(k);
    assert NameOf(k) in store.items && store.items[NameOf(k)] == text;
    var reloaded := new JobSession.CreateCsvForm("", store);
    var again := new PromptForm(reloaded, store);
    assert NameOf(k) in store.items && store.items[NameOf(k)] == text;
    fetched := again.Startup(companyReply, positionReply);
    seeded := again.ContextOf(k);
    assert seeded == SeedValue(store.items, NameOf(k), if k == Company then companyReply else positionReply, "");
  }
}
