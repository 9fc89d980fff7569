/**
 * Translation assembly: one Google translation of the Chinese text, and one ChatGPT
 * translation per prompt, each sent with the text substituted for `{chinese}` in the
 * prompt's template and kept under the prompt's name together with its region.
 *
 * The Google Translate and ChatGPT calls are oracles: functions from the request to
 * its outcome (for ChatGPT, the outcome after retrying server errors).
 */
module Translate {
  import opened Wrappers
  import opened Regions
  import opened Strings

  /** A prompt template and the region its translation is meant for. */
  datatype Prompt = Prompt(text: string, region: Region)

  datatype Translations = Translations(
    chineseText: string,
    google: string,
    chatgpt: map<string, (string, Region)>)

  const Placeholder: string := "{chinese}"

  /** The message sent for a prompt: every `{chinese}` in the template replaced by the text. */
  function PromptMessage(template: string, chinese: string): string
  {
    Replace(template, Placeholder, chinese)
  }

  /** A template without the placeholder is sent as it is. */
  lemma PromptWithoutPlaceholder(template: string, chinese: string)
    requires !Contains(template, Placeholder)
    ensures PromptMessage(template, chinese) == template
  {
    ReplaceAbsent(template, Placeholder, chinese);
  }

  /** A template that starts with the placeholder, and has no other, sends the text followed by the rest of the template. */
  lemma PromptLeadingPlaceholder(rest: string, chinese: string)
    requires !Contains(rest, Placeholder)
    ensures PromptMessage(Placeholder + rest, chinese) == chinese + rest
  {
    PlaceholderFirst(Placeholder, chinese, rest);
  }

  /**
   * No placeholder starts inside `before`, even one running on into a following
   * placeholder: `before` may hold braces, but no `{chinese}` begins in it.
   */
  predicate NoPlaceholderIn(before: string)
  {
    !Contains(before + Placeholder[..|Placeholder| - 1], Placeholder)
  }

  /**
   * The first placeholder of a template is replaced by the text and the rest of the
   * template is substituted in turn, so every placeholder receives the text.
   */
  lemma PromptPlaceholderStep(before: string, after: string, chinese: string)
    requires NoPlaceholderIn(before)
    ensures PromptMessage(before + Placeholder + after, chinese) == before + chinese + PromptMessage(after, chinese)
  {
    ReplaceStep(before, Placeholder, chinese, after);
  }

  /** A template with a single placeholder anywhere sends the text in the placeholder's place. */
  lemma PromptSinglePlaceholder(before: string, after: string, chinese: string)
    requires NoPlaceholderIn(before) && !Contains(after, Placeholder)
    ensures PromptMessage(before + Placeholder + after, chinese) == before + chinese + after
  {
    PromptPlaceholderStep(before, after, chinese);
    ReplaceAbsent(after, Placeholder, chinese);
  }

  /** Text that holds no `{` holds no placeholder start. */
  lemma BraceFreeHasNoPlaceholder(before: string)
    requires '{' !in before
    ensures NoPlaceholderIn(before)
  {
    var u := before + Placeholder[..|Placeholder| - 1];
    forall i | 0 <= i <= |u| - |Placeholder| ensures !OccursAt(u, Placeholder, i) {
      assert u[i..i + |Placeholder|][0] == u[i];
      assert u[i] == before[i];
    }
  }

  /** A brace before the placeholder does not stop the substitution: `{x} {chinese}` sends `{x} ` and the text. */
  lemma PromptAfterBrace(chinese: string)
    ensures PromptMessage("{x} " + Placeholder, chinese) == "{x} " + chinese
  {
    var u := "{x} " + Placeholder[..|Placeholder| - 1];
    forall i | 0 <= i <= |u| - |Placeholder| ensures !OccursAt(u, Placeholder, i) {
      assert u[i..i + |Placeholder|][1] == u[i + 1];
    }
    assert !Contains([], Placeholder);
    PromptSinglePlaceholder("{x} ", [], chinese);
    assert "{x} " + Placeholder + [] == "{x} " + Placeholder;
  }

  /** The reply ChatGPT gives to a prompt's message. */
  function ChatReply(askChatgpt: string -> Result<string>, prompt: Prompt, chinese: string): Result<string>
  {
    askChatgpt(PromptMessage(prompt.text, chinese))
  }

  /** Every call `translate` makes succeeds: the Google translation and the reply to each prompt. */
  predicate Succeeds(
    chinese: string,
    prompts: map<string, Prompt>,
    googleTranslate: string -> Result<string>,
    askChatgpt: string -> Result<string>)
  {
    googleTranslate(chinese).Ok?
    && forall name :: name in prompts ==> ChatReply(askChatgpt, prompts[name], chinese).Ok?
  }

  /**
   * The translations assembled when every call succeeds: the text itself, its Google
   * translation, and under each prompt's name the reply to that prompt with the prompt's
   * region.
   */
  function Assemble(
    chinese: string,
    prompts: map<string, Prompt>,
    googleTranslate: string -> Result<string>,
    askChatgpt: string -> Result<string>): (t: Translations)
    requires Succeeds(chinese, prompts, googleTranslate, askChatgpt)
    ensures t.chineseText == chinese && t.google == googleTranslate(chinese).value
    ensures t.chatgpt.Keys == prompts.Keys
    ensures forall name :: name in prompts ==> t.chatgpt[name].1 == prompts[name].region
  {
    Translations(chinese, googleTranslate(chinese).value,
      map name | name in prompts :: (ChatReply(askChatgpt, prompts[name], chinese).value, prompts[name].region))
  }

  /**
   * `translate`: the Google translation first, then the prompts one after another in the
   * map's order; the first failing call fails the whole translation.
   */
  method Translate(
    chinese: string,
    prompts: map<string, Prompt>,
    googleTranslate: string -> Result<string>,
    askChatgpt: string -> Result<string>)
    returns (r: Result<Translations>)
    ensures r.Ok? <==> Succeeds(chinese, prompts, googleTranslate, askChatgpt)
    ensures r.Ok? ==> r.value == Assemble(chinese, prompts, googleTranslate, askChatgpt)
  {
    var google := googleTranslate(chinese);
    if google.Err? {
      return Err(google.error);
    }
    var chatgpt: map<string, (string, Region)> := map[];
    var pending := prompts.Keys;
    while pending != {}
      invariant pending <= prompts.Keys
      invariant chatgpt.Keys == prompts.Keys - pending
      invariant forall name :: name in chatgpt ==>
        ChatReply(askChatgpt, prompts[name], chinese).Ok?
        && chatgpt[name] == (ChatReply(askChatgpt, prompts[name], chinese).value, prompts[name].region)
      decreases pending
    {
      var name :| name in pending;
      var prompt := prompts[name];
      var message := PromptMessage(prompt.text, chinese);
      var translated := askChatgpt(message);
      if translated.Err? {
        return Err(translated.error);
      }
      chatgpt := chatgpt[name := (translated.value, prompt.region)];
      pending := pending - {name};
    }
    return Ok(Translations(chinese, google.value, chatgpt));
  }
}
