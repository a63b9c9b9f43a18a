/** Prompt assembly in `main` (app.py): one of two fixed templates, chosen by
    whether the context is empty; the query goes in whole, the context only
    up to its first 8000 characters. */
module Prompt {
  import opened Common

  /** The most context characters a prompt carries. */
  const MaxContext := 8000

  const QueryLabel := "User Query: "
  const ContextLabel := "\n\nContext from web search:\n"
  const ContextInstruction :=
    "\n\nPlease provide a comprehensive answer based on the above context. "
    + "If the context is relevant, use it to enhance your response. "
    + "Format your response with clear sections and markdown where appropriate."
  const NoContextNote :=
    "\n\nNote: No additional web context was found. "
    + "Please provide the best answer based on your knowledge."

  /** Python's `s[:n]` for `n >= 0`: the first `n` characters, or all of `s`
      when it is shorter. */
  function Truncate(s: string, n: nat): (r: string)
    ensures |r| == Min(n, |s|)
    ensures r == s[..|r|]
  {
    if |s| <= n then s else s[..n]
  }

  /** Where the context excerpt starts in a with-context prompt. */
  function ExcerptStart(query: string): nat {
    |QueryLabel| + |query| + |ContextLabel|
  }

  /** The prompt sent to the model for `query` and the aggregated context.
      It opens with the whole query; with a context it then carries exactly
      the first `min(8000, |context|)` characters of it and ends with the
      answering instruction; without one it ends with the no-context note. */
  function BuildPrompt(query: string, context: string): (prompt: string)
    ensures |prompt| >= |QueryLabel| + |query|
    ensures prompt[..|QueryLabel|] == QueryLabel
    ensures prompt[|QueryLabel|..|QueryLabel| + |query|] == query
    ensures context != "" ==>
      var m, start := Min(MaxContext, |context|), ExcerptStart(query);
      && |prompt| == start + m + |ContextInstruction|
      && prompt[|QueryLabel| + |query|..start] == ContextLabel
      && prompt[start..start + m] == context[..m]
      && prompt[start + m..] == ContextInstruction
    ensures context == "" ==> prompt[|QueryLabel| + |query|..] == NoContextNote
  {
    if context != "" then
      QueryLabel + query + ContextLabel + Truncate(context, MaxContext) + ContextInstruction
    else
      QueryLabel + query + NoContextNote
  }

  /** The prompt ends with the instruction of the with-context template. */
  predicate UsesContextTemplate(prompt: string) {
    |prompt| >= |ContextInstruction| && prompt[|prompt| - |ContextInstruction|..] == ContextInstruction
  }

  /** The template is chosen by the context alone: the prompt is the
      with-context one exactly when the context is non-empty. */
  lemma TemplateChoice(query: string, context: string)
    ensures UsesContextTemplate(BuildPrompt(query, context)) <==> context != ""
  {
    var prompt := BuildPrompt(query, context);
    if context == "" && |prompt| >= |ContextInstruction| {
      var n := |prompt|;
      assert prompt[n - 3] == NoContextNote[|NoContextNote| - 3] == 'g';
      assert ContextInstruction[|ContextInstruction| - 3] == 't';
      assert prompt[n - |ContextInstruction|..][|ContextInstruction| - 3] == prompt[n - 3];
    }
  }

  /** The prompt never grows with the context beyond the 8000-character
      bound: its length is at most the query's plus a fixed amount. */
  lemma PromptLengthBound(query: string, context: string)
    ensures |BuildPrompt(query, context)| <=
      |QueryLabel| + |query| + |ContextLabel| + MaxContext + |ContextInstruction|
  {
  }

  /** Context beyond the first 8000 characters never reaches the model: two
      contexts that agree on their first 8000 characters give the same
      prompt. */
  lemma ContextTailIgnored(query: string, c1: string, c2: string)
    requires |c1| >= MaxContext && |c2| >= MaxContext
    requires c1[..MaxContext] == c2[..MaxContext]
    ensures BuildPrompt(query, c1) == BuildPrompt(query, c2)
  {
  }
}
