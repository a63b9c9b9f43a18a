/** The message handler `main` (app.py): gather context, assemble the prompt,
    ask the model, and stream its answer, or reply with an error when the
    model gives nothing to stream. The model call is not modelled; the
    provider is a function from prompt to response. */
module Handler {
  import opened Common
  import opened Search
  import opened Scrape
  import opened Gather
  import opened Prompt
  import opened Stream

  /** One candidate of the model's response: the text of its first part,
      `None` when it has none. */
  datatype Candidate = Candidate(text: Option<string>)

  /** What the generation call produced: it raised, or it returned a
      (possibly empty) list of candidates. */
  datatype Generation = GenerationRaised | Generated(candidates: seq<Candidate>)

  /** Why the handler replied with an error instead of an answer. */
  datatype PipelineError =
    | GenerationFailed  // the generation call raised
    | NoCandidates      // "No response generated from the model"
    | NoText            // the first candidate has no text, so taking its length raises

  /** How the handler's answer to a message ends: the streamed chunks of
      the answer message, or the error reply. */
  datatype Reply = Streamed(chunks: seq<string>) | ErrorReply(error: PipelineError)

  /** The answer text to stream, or the error that ends the request. */
  function AnswerOf(g: Generation): (r: Result<string, PipelineError>)
    ensures r.Ok? ==> g.Generated? && g.candidates != [] && g.candidates[0].text == Some(r.value)
    ensures g.Generated? && g.candidates == [] ==> r == Err(NoCandidates)
  {
    match g
    case GenerationRaised => Err(GenerationFailed)
    case Generated(candidates) =>
      if candidates == [] then Err(NoCandidates)
      else if candidates[0].text.None? then Err(NoText)
      else Ok(candidates[0].text.value)
  }

  /** Handles one user message. Returns the prompt sent to the model and the
      reply: the model's first answer streamed in five-character chunks that
      reassemble to it, or an error reply (with nothing streamed) when the
      model call raised, gave no candidate, or gave no text. */
  method HandleMessage(query: string, search: SearchOutcome, outcomes: seq<ScrapeOutcome>,
                       provider: string -> Generation)
    returns (prompt: string, reply: Reply)
    requires OutcomesFit(search, outcomes)
    ensures prompt == BuildPrompt(query, AdditionalData(search, outcomes))
    ensures provider(prompt) == Generated([]) ==> reply == ErrorReply(NoCandidates)
    ensures match AnswerOf(provider(prompt))
      case Err(e) => reply == ErrorReply(e)
      case Ok(text) => reply.Streamed? && IsChunking(reply.chunks, text) && Concat(reply.chunks) == text
  {
    var additionalData := GetAdditionalData(search, outcomes);
    prompt := BuildPrompt(query, additionalData);
    var response := provider(prompt);
    if response.GenerationRaised? {
      return prompt, ErrorReply(GenerationFailed);
    }
    if response.candidates == [] {
      return prompt, ErrorReply(NoCandidates);
    }
    var fullText := response.candidates[0].text;
    if fullText.None? {
      return prompt, ErrorReply(NoText);
    }
    var chunks := StreamChunks(fullText.value);
    reply := Streamed(chunks);
  }

  /** The end-to-end case of a query whose search finds two URLs, of which
      only the first scrapes (to "T1"): the prompt is the with-context one
      and embeds "T1". */
  lemma WeatherToday(u1: string, u2: string, failed: ScrapeOutcome)
    requires u1 != "" && u2 != "" && !Succeeded(failed)
    ensures var prompt := BuildPrompt("weather today",
        AdditionalData(SearchReturned([ResultItem(Some(u1)), ResultItem(Some(u2))]),
                       [Downloaded(Some("T1")), failed]));
      && UsesContextTemplate(prompt)
      && prompt[ExcerptStart("weather today")..ExcerptStart("weather today") + 2] == "T1"
  {
    OneOfTwoScraped(u1, u2, failed);
    TemplateChoice("weather today", "T1");
  }
}
