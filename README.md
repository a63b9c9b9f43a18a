# Context-augmented answering pipeline, modelled in Dafny

This project models the context-augmentation pipeline of a chat assistant. The assistant answers a user query with a generative model and grounds the answer in live web text. For one message the pipeline does these steps in order:

- It asks a search provider for result items and keeps the URL of each item that has one, in the provider's order.
- It fetches each URL once and extracts its main text. A URL that fails in any way is skipped, and the URLs after it are still processed.
- It joins the extracted texts with the separator `"\n\n---\n\n"` into one context string.
- It builds the prompt from one of two templates. The with-context template embeds the whole query and the first 8000 characters of the context. The no-context template embeds the query and a note that no web context was found.
- It sends the prompt to the model. It fails the request when the response has no candidate.
- Otherwise it streams the answer as consecutive 5-character chunks.

Modules, one per stage of `app.py`:

- `Common` (common.dfy): `Option`/`Result`, and the three sequence operations the code is made of. These are a filtering comprehension (`FilterMap`), Python's `sep.join` (`Join`) and the concatenation of streamed fragments (`Concat`).
- `Search` (search.dfy): result items, the search outcome, and URL selection.
- `Scrape` (scrape.dfy): per-URL outcomes, the failure-isolating `webscrap` loop and its specification `Aggregate`.
- `Gather` (gather.dfy): `get_additional_data`. It chains search, URL selection and scraping, and every failure ends in the empty context.
- `Prompt` (prompt.dfy): the two templates, the 8000-character truncation and `BuildPrompt`.
- `Stream` (stream.dfy): the chunking loop and the `IsChunking` specification it meets.
- `Handler` (handler.dfy): the message handler `main`, from the message to the reply.

External services become inputs:

- The search call becomes a `SearchOutcome`. It either raised, or it returned a list of items, each with an optional `url`.
- The fetch and extraction of URL number i becomes `outcomes[i]`, a `ScrapeOutcome`:
  - `Raised` when the fetch or the extraction raised;
  - `NotDownloaded` when the fetch gave nothing;
  - `Downloaded(extracted)` with what the extraction returned.
- The generation call becomes a function `provider` from the prompt to a `Generation`. That is either `GenerationRaised` or a list of candidates, each with an optional text.

`webscrap`, `get_additional_data` and the streaming loop are methods with loops and invariants, proved against the specification functions `Aggregate`, `AdditionalData` and `IsChunking`. The lemmas prove what these functions promise.

Two behaviours of `main` worth stating outright:

- `main` does not check that the answer is non-empty. An empty text streams zero chunks and then completes the message (`HandleMessage`, `ChunkSizes`).
- Besides a response with no candidate, two more cases end in the error reply. A first candidate without text makes `len(full_text)` raise (`NoText`). A raising generation call does too (`GenerationFailed`).

## Model

| member | source | states |
|---|---|---|
| `Common.FilterMap` | app.py:33 | the filtering comprehension, never longer than its input; `FilterMapIndices`, `FilterMapAppend` and `FilterMapEmpty` prove it keeps exactly the kept elements, in order |
| `Common.Join` | app.py:64 | Python's `sep.join`: a non-empty join starts with the first part and ends with the last; `JoinConcat` and `JoinEmpty` prove how joins compose and when they are empty |
| `Common.FilterMapIndices` | app.py:33 | a filtering comprehension returns exactly the kept elements in their original order: strictly increasing indices pick them out, and every kept index is among them |
| `Common.FilterMapAppend` | app.py:33 | the comprehension distributes over concatenation, so whether an element is kept does not depend on any other element |
| `Common.FilterMapEmpty` | app.py:33 | the comprehension is empty exactly when no element is kept |
| `Common.JoinConcat` | app.py:64 | joining two non-empty lists end to end puts exactly one separator between their two joins |
| `Common.JoinEmpty` | app.py:64 | when no part is empty, the join is empty exactly when there are no parts |
| `Search.SelectUrls` | app.py:33 | the URL list is no longer than the result list and holds no empty URL; `SelectUrlsExact`, `SelectUrlsAppend` and `SelectUrlsEmpty` characterise it fully |
| `Search.KeptUrlsNonEmpty` | app.py:33 | every URL that passes the truthiness test of `item.get("url")` is non-empty |
| `Search.SelectUrlsExact` | app.py:33 | the URL list holds exactly the URLs of the items whose `url` is present and non-empty, in provider order, and none of them is empty |
| `Search.SelectUrlsAppend` | app.py:33 | URL selection preserves order item by item: selecting from two result lists end to end gives the two selections end to end |
| `Search.SelectUrlsEmpty` | app.py:33-37 | the URL list is empty, so the empty context is returned, exactly when no item has a truthy URL |
| `Scrape.Successes` | app.py:50-57 | the texts appended to `main_contents`: at most one per URL, none empty; `SuccessesExact` proves they are exactly the successful URLs' texts in URL order |
| `Scrape.KeptTextsNonEmpty` | app.py:53-56 | every text that passes the `if extracted:` test is non-empty |
| `Scrape.Aggregate` | app.py:64 | the separator-join of the successful texts, empty exactly when there is no success; `FailureIsolation`, `AggregateAppend` and `AggregateEmpty` prove its failure isolation |
| `Scrape.SuccessesExact` | app.py:50-57 | the appended texts are exactly those of the URLs whose page was fetched and whose extraction is non-empty, in URL order, each non-empty; every other URL is skipped |
| `Scrape.FailureIsolation` | app.py:50-61 | a failed URL at any position leaves the joined context exactly as if that URL had not been in the list |
| `Scrape.AggregateAppend` | app.py:50-64 | the context of two lists of URLs is their two contexts with one separator between them, or one of them alone when the other has no success |
| `Scrape.AggregateEmpty` | app.py:53-64 | the context is empty exactly when every URL failed, including when there are no URLs |
| `Scrape.MiddleFailure` | app.py:50-64 | three URLs with the middle one failing give the first text, the separator and the third text |
| `Scrape.Webscrap` | app.py:46-64 | the loop returns the separator-join of the successful texts in URL order, and its success count equals the number of appended texts, at most the number of URLs |
| `Gather.AdditionalData` | app.py:30-44 | a non-empty context means the search returned, found at least one URL, and at least one URL scraped; `AdditionalDataEmpty` proves the converse |
| `Gather.GetAdditionalData` | app.py:30-44 | returns "" when the search raised or found no URL (without scraping), and otherwise the joined context of the scraped URLs |
| `Gather.AdditionalDataEmpty` | app.py:30-64 | the context is empty exactly when the search raised, no item had a URL, or every URL failed |
| `Gather.OneOfTwoScraped` | app.py:30-64 | a search with two URLs, where the first page yields "T1" and the second fails, gives the context "T1" |
| `Prompt.Truncate` | app.py:79 | `s[:n]` is the prefix of `s` of length `min(n, len(s))` |
| `Prompt.BuildPrompt` | app.py:76-89 | the prompt opens with the label and the whole query. With a non-empty context it then carries the context label, exactly the first `min(8000, len(context))` characters and ends with the instruction. With an empty context it ends with the no-context note |
| `Prompt.TemplateChoice` | app.py:76-89 | the prompt ends with the with-context instruction exactly when the context is non-empty |
| `Prompt.PromptLengthBound` | app.py:76-89 | the prompt is at most the query plus a fixed overhead plus 8000 characters, however long the context is |
| `Prompt.ContextTailIgnored` | app.py:79 | two contexts that agree on their first 8000 characters give the same prompt |
| `Stream.StreamChunks` | app.py:104-107 | the loop emits ceil(len/5) chunks, chunk k being `text[5k:5k+5]`, and their concatenation is the text |
| `Stream.ChunkPrefix` | app.py:104-107 | the first m chunks reassemble to the first `min(5m, len)` characters |
| `Stream.ChunksReassemble` | app.py:104-107 | any chunking of a text concatenates back to exactly that text |
| `Stream.ChunkSizes` | app.py:104-107 | every chunk but the last has 5 characters, the last is non-empty, and an empty text gives no chunks |
| `Stream.TwelveCharacters` | app.py:104-107 | a 12-character answer is streamed as chunks of 5, 5 and 2 characters |
| `Handler.AnswerOf` | app.py:96-99 | an answer is the first candidate's text verbatim, and a response with no candidate gives the `NoCandidates` error |
| `Handler.HandleMessage` | app.py:67-119 | the prompt is built from the query and the gathered context. A response with no candidate, no text, or a raising call gives an error reply with nothing streamed. Otherwise the first candidate's text is streamed as a chunking that reassembles to it |
| `Handler.WeatherToday` | app.py:72-89 | for "weather today" with two URLs of which only the first scrapes to "T1", the prompt uses the with-context template and embeds "T1" |

## Left out

- The search, fetch/extract and generation calls are network and library calls. They are inputs here: a search outcome, one scrape outcome per URL, and a provider function.
- The `max_results=5` bound is passed to the search provider and the code does not enforce it. The length of the item list is therefore unconstrained here.
- A `"results"` entry that is present but null makes the comprehension raise. The exception is caught, so the result is the same empty context as for an empty list. It is modelled as an empty list.
- The chat transport (`cl.Message`, `send`, `remove`, `stream_token`, `update`, the `@cl.on_message` hook) is UI. The reply is modelled as the sequence of streamed chunks, or as an error reply.
- `asyncio.sleep` between chunks and `cl.make_async` are scheduling. They do not change any content.
- Startup is not modelled: environment loading, the API-key check, client construction, and all logging. The success count that `webscrap` only logs is returned by `Webscrap`.
- The wording of the error reply is not modelled. An error reply records only which failure caused it (`PipelineError`).
- `HandleMessage`: in the `NoText` case the code first sends an empty answer message and then raises, so the user sees that empty message before the error reply. The model records only the error reply. In the `NoCandidates` and `GenerationFailed` cases the code raises before any answer message is sent.
- `HandleMessage`: exceptions that the code does not raise on these inputs are not modelled. An example is an empty `parts` list in a candidate. A candidate's missing text stands for all of them.
- Python strings are modelled as sequences of `char`, one per code point, with no Unicode handling.
