# apthelp.service query pipeline, modelled in Dafny

The service answers legal questions about Tamil Nadu apartment law. A request
to `/query` embeds the question, searches the `LegalChunk` collection of a
vector store for the nearest chunks, turns each returned object into a hit,
builds a prompt of numbered `[DOC i]` blocks, asks a completion model for an
answer, and returns the answer with one `{title, url, page}` citation per hit
and a fixed confidence. Any failure along the way becomes an HTTP 500 whose
detail is the failure's message.

The model keeps that pipeline and replaces the three services by parameters:

- `wrappers.dfy` — `Option` (a Python value that may be `None`) and `Result`
  (a value, or the message of the exception raised in its place).
- `text.dfy` — `str.join`, the decimal rendering of the block counter and a
  parser that reads it back.
- `hits.dfy` — the projection at the end of `semantic_search`: the function
  `Project` and the loop `CollectHits` proved equal to `ProjectHits`.
- `prompt.dfy` — `build_prompt`: the block format, the prompt as a function
  `PromptText`, and the loop `BuildPrompt` proved equal to it.
- `answer.dfy` — the two response shapes of the completion service and the
  `output_text` / `output[0].content[0].text` fallback.
- `service.dfy` — the whole handler as the function `Handle`, which returns the
  response and the list of requests sent to the services, so that "the
  completion is never requested when nothing was found" is a statement about
  that list.

The handler validates neither `top_k` nor the question: `top_k` reaches the
search as given (any integer), and an empty question is embedded like any
other.

## Model

| member | source | states |
|---|---|---|
| `Text.Join` | main.py:79 | `"\n\n".join(parts)`: empty for no parts, otherwise starting with the first part; `JoinSnoc` and `JoinLength` give the rest |
| `Text.JoinSnoc` | main.py:79 | joining one more part appends the separator and that part, so the context is the blocks in order with `"\n\n"` between neighbours |
| `Text.JoinLength` | main.py:79 | a join of N parts is the parts plus exactly N - 1 separators |
| `Text.NatToString` | main.py:77-78 | the block counter renders as decimal digits, at least one, with a leading `0` only for zero |
| `Text.ParseNatToString` | main.py:77-78 | parsing the rendered counter gives the counter back |
| `Text.NatToStringInjective` | main.py:77-78 | distinct block numbers render differently |
| `Hits.Project` | main.py:59-66 | each of the six hit keys reads the property of that name (`None` when missing); every other key, `gov_order` and `court_level` included, reads `None` |
| `Hits.ProjectAsProperties` | main.py:59-66 | projecting the properties a hit carries gives the hit back |
| `Hits.AsPropertiesProject` | main.py:55-66 | a hit keeps exactly the object's properties under the six keys; the requested `gov_order` and `court_level` are dropped |
| `Hits.ProjectIgnoresOtherProperties` | main.py:59-66 | objects that agree on the six keys give the same hit |
| `Hits.ProjectHits` | main.py:57-67 | one hit per returned object, same count, same order |
| `Hits.CollectHits` | main.py:57-67 | the append loop yields exactly `ProjectHits` of the returned objects |
| `Prompt.Block` | main.py:78 | the block of hit i is the tag `[DOC i]`, its title, date, page and URL fields separated by vertical bars, and its text on a line of its own; the tag reads back as i, whatever the fields hold |
| `Prompt.Blocks` | main.py:76-78 | N hits give N blocks; block k (from 0) is the hit's block numbered first + k |
| `Prompt.Context` | main.py:76-79 | no hits give an empty context; otherwise it opens with the first hit's block numbered 1, and `ContextSnoc` and `ContextLength` say how later blocks follow |
| `Prompt.PromptText` | main.py:71-79 | the prompt starts with the preamble and `"\n\nContext:\n"`, ends with `"\n\nUser question: " + question + "\n\nAnswer:"`, and holds the context section in between |
| `Prompt.BuildPrompt` | main.py:70-80 | the loop that appends one block per hit, enumerated from 1, then joins and concatenates, yields exactly `PromptText` |
| `Prompt.ContextSnoc` | main.py:76-79 | one more hit adds a blank line and its block numbered one past the others; a single hit's context is its block numbered 1 |
| `Prompt.ContextLength` | main.py:79 | the context of N hits is their N blocks and N - 1 separators |
| `Prompt.TagReadsBack` | main.py:78 | a `[DOC i]` tag reads back as i, whatever text follows it |
| `Prompt.BlocksNumbered` | main.py:76-78 | in the context section the k-th block in hit order is tagged k + 1 |
| `Prompt.PromptDeterminesQuestion` | main.py:79 | the question is carried verbatim: different questions over the same hits give different prompts |
| `Answer.AnswerText` | main.py:92 | `output_text` when present; otherwise the first content item's text of the first output item, `''` where a key is absent, and an `IndexError` exactly when a list read is empty |
| `Answer.ShapesAgree` | main.py:92 | both response shapes carrying the same text give that text |
| `Answer.OnlyFirstItemsRead` | main.py:92 | items after the first output item and after its first content item are never read |
| `Service.SemanticSearch` | main.py:47-67 | a failed embedding ends the search with its message after one request; otherwise the search of `LegalChunk` is requested with that vector, `top_k` and the eight properties, and either fails with its message or gives one projected hit per returned object, in order |
| `Service.Handle` | main.py:84-97 | every error it returns has status 500; an answer's confidence is 0.0 when no source is cited and 0.85 otherwise, and an answer without sources is the fixed "No relevant documents found."; the lemmas below state each path |
| `Service.NoDocumentsPath` | main.py:86-88 | an empty search result answers `"No relevant documents found."` with no sources and confidence 0.0 without requesting a completion, and it is the only way to an answer without sources |
| `Service.SourcesOf` | main.py:94 | one citation per hit, in order, carrying the hit's title, its `source_url` as `url`, and its page |
| `Service.SourcesFollowRetrieval` | main.py:94-95 | an answered non-empty search cites one source per object in order, `{title, url <- source_url, page}`, with confidence 0.85 |
| `Service.FailuresBecomeServerErrors` | main.py:85-97 | the first failing step (embedding, search, completion, answer extraction) gives a 500 whose detail is its message, with no answer |
| `Service.SearchFollowsEmbedding` | main.py:49-56 | the embedding of the question is requested first; the search of `LegalChunk` follows exactly when it succeeds, with that vector, `top_k` unchanged and the eight requested properties; nothing follows a failed search |
| `Service.CompletionOnlyWithHits` | main.py:86-91 | after a successful search the completion is requested, as the third and last request, exactly when objects were found, with the prompt built from their hits, `gpt-4o-mini` and 800 output tokens |

## Left out

- The embedding, vector-search and completion services (main.py:49-56, main.py:91) are parameters of `Handle`; similarity search and text generation are not modelled. The embedding call's `resp.data[0]` indexing is folded into the embedding service's failure.
- Environment loading and client construction (main.py:14-27) are start-up I/O.
- The FastAPI routes `/` and `/health` (main.py:38-44), the `async` handlers and the request and response schema checks (main.py:29-36) are HTTP plumbing; the default `top_k = 6` is a schema default and `Request` takes `top_k` as given.
- Property values are held as the text their `str()` gives, so a numeric `page` is a string in the model; its JSON number type in the response is not modelled.
- `confidence` is a `real` holding the literals 0.0 and 0.85; there is no floating-point arithmetic in the source.
- Completion shapes other than the two in `Answer.Completion` (an `output_text` that is not a string, an item that is not a dictionary) are not modelled.
- Concurrency between requests is not modelled; the handler keeps no state.
