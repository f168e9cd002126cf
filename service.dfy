/** The `/query` handler (main.py:47-56 and 83-97) as one pass over plain data.
    The embedding, vector-search and completion services are parameters; the
    model records each request sent to them, so what is never requested can be
    stated. */
module Service {
  import opened Wrappers
  import opened Hits
  import opened Prompt
  import opened Answer

  type Vector = seq<real>

  /** What the three services answer: their result, or the message of what they raised. */
  datatype Providers = Providers(
    embed: string -> Result<Vector>,
    search: (Vector, int) -> Result<seq<Properties>>,
    complete: string -> Result<Completion>)

  /** A request sent to a service, with the fixed settings the source passes. */
  datatype Call =
    | EmbedCall(model: string, input: string)
    | SearchCall(collection: string, vector: Vector, limit: int, properties: seq<string>)
    | CompleteCall(model: string, prompt: string, maxOutputTokens: nat)

  datatype Request = Request(question: string, topK: int)

  /** A citation in the response: `{title, url, page}`. */
  datatype Source = Source(title: Option<string>, url: Option<string>, page: Option<string>)

  /** The response body: an answer, or the HTTP error raised in its place. */
  datatype Response =
    | Answered(answer: string, sources: seq<Source>, confidence: real)
    | HttpError(status: nat, detail: string)

  /** The response together with the requests sent to the services, in order. */
  datatype Run = Run(response: Response, calls: seq<Call>)

  const EmbeddingModel: string := "text-embedding-3-small"
  const Collection: string := "LegalChunk"
  const CompletionModel: string := "gpt-4o-mini"
  const MaxOutputTokens: nat := 800
  const NoDocumentsAnswer: string := "No relevant documents found."
  const EmptyConfidence: real := 0.0
  const FoundConfidence: real := 0.85

  /** `HTTPException(status_code=500, detail=str(e))`. */
  function ServerError(message: string): Response
  {
    HttpError(500, message)
  }

  /** `semantic_search`: embed the question, search the collection with the
      vector, project the objects to hits. A failing service ends it with that
      failure's message. */
  function SemanticSearch(question: string, topK: int, p: Providers): (r: (Result<seq<Hit>>, seq<Call>))
    ensures p.embed(question).Failure?
            ==> r == (Failure(p.embed(question).error), [EmbedCall(EmbeddingModel, question)])
    ensures p.embed(question).Success? ==>
              var vector := p.embed(question).value;
              && r.1 == [EmbedCall(EmbeddingModel, question), SearchCall(Collection, vector, topK, ReturnProperties)]
              && (p.search(vector, topK).Failure? ==> r.0 == Failure(p.search(vector, topK).error))
              && (p.search(vector, topK).Success? ==>
                    var objects := p.search(vector, topK).value;
                    && r.0.Success? && |r.0.value| == |objects|
                    && forall k :: 0 <= k < |objects| ==> r.0.value[k] == Project(objects[k]))
  {
    var embedCall := EmbedCall(EmbeddingModel, question);
    match p.embed(question)
    case Failure(e) => (Failure(e), [embedCall])
    case Success(vector) =>
      var calls := [embedCall, SearchCall(Collection, vector, topK, ReturnProperties)];
      match p.search(vector, topK)
      case Failure(e) => (Failure(e), calls)
      case Success(objects) => (Success(ProjectHits(objects)), calls)
  }

  /** The citation of a hit: its title, its `source_url` as `url`, its page. */
  function SourceOf(h: Hit): Source
  {
    Source(h.title, h.sourceUrl, h.page)
  }

  /** The list comprehension at main.py:94: one citation per hit, in order,
      with `source_url` renamed to `url` and the text and other fields dropped. */
  function SourcesOf(hits: seq<Hit>): (sources: seq<Source>)
    ensures |sources| == |hits|
    ensures forall k :: 0 <= k < |hits| ==>
              && sources[k].title == hits[k].title
              && sources[k].url == hits[k].sourceUrl
              && sources[k].page == hits[k].page
  {
    seq(|hits|, k requires 0 <= k < |hits| => SourceOf(hits[k]))
  }

  /** The `/query` handler: search; no hits answers at once; otherwise build the
      prompt, request the completion and read its answer text. Every failure
      becomes a 500 carrying the failure's message. */
  function Handle(req: Request, p: Providers): (run: Run)
    ensures run.response.HttpError? ==> run.response.status == 500
    ensures run.response.Answered? ==>
              run.response.confidence == if run.response.sources == [] then EmptyConfidence else FoundConfidence
    ensures run.response.Answered? && run.response.sources == [] ==> run.response.answer == NoDocumentsAnswer
  {
    var (found, searchCalls) := SemanticSearch(req.question, req.topK, p);
    match found
    case Failure(e) => Run(ServerError(e), searchCalls)
    case Success(hits) =>
      if hits == [] then Run(Answered(NoDocumentsAnswer, [], EmptyConfidence), searchCalls)
      else
        var prompt := PromptText(req.question, hits);
        var calls := searchCalls + [CompleteCall(CompletionModel, prompt, MaxOutputTokens)];
        match p.complete(prompt)
        case Failure(e) => Run(ServerError(e), calls)
        case Success(completion) =>
          match AnswerText(completion)
          case Failure(e) => Run(ServerError(e), calls)
          case Success(answer) => Run(Answered(answer, SourcesOf(hits), FoundConfidence), calls)
  }

  /** The objects the search returned, when both the embedding and the search succeeded. */
  predicate Retrieved(req: Request, p: Providers, objects: seq<Properties>)
  {
    p.embed(req.question).Success? && p.search(p.embed(req.question).value, req.topK) == Success(objects)
  }

  /** An empty search result answers with the fixed text, no sources and
      confidence 0.0; the completion service is never asked; and this is the
      only way to an answer without sources. */
  lemma NoDocumentsPath(req: Request, p: Providers)
    ensures Retrieved(req, p, [])
            ==> Handle(req, p).response == Answered(NoDocumentsAnswer, [], EmptyConfidence)
                && |Handle(req, p).calls| == 2 && !Handle(req, p).calls[1].CompleteCall?
    ensures (Handle(req, p).response.Answered? && Handle(req, p).response.sources == [])
            <==> Retrieved(req, p, [])
  {
  }

  /** A non-empty search result that is answered cites one source per returned
      object, in order: its title, its `source_url` renamed to `url`, its page. */
  lemma SourcesFollowRetrieval(req: Request, p: Providers, objects: seq<Properties>)
    requires Retrieved(req, p, objects) && objects != []
    requires Handle(req, p).response.Answered?
    ensures |Handle(req, p).response.sources| == |objects|
    ensures forall k :: 0 <= k < |objects| ==>
              Handle(req, p).response.sources[k]
              == Source(Get(objects[k], "title"), Get(objects[k], "source_url"), Get(objects[k], "page"))
    ensures Handle(req, p).response.confidence == FoundConfidence
  {
  }

  /** The first failing step decides the outcome: its message becomes the
      detail of a 500, and no answer is returned. */
  lemma FailuresBecomeServerErrors(req: Request, p: Providers)
    ensures p.embed(req.question).Failure?
            ==> Handle(req, p).response == ServerError(p.embed(req.question).error)
    ensures p.embed(req.question).Success?
            && p.search(p.embed(req.question).value, req.topK).Failure?
            ==> Handle(req, p).response == ServerError(p.search(p.embed(req.question).value, req.topK).error)
    ensures forall objects :: Retrieved(req, p, objects) && objects != [] ==>
              var prompt := PromptText(req.question, ProjectHits(objects));
              (p.complete(prompt).Failure? ==> Handle(req, p).response == ServerError(p.complete(prompt).error))
              && (p.complete(prompt).Success? && AnswerText(p.complete(prompt).value).Failure?
                  ==> Handle(req, p).response == ServerError(IndexErrorMessage))
              && (p.complete(prompt).Success? && AnswerText(p.complete(prompt).value).Success?
                  ==> Handle(req, p).response.Answered?
                      && Handle(req, p).response.answer == AnswerText(p.complete(prompt).value).value)
  {
  }

  /** The embedding of the question is asked first; the search of LegalChunk
      follows exactly when it succeeds, with that vector, `top_k` unchanged and
      the eight requested properties; a third request needs a successful search. */
  lemma SearchFollowsEmbedding(req: Request, p: Providers)
    ensures var calls := Handle(req, p).calls;
      && 1 <= |calls| <= 3
      && calls[0] == EmbedCall(EmbeddingModel, req.question)
      && (|calls| >= 2 <==> p.embed(req.question).Success?)
      && (|calls| >= 2 ==>
            calls[1] == SearchCall(Collection, p.embed(req.question).value, req.topK, ReturnProperties))
      && (|calls| == 3 ==> p.search(p.embed(req.question).value, req.topK).Success?)
  {
    if p.embed(req.question).Success? {
      var vector := p.embed(req.question).value;
      if p.search(vector, req.topK).Success? {
        var hits := ProjectHits(p.search(vector, req.topK).value);
        var searchCalls := [EmbedCall(EmbeddingModel, req.question), SearchCall(Collection, vector, req.topK, ReturnProperties)];
        if hits != [] {
          var prompt := PromptText(req.question, hits);
          assert Handle(req, p).calls == searchCalls + [CompleteCall(CompletionModel, prompt, MaxOutputTokens)];
        } else {
          assert Handle(req, p).calls == searchCalls;
        }
      }
    }
  }

  /** The completion is requested last, once, and only when the search found
      objects: it is the prompt built from their hits, sent with the fixed model
      and output limit. */
  lemma CompletionOnlyWithHits(req: Request, p: Providers, objects: seq<Properties>)
    requires Retrieved(req, p, objects)
    ensures |Handle(req, p).calls| == 3 <==> objects != []
    ensures objects != [] ==>
              Handle(req, p).calls[2]
              == CompleteCall(CompletionModel, PromptText(req.question, ProjectHits(objects)), MaxOutputTokens)
  {
    if p.embed(req.question).Success? {
      var vector := p.embed(req.question).value;
      if p.search(vector, req.topK).Success? {
        var hits := ProjectHits(p.search(vector, req.topK).value);
        var searchCalls := [EmbedCall(EmbeddingModel, req.question), SearchCall(Collection, vector, req.topK, ReturnProperties)];
        if hits != [] {
          var prompt := PromptText(req.question, hits);
          assert Handle(req, p).calls == searchCalls + [CompleteCall(CompletionModel, prompt, MaxOutputTokens)];
        } else {
          assert Handle(req, p).calls == searchCalls;
        }
      }
    }
  }
}
