/** `POST /api/generate-tasks` of the Anthropic-backed route tree. */
module AnthropicRoute {
  import opened Common
  import opened Tasks
  import opened SpecStore
  import opened Generation
  import Extraction
  import GroqRoute

  /**
   * What the upstream call yields: it throws (a transport failure, a
   * non-2xx status, or a reply with no `content[0]`), or it returns, and
   * `content[0].text` is a string or is missing.
   */
  datatype Reply = Thrown | Replied(text: Option<string>)

  const KeyMissing := HttpError(500, "Claude API key not configured")

  /**
   * Every step of the handler up to the history write; there is no
   * empty-content check, so an empty or missing text reaches the parse step
   * and fails there.
   */
  function Generate(req: Request, apiKey: Option<string>, upstream: string -> Reply,
                    parse: string -> Option<TaskSet>, id: string, createdAt: string)
    : (r: Result<SpecRecord, HttpError>)
    ensures !HasRequiredFields(req) ==> r == Failure(MissingFields)
    ensures HasRequiredFields(req) && !Truthy(apiKey) ==> r == Failure(KeyMissing)
    ensures HasRequiredFields(req) && Truthy(apiKey) && upstream(PromptFor(req)).Thrown?
            ==> r == Failure(GenerateFailed)
    ensures r.Success? ==> HasRequiredFields(req) && Truthy(apiKey)
    ensures r.Success? ==> r.value == NewSpec(req, id, createdAt, r.value.tasks)
    ensures r.Failure? ==> r.error in {MissingFields, KeyMissing, GenerateFailed, ParseFailed}
    ensures HasRequiredFields(req) && Truthy(apiKey) && upstream(PromptFor(req)) == Replied(None)
            ==> r == Failure(ParseFailed)
    ensures HasRequiredFields(req) && Truthy(apiKey) ==>
              var reply := upstream(PromptFor(req));
              reply.Replied? && reply.text.Some? ==>
                var parsed := parse(Extraction.ParseTarget(reply.text.value));
                && (parsed.None? ==> r == Failure(ParseFailed))
                && (parsed.Some? ==> r == Success(NewSpec(req, id, createdAt, parsed.value)))
  {
    if !HasRequiredFields(req) then Failure(MissingFields)
    else if !Truthy(apiKey) then Failure(KeyMissing)
    else
      match upstream(PromptFor(req))
      case Thrown => Failure(GenerateFailed)
      case Replied(None) => Failure(ParseFailed)
      case Replied(Some(text)) =>
        match Extraction.Extract(text, parse)
        case None => Failure(ParseFailed)
        case Some(tasks) => Success(NewSpec(req, id, createdAt, tasks))
  }

  /** The handler: the checks and the upstream call, then the history update. */
  method Post(file: SpecFile, req: Request, apiKey: Option<string>, upstream: string -> Reply,
              parse: string -> Option<TaskSet>, id: string, createdAt: string)
    returns (resp: Response)
    modifies file
    ensures Handled(Generate(req, apiKey, upstream, parse, id, createdAt),
                    old(file.contents), resp, file.contents)
  {
    var g := Generate(req, apiKey, upstream, parse, id, createdAt);
    resp := Respond(file, g);
  }

  /**
   * The upstream sees nothing but the prompt, which ignores `risks`; when
   * validation or the key check fails, no upstream is consulted at all.
   */
  lemma OnlyThePromptReachesUpstream(req: Request, risks: Option<string>, apiKey: Option<string>,
                                     u1: string -> Reply, u2: string -> Reply,
                                     parse: string -> Option<TaskSet>, id: string, createdAt: string)
    requires HasRequiredFields(req) && Truthy(apiKey) ==> u1(PromptFor(req)) == u2(PromptFor(req))
    ensures Generate(req, apiKey, u1, parse, id, createdAt)
         == Generate(req.(risks := risks), apiKey, u2, parse, id, createdAt)
  {
  }

  /**
   * The two routes differ only in their upstream: given the same non-empty
   * reply text, both yield the same record or both fail to parse it.
   */
  lemma AgreesWithGroqRoute(req: Request, groqKey: Option<string>, claudeKey: Option<string>,
                            groq: string -> GroqRoute.Completion, claude: string -> Reply,
                            parse: string -> Option<TaskSet>, id: string, createdAt: string,
                            text: string)
    requires HasRequiredFields(req) && Truthy(groqKey) && Truthy(claudeKey)
    requires text != ""
    requires groq(PromptFor(req)).Completion? && groq(PromptFor(req)).ok
    requires groq(PromptFor(req)).content == Some(text)
    requires claude(PromptFor(req)) == Replied(Some(text))
    ensures GroqRoute.Generate(req, groqKey, groq, parse, id, createdAt)
         == Generate(req, claudeKey, claude, parse, id, createdAt)
  {
  }
}
