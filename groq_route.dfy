/** `POST /api/generate-tasks` of the Groq-backed route tree. */
module GroqRoute {
  import opened Common
  import opened Tasks
  import opened SpecStore
  import opened Generation
  import Extraction

  /**
   * What the upstream exchange yields: the fetch rejects or its body is
   * not JSON (`Unreachable`), or a completion with the HTTP `ok` flag,
   * `completion.error.message` and `completion.choices[0].message.content`.
   */
  datatype Completion =
    | Unreachable
    | Completion(ok: bool, errorMessage: Option<string>, content: Option<string>)

  const KeyMissing := HttpError(500, "Groq API key not configured")
  const EmptyResponse := HttpError(500, "Groq returned an empty response")
  const RequestFailed: string := "Groq request failed"

  /**
   * Every step of the handler up to the history write.  `apiKey` is
   * `GROQ_API_KEY`, `upstream` the chat-completion call applied to the
   * prompt, `parse` is `JSON.parse`, and `id`, `createdAt` the minted id and
   * timestamp.
   */
  function Generate(req: Request, apiKey: Option<string>, upstream: string -> Completion,
                    parse: string -> Option<TaskSet>, id: string, createdAt: string)
    : (r: Result<SpecRecord, HttpError>)
    ensures !HasRequiredFields(req) ==> r == Failure(MissingFields)
    ensures HasRequiredFields(req) && !Truthy(apiKey) ==> r == Failure(KeyMissing)
    ensures r.Success? ==> HasRequiredFields(req) && Truthy(apiKey)
    ensures r.Success? ==> r.value == NewSpec(req, id, createdAt, r.value.tasks)
    ensures r.Failure? ==> r.error.status == 400 || r.error.status == 500
    ensures r.Failure? && r.error.status == 400 <==> !HasRequiredFields(req)
    ensures HasRequiredFields(req) && Truthy(apiKey) ==>
              var c := upstream(PromptFor(req));
              c.Completion? && c.ok && Truthy(c.content) ==>
                var parsed := parse(Extraction.ParseTarget(c.content.value));
                && (parsed.None? ==> r == Failure(ParseFailed))
                && (parsed.Some? ==> r == Success(NewSpec(req, id, createdAt, parsed.value)))
  {
    if !HasRequiredFields(req) then Failure(MissingFields)
    else if !Truthy(apiKey) then Failure(KeyMissing)
    else
      var completion := upstream(PromptFor(req));
      if completion.Unreachable? then Failure(GenerateFailed)
      else if !completion.ok then
        Failure(HttpError(500, if Truthy(completion.errorMessage) then completion.errorMessage.value
                               else RequestFailed))
      else if !Truthy(completion.content) then Failure(EmptyResponse)
      else
        match Extraction.Extract(completion.content.value, parse)
        case None => Failure(ParseFailed)
        case Some(tasks) => Success(NewSpec(req, id, createdAt, tasks))
  }

  /** The handler: the checks and the upstream call, then the history update. */
  method Post(file: SpecFile, req: Request, apiKey: Option<string>, upstream: string -> Completion,
              parse: string -> Option<TaskSet>, id: string, createdAt: string)
    returns (resp: Response)
    modifies file
    ensures Handled(Generate(req, apiKey, upstream, parse, id, createdAt),
                    old(file.contents), resp, file.contents)
  {
    var g := Generate(req, apiKey, upstream, parse, id, createdAt);
    resp := Respond(file, g);
  }

  /**
   * The upstream sees nothing but the prompt, and the prompt is built from
   * `goal`, `users` and `constraints` only: two upstreams that answer this
   * prompt alike, and two requests that differ only in `risks`, give the
   * same outcome.  When validation or the key check fails, no upstream is
   * consulted at all.
   */
  lemma OnlyThePromptReachesUpstream(req: Request, risks: Option<string>, apiKey: Option<string>,
                                     u1: string -> Completion, u2: string -> Completion,
                                     parse: string -> Option<TaskSet>, id: string, createdAt: string)
    requires HasRequiredFields(req) && Truthy(apiKey) ==> u1(PromptFor(req)) == u2(PromptFor(req))
    ensures Generate(req, apiKey, u1, parse, id, createdAt)
         == Generate(req.(risks := risks), apiKey, u2, parse, id, createdAt)
  {
  }

  /**
   * A non-OK upstream status is a 500 carrying the upstream's own error
   * message, or the fixed fallback when it has none; an OK reply with no
   * content is a 500 of its own.
   */
  lemma UpstreamFailures(req: Request, apiKey: Option<string>, upstream: string -> Completion,
                         parse: string -> Option<TaskSet>, id: string, createdAt: string)
    requires HasRequiredFields(req) && Truthy(apiKey)
    ensures var c := upstream(PromptFor(req));
            var r := Generate(req, apiKey, upstream, parse, id, createdAt);
            && (c.Completion? && !c.ok && Truthy(c.errorMessage) ==> r == Failure(HttpError(500, c.errorMessage.value)))
            && (c.Completion? && !c.ok && !Truthy(c.errorMessage) ==> r == Failure(HttpError(500, RequestFailed)))
            && (c.Completion? && c.ok && !Truthy(c.content) ==> r == Failure(EmptyResponse))
            && (c.Unreachable? ==> r == Failure(GenerateFailed))
  {
  }

  /**
   * A reply holding a JSON object between prose that has no `{` before it
   * and no `}` after it yields exactly what that object parses to.
   */
  lemma EmbeddedReplySucceeds(req: Request, apiKey: Option<string>, upstream: string -> Completion,
                              parse: string -> Option<TaskSet>, id: string, createdAt: string,
                              pre: string, obj: string, post: string, tasks: TaskSet)
    requires HasRequiredFields(req) && Truthy(apiKey)
    requires upstream(PromptFor(req)).Completion? && upstream(PromptFor(req)).ok
    requires upstream(PromptFor(req)).content == Some(pre + obj + post)
    requires |obj| >= 2 && obj[0] == '{' && obj[|obj| - 1] == '}'
    requires forall k :: 0 <= k < |pre| ==> pre[k] != '{'
    requires forall k :: 0 <= k < |post| ==> post[k] != '}'
    requires parse(obj) == Some(tasks)
    ensures Generate(req, apiKey, upstream, parse, id, createdAt)
         == Success(SpecRecord(id, createdAt, req.goal.value, req.users.value, req.constraints.value, tasks))
  {
    Extraction.EmbeddedObjectIsSelected(pre, obj, post);
  }
}
