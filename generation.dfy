/**
 * What the two `POST /api/generate-tasks` handlers share: the request
 * fields they read, the response they send, the required-field check, the
 * prompt template and the history update that follows a successful parse.
 */
module Generation {
  import opened Common
  import opened Tasks
  import opened SpecStore
  import JsArrays

  /**
   * The request body.  `risks` may be sent, but the handlers destructure
   * only `goal`, `users` and `constraints`, so nothing below reads it.
   */
  datatype Request = Request(
    goal: Option<string>,
    users: Option<string>,
    constraints: Option<string>,
    risks: Option<string>)

  datatype HttpError = HttpError(status: nat, message: string)

  /** Status 200 with the saved record as body, or an error status with `{ error: message }`. */
  datatype Response = Ok(spec: SpecRecord) | Error(error: HttpError)

  const MissingFields := HttpError(400, "Missing required fields")
  const ParseFailed := HttpError(500, "Failed to parse AI response")
  const GenerateFailed := HttpError(500, "Failed to generate tasks")

  /** `!goal || !users || !constraints` is false. */
  predicate HasRequiredFields(req: Request)
  {
    Truthy(req.goal) && Truthy(req.users) && Truthy(req.constraints)
  }

  const PromptIntro: string :=
    "You are a product manager and engineering lead. Based on the following feature idea, generate a comprehensive list of user stories and engineering tasks. Return the result as a JSON object with two arrays: \"userStories\" and \"engineeringTasks\". Each item should have a \"title\" and \"description\" field.\n\nFeature Idea:\n"
  const GoalLabel: string := "Goal: "
  const UsersLabel: string := "\nUsers: "
  const ConstraintsLabel: string := "\nConstraints: "
  const PromptOutro: string := "\n\nReturn ONLY valid JSON, no markdown formatting or code blocks."

  /** `sub` occurs in `s` starting at index `at`. */
  ghost predicate OccursAt(sub: string, s: string, at: nat)
  {
    at + |sub| <= |s| && s[at..at + |sub|] == sub
  }

  /** Five strings laid end to end: where each of them lies in the result. */
  function Layout(a: string, g: string, b: string, c: string, o: string): (p: string)
    ensures |p| == |a| + |g| + |b| + |c| + |o|
    ensures OccursAt(a, p, 0)
    ensures OccursAt(g, p, |a|)
    ensures OccursAt(b, p, |a| + |g|)
    ensures OccursAt(c, p, |a| + |g| + |b|)
    ensures OccursAt(o, p, |a| + |g| + |b| + |c|)
  {
    var p := a + g + b + c + o;
    assert p == (((a + g) + b) + c) + o;
    assert p[..|a|] == a;
    assert p[|a|..|a| + |g|] == g;
    assert p[|a| + |g|..|a| + |g| + |b|] == b;
    assert p[|a| + |g| + |b|..|a| + |g| + |b| + |c|] == c;
    assert p[|a| + |g| + |b| + |c|..|a| + |g| + |b| + |c| + |o|] == o;
    p
  }

  /**
   * The prompt template: the fixed instructions, then each field verbatim
   * after its label, in the order goal, users, constraints, then the closing
   * instruction, and nothing else.
   */
  function Prompt(goal: string, users: string, constraints: string): (p: string)
    ensures OccursAt(PromptIntro + GoalLabel, p, 0)
    ensures OccursAt(goal, p, |PromptIntro + GoalLabel|)
    ensures OccursAt(UsersLabel + users, p, |PromptIntro + GoalLabel| + |goal|)
    ensures OccursAt(ConstraintsLabel + constraints, p,
                     |PromptIntro + GoalLabel| + |goal| + |UsersLabel + users|)
    ensures OccursAt(PromptOutro, p,
                     |PromptIntro + GoalLabel| + |goal| + |UsersLabel + users| + |ConstraintsLabel + constraints|)
    ensures |p| == |PromptIntro + GoalLabel| + |goal| + |UsersLabel + users|
                   + |ConstraintsLabel + constraints| + |PromptOutro|
  {
    Layout(PromptIntro + GoalLabel, goal, UsersLabel + users, ConstraintsLabel + constraints, PromptOutro)
  }

  /** The prompt a valid request produces. */
  function PromptFor(req: Request): string
    requires HasRequiredFields(req)
  {
    Prompt(req.goal.value, req.users.value, req.constraints.value)
  }

  /** `newSpec`: the id and timestamp are minted by the caller and passed in. */
  function NewSpec(req: Request, id: string, createdAt: string, tasks: TaskSet): (r: SpecRecord)
    requires HasRequiredFields(req)
    ensures r.goal == req.goal.value && r.users == req.users.value
    ensures r.constraints == req.constraints.value
    ensures r.id == id && r.createdAt == createdAt && r.tasks == tasks
  {
    SpecRecord(id, createdAt, req.goal.value, req.users.value, req.constraints.value, tasks)
  }

  /**
   * How a handler ends, given the outcome `g` of the steps up to the parse:
   * a failure is sent as it is and the file is not written; a parsed record
   * is put first in the loaded history, which is cut to five records and
   * written back, and sent as the body.  A file whose value is not an array
   * makes `unshift` throw: the generic 500 and no write.
   */
  ghost predicate Handled(g: Result<SpecRecord, HttpError>, before: StoredFile,
                          resp: Response, after: StoredFile)
  {
    match g
    case Failure(e) => resp == Error(e) && after == before
    case Success(rec) =>
      match LoadSpecs(before)
      case None => resp == Error(GenerateFailed) && after == before
      case Some(h) => resp == Ok(rec) && after == Records(Pushed(h, rec))
  }

  /**
   * Lines 79-94 of either route: load, `unshift`, `splice(5)`, save, and
   * reply with `{ ...newSpec, tasks }`, which is the record itself.
   */
  method SaveToHistory(file: SpecFile, rec: SpecRecord) returns (resp: Response)
    modifies file
    ensures Handled(Success(rec), old(file.contents), resp, file.contents)
  {
    var loaded := LoadSpecs(file.contents);
    if loaded.None? {
      resp := Error(GenerateFailed);
      return;
    }
    var specs := new JsArrays.JsArray(loaded.value);
    specs.Unshift(rec);
    var evicted := specs.Splice(HistoryLimit, None, []);
    file.SaveSpecs(specs.items);
    resp := Ok(rec);
  }

  /** The tail of both handlers: send a failure, or save and send the record. */
  method Respond(file: SpecFile, g: Result<SpecRecord, HttpError>) returns (resp: Response)
    modifies file
    ensures Handled(g, old(file.contents), resp, file.contents)
  {
    match g
    case Failure(e) =>
      resp := Error(e);
    case Success(rec) =>
      resp := SaveToHistory(file, rec);
  }

  /** A request that fails, at any step, leaves the history file as it was. */
  lemma FailureWritesNothing(g: Result<SpecRecord, HttpError>, before: StoredFile,
                             resp: Response, after: StoredFile)
    requires Handled(g, before, resp, after)
    requires resp.Error?
    ensures after == before
  {
  }

  /**
   * After a success the body is the stored record, which is first in the
   * file; the file holds min(old length + 1, 5) records and the rest are
   * the newest old ones, in their old order.
   */
  lemma SuccessPrependsRecord(g: Result<SpecRecord, HttpError>, before: StoredFile,
                              resp: Response, after: StoredFile)
    requires Handled(g, before, resp, after)
    requires resp.Ok?
    ensures g == Success(resp.spec) && LoadSpecs(before).Some?
    ensures after.Records? && |after.specs| == Min(|LoadSpecs(before).value| + 1, HistoryLimit)
    ensures after.specs[0] == resp.spec
    ensures after.specs[1..] <= LoadSpecs(before).value
  {
  }
}
