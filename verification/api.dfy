/** What the three route handlers share: the request and response shapes,
    the authentication prelude each handler opens with, and the `catch`
    block that turns a thrown error into a status code. */
module Api {
  import opened Wrappers
  import opened Strings
  import opened Auth
  import opened Schemas
  import opened Store

  /** A value caught by a handler's `catch`: an `Error` with its message, or
      any other thrown value. */
  datatype Thrown = ErrorObject(message: string) | NonError

  /** The inputs a handler reads from the request: the `authorization`
      header (null when absent) and the outcome of `request.json()`. */
  datatype Request = Request(authorization: Option<string>, body: Result<Json, Thrown>)

  /** The project fields echoed by `POST /api/ai/idea`. */
  datatype IdeaView = IdeaView(id: nat, title: string, idea: Option<string>, createdAt: int)

  /** The project fields echoed by `POST /api/ai/mvp`. */
  datatype MvpView = MvpView(id: nat, title: string, idea: Option<string>, mvpPlan: Option<string>, updatedAt: int)

  /** One entry of the `GET /api/projects` list. */
  datatype ListedProject = ListedProject(
    id: nat,
    title: string,
    description: Option<string>,
    idea: Option<string>,
    mvpPlan: Option<string>,
    status: string,
    createdAt: int,
    updatedAt: int,
    taskCount: nat)

  /** The JSON body of a response. */
  datatype Body =
    | ErrorBody(error: string)
    | IdeaCreated(message: string, idea: IdeaView)
    | MvpGenerated(message: string, mvp: MvpView)
    | ProjectList(projects: seq<ListedProject>)

  datatype Response = Response(status: nat, body: Body)

  /** A handler's response together with the database it leaves behind. */
  datatype Outcome = Outcome(response: Response, db: Db)

  const Unauthorized := "Unauthorized"
  const InvalidToken := "Invalid token"
  const ServiceUnavailable := "AI service temporarily unavailable"
  const InternalError := "Internal server error"

  function Fail(status: nat, message: string): Response
  {
    Response(status, ErrorBody(message))
  }

  /** The shared `catch`: an `Error` whose message mentions `OpenAI` is
      reported as 503, anything else as 500. */
  function MapThrown(e: Thrown): (r: Response)
    ensures r.status == 503 <==> e.ErrorObject? && exists i :: OccursAt(e.message, "OpenAI", i)
    ensures r.status == 503 ==> r.body == ErrorBody(ServiceUnavailable)
    ensures r.status != 503 ==> r == Fail(500, InternalError)
  {
    match e
    case ErrorObject(message) =>
      IncludesIff(message, "OpenAI");
      if Includes(message, "OpenAI") then Fail(503, ServiceUnavailable) else Fail(500, InternalError)
    case NonError => Fail(500, InternalError)
  }

  /** The prelude of every handler: a missing or empty bearer token is
      `Unauthorized`, a token that yields no identity is `Invalid token`,
      both with status 401. */
  function Authenticate(verify: Verifier, authHeader: Option<string>): (r: Result<Identity, Response>)
    ensures r.Failure? ==> r.error.status == 401
    ensures r.Failure? && r.error.body == ErrorBody(Unauthorized) <==>
              ExtractTokenFromHeader(authHeader) in {None, Some("")}
    ensures r.Failure? && r.error.body == ErrorBody(InvalidToken) <==>
              (exists token :: ExtractTokenFromHeader(authHeader) == Some(token) && token != ""
                               && VerifyUserFromToken(verify, token).None?)
    ensures r.Success? <==>
              (exists token :: ExtractTokenFromHeader(authHeader) == Some(token) && token != ""
                               && VerifyUserFromToken(verify, token).Some?)
    ensures r.Success? ==> r.value == VerifyUserFromToken(verify, ExtractTokenFromHeader(authHeader).value).value
  {
    var token := ExtractTokenFromHeader(authHeader);
    if token.None? || token.value == "" then Failure(Fail(401, Unauthorized))
    else
      match VerifyUserFromToken(verify, token.value)
      case None => Failure(Fail(401, InvalidToken))
      case Some(user) => Success(user)
  }

  /** A header `"Bearer " + t` with a non-empty `t` authenticates exactly as
      `verifyUserFromToken(t)` decides. */
  lemma AuthenticateBearer(verify: Verifier, token: string)
    requires token != ""
    ensures VerifyUserFromToken(verify, token).Some? ==>
              Authenticate(verify, Some(BearerPrefix + token)) == Success(VerifyUserFromToken(verify, token).value)
    ensures VerifyUserFromToken(verify, token).None? ==>
              Authenticate(verify, Some(BearerPrefix + token)) == Failure(Fail(401, InvalidToken))
  {
    ExtractRoundTrip(token);
  }

  /** `content || fallback`: the completion text unless it is absent or empty. */
  function OrFallback(content: Option<string>, fallback: string): (text: string)
    ensures content.Some? && content.value != "" ==> text == content.value
    ensures content.None? || content.value == "" ==> text == fallback
    ensures fallback != "" ==> text != ""
  {
    if content.Some? && content.value != "" then content.value else fallback
  }
}
