/** `POST /api/ai/idea`: authenticate, validate the topic, ask the language
    model for an idea, and store it as a new project of the caller. The
    completion arrives as an input: its text (possibly absent) or the error
    the call threw. */
module IdeaRoute {
  import opened Wrappers
  import opened Auth
  import opened Schemas
  import opened Store
  import opened Api

  const TitlePrefix := "AI Generated: "
  const DescriptionPrefix := "Startup idea generated for: "
  const IdeaFallback := "Failed to generate idea"
  const IdeaCreatedMessage := "Idea generated successfully"

  /** The row `prisma.project.create` inserts for a validated topic. */
  function NewIdeaProject(id: nat, userId: int, topic: string, ideaText: string, now: int): (p: Project)
    ensures p.id == id && p.userId == userId && p.status == "active"
    ensures p.title == TitlePrefix + topic && p.description == Some(DescriptionPrefix + topic)
    ensures p.idea == Some(ideaText) && p.mvpPlan == None
  {
    Project(id, userId, TitlePrefix + topic, Some(DescriptionPrefix + topic), Some(ideaText), None,
            "active", now, now)
  }

  /** The handler. `now` is the database clock at insertion. */
  function IdeaPost(verify: Verifier, req: Request, db: Db,
                    completion: Result<Option<string>, Thrown>, now: int): (out: Outcome)
    ensures out.response.status in {201, 400, 401, 500, 503}
    ensures Authenticate(verify, req.authorization).Failure? ==>
              out == Outcome(Authenticate(verify, req.authorization).error, db)
    ensures Authenticate(verify, req.authorization).Success? && req.body.Failure? ==>
              out == Outcome(MapThrown(req.body.error), db)
    ensures out.response.status != 201 ==> out.db == db
    ensures out.response.status == 201 <==>
              Authenticate(verify, req.authorization).Success? && req.body.Success?
              && ParseIdeaBody(req.body.value).Success? && completion.Success?
    ensures out.response.status == 201 ==>
              out.db.tasks == db.tasks && out.db.nextProjectId == db.nextProjectId + 1
              && |out.db.projects| == |db.projects| + 1
              && out.db.projects[..|db.projects|] == db.projects
  {
    match Authenticate(verify, req.authorization)
    case Failure(denied) => Outcome(denied, db)
    case Success(user) =>
      match req.body
      case Failure(e) => Outcome(MapThrown(e), db)
      case Success(json) =>
        match ParseIdeaBody(json)
        case Failure(message) => Outcome(Fail(400, message), db)
        case Success(topic) =>
          match completion
          case Failure(e) => Outcome(MapThrown(e), db)
          case Success(content) =>
            var p := NewIdeaProject(db.nextProjectId, user.userId, topic, OrFallback(content, IdeaFallback), now);
            var view := IdeaView(p.id, p.title, p.idea, p.createdAt);
            Outcome(Response(201, IdeaCreated(IdeaCreatedMessage, view)),
                    Db(db.projects + [p], db.tasks, db.nextProjectId + 1))
  }

  /** Authentication is decided before the body, the completion or the table
      are looked at: a rejected request gets the same 401 whatever they are,
      and creates nothing. */
  lemma IdeaAuthFirst(verify: Verifier, header: Option<string>,
                      body1: Result<Json, Thrown>, db1: Db, c1: Result<Option<string>, Thrown>, now1: int,
                      body2: Result<Json, Thrown>, db2: Db, c2: Result<Option<string>, Thrown>, now2: int)
    requires Authenticate(verify, header).Failure?
    ensures IdeaPost(verify, Request(header, body1), db1, c1, now1).response
         == IdeaPost(verify, Request(header, body2), db2, c2, now2).response
    ensures IdeaPost(verify, Request(header, body1), db1, c1, now1).response.status == 401
    ensures IdeaPost(verify, Request(header, body1), db1, c1, now1).db == db1
  {
  }

  /** For an authenticated caller sending a string topic, the length alone
      decides validation: 1 to 100 characters pass, anything else is 400
      with zod's message. */
  lemma IdeaTopicLength(verify: Verifier, req: Request, db: Db,
                        completion: Result<Option<string>, Thrown>, now: int, topic: string)
    requires Authenticate(verify, req.authorization).Success?
    requires req.body.Success? && req.body.value.JObject?
    requires "topic" in req.body.value.fields && req.body.value.fields["topic"] == JString(topic)
    ensures IdeaPost(verify, req, db, completion, now).response.status == 400 <==> !ValidTopic(topic)
    ensures |topic| == 0 ==> IdeaPost(verify, req, db, completion, now).response == Fail(400, TopicRequired)
    ensures |topic| > 100 ==> IdeaPost(verify, req, db, completion, now).response == Fail(400, TopicTooLong)
    ensures ValidTopic(topic) && completion.Success? ==>
              IdeaPost(verify, req, db, completion, now).response.status == 201
  {
  }

  /** A body the schema rejects, for whatever reason (not an object, no
      topic, a topic that is not a string, a topic of the wrong length),
      gives 400 with the first validation message, and creates nothing. */
  lemma IdeaInvalidBodyIs400(verify: Verifier, req: Request, db: Db,
                             completion: Result<Option<string>, Thrown>, now: int, message: string)
    requires Authenticate(verify, req.authorization).Success?
    requires req.body.Success? && ParseIdeaBody(req.body.value) == Failure(message)
    ensures IdeaPost(verify, req, db, completion, now) == Outcome(Fail(400, message), db)
  {
  }

  /** When the completion call throws for a valid request, the shared error
      mapping decides the status, and no project is created. */
  lemma IdeaCompletionThrows(verify: Verifier, req: Request, db: Db, e: Thrown, now: int)
    requires Authenticate(verify, req.authorization).Success?
    requires req.body.Success? && ParseIdeaBody(req.body.value).Success?
    ensures IdeaPost(verify, req, db, Failure(e), now) == Outcome(MapThrown(e), db)
  {
  }

  /** On success exactly one project is appended: titled and described
      after the topic, owned by the authenticated user, status `active`, and
      holding the completion text or the fallback. */
  lemma IdeaCreatesOwnedProject(verify: Verifier, req: Request, db: Db,
                                completion: Result<Option<string>, Thrown>, now: int,
                                user: Identity, topic: string)
    requires Authenticate(verify, req.authorization) == Success(user)
    requires req.body.Success? && ParseIdeaBody(req.body.value) == Success(topic)
    requires completion.Success?
    ensures var out := IdeaPost(verify, req, db, completion, now);
            && out.response.status == 201
            && |out.db.projects| == |db.projects| + 1
            && var p := out.db.projects[|db.projects|];
            && p.userId == user.userId
            && p.title == "AI Generated: " + topic
            && p.description == Some("Startup idea generated for: " + topic)
            && p.status == "active"
            && p.id == db.nextProjectId
            && (completion.value.None? || completion.value.value == "" ==> p.idea == Some("Failed to generate idea"))
            && (completion.value.Some? && completion.value.value != "" ==> p.idea == completion.value)
            && out.response.body == IdeaCreated("Idea generated successfully",
                                                IdeaView(p.id, p.title, p.idea, p.createdAt))
  {
  }

  /** Creating a project keeps project ids a primary key. */
  lemma IdeaPreservesWellFormed(verify: Verifier, req: Request, db: Db,
                                completion: Result<Option<string>, Thrown>, now: int)
    requires WellFormed(db)
    ensures WellFormed(IdeaPost(verify, req, db, completion, now).db)
  {
  }
}
