/** `POST /api/ai/mvp`: authenticate, validate the project id, look the
    project up among the caller's own, require that it has an idea, ask the
    language model for a plan, and store the plan on that project. The
    completion arrives as an input: its text (possibly absent) or the error
    the call threw. */
module MvpRoute {
  import opened Wrappers
  import opened Auth
  import opened Schemas
  import opened Store
  import opened Api

  const NotFound := "Project not found or unauthorized"
  const IdeaRequired := "Project must have an idea to generate MVP plan"
  const PlanFallback := "Failed to generate MVP plan"
  const PlanCreatedMessage := "MVP plan generated successfully"

  /** The handler. */
  function MvpPost(verify: Verifier, req: Request, db: Db,
                   completion: Result<Option<string>, Thrown>): (out: Outcome)
    ensures out.response.status in {200, 400, 401, 404, 500, 503}
    ensures Authenticate(verify, req.authorization).Failure? ==>
              out == Outcome(Authenticate(verify, req.authorization).error, db)
    ensures Authenticate(verify, req.authorization).Success? && req.body.Failure? ==>
              out == Outcome(MapThrown(req.body.error), db)
    ensures out.response.status != 200 ==> out.db == db
    ensures out.db.tasks == db.tasks && out.db.nextProjectId == db.nextProjectId
    ensures |out.db.projects| == |db.projects|
    ensures out.response.status == 200 ==>
              && Authenticate(verify, req.authorization).Success?
              && req.body.Success? && ParseMvpBody(req.body.value).Success?
              && completion.Success?
              && exists i :: 0 <= i < |db.projects|
                   && OwnedMatch(db.projects[i], ParseMvpBody(req.body.value).value,
                                 Authenticate(verify, req.authorization).value.userId)
                   && db.projects[i].idea.Some? && db.projects[i].idea.value != ""
  {
    match Authenticate(verify, req.authorization)
    case Failure(denied) => Outcome(denied, db)
    case Success(user) =>
      match req.body
      case Failure(e) => Outcome(MapThrown(e), db)
      case Success(json) =>
        match ParseMvpBody(json)
        case Failure(message) => Outcome(Fail(400, message), db)
        case Success(projectId) =>
          match FindOwned(db.projects, projectId, user.userId)
          case None => Outcome(Fail(404, NotFound), db)
          case Some(i) =>
            var project := db.projects[i];
            if project.idea.None? || project.idea.value == "" then Outcome(Fail(400, IdeaRequired), db)
            else
              match completion
              case Failure(e) => Outcome(MapThrown(e), db)
              case Success(content) =>
                var plan := OrFallback(content, PlanFallback);
                var updated := project.(mvpPlan := Some(plan));
                var view := MvpView(updated.id, updated.title, updated.idea, updated.mvpPlan, updated.updatedAt);
                Outcome(Response(200, MvpGenerated(PlanCreatedMessage, view)),
                        db.(projects := SetPlanById(db.projects, projectId, plan)))
  }

  /** Authentication is decided before the body, the completion or the table
      are looked at: a rejected request gets the same 401 whatever they are,
      and changes nothing. */
  lemma MvpAuthFirst(verify: Verifier, header: Option<string>,
                     body1: Result<Json, Thrown>, db1: Db, c1: Result<Option<string>, Thrown>,
                     body2: Result<Json, Thrown>, db2: Db, c2: Result<Option<string>, Thrown>)
    requires Authenticate(verify, header).Failure?
    ensures MvpPost(verify, Request(header, body1), db1, c1).response
         == MvpPost(verify, Request(header, body2), db2, c2).response
    ensures MvpPost(verify, Request(header, body1), db1, c1).response.status == 401
    ensures MvpPost(verify, Request(header, body1), db1, c1).db == db1
  {
  }

  /** A body the schema rejects gives 400 with the first validation
      message, and changes nothing. */
  lemma MvpInvalidBodyIs400(verify: Verifier, req: Request, db: Db,
                            completion: Result<Option<string>, Thrown>, message: string)
    requires Authenticate(verify, req.authorization).Success?
    requires req.body.Success? && ParseMvpBody(req.body.value) == Failure(message)
    ensures MvpPost(verify, req, db, completion) == Outcome(Fail(400, message), db)
  {
  }

  /** When the completion call throws for an owned project with an idea, the
      shared error mapping decides the status, and nothing changes. */
  lemma MvpCompletionThrows(verify: Verifier, req: Request, db: Db, e: Thrown,
                            user: Identity, projectId: int, i: int)
    requires WellFormed(db)
    requires Authenticate(verify, req.authorization) == Success(user)
    requires req.body.Success? && ParseMvpBody(req.body.value) == Success(projectId)
    requires 0 <= i < |db.projects| && OwnedMatch(db.projects[i], projectId, user.userId)
    requires db.projects[i].idea.Some? && db.projects[i].idea.value != ""
    ensures MvpPost(verify, req, db, Failure(e)) == Outcome(MapThrown(e), db)
  {
    var r := FindOwned(db.projects, projectId, user.userId);
    assert r.Some? && r.value == i;
  }

  /** A project id that names none of the caller's projects, whether it is
      missing or someone else's, gives 404 and changes nothing. */
  lemma MvpNotOwnedIs404(verify: Verifier, req: Request, db: Db,
                         completion: Result<Option<string>, Thrown>, user: Identity, projectId: int)
    requires Authenticate(verify, req.authorization) == Success(user)
    requires req.body.Success? && ParseMvpBody(req.body.value) == Success(projectId)
    requires forall p :: p in db.projects ==> !OwnedMatch(p, projectId, user.userId)
    ensures MvpPost(verify, req, db, completion) == Outcome(Fail(404, NotFound), db)
  {
  }

  /** An owned project without an idea (absent or empty) gives 400 and
      changes nothing. */
  lemma MvpNeedsIdea(verify: Verifier, req: Request, db: Db,
                     completion: Result<Option<string>, Thrown>, user: Identity, projectId: int, i: int)
    requires Authenticate(verify, req.authorization) == Success(user)
    requires req.body.Success? && ParseMvpBody(req.body.value) == Success(projectId)
    requires WellFormed(db)
    requires 0 <= i < |db.projects| && OwnedMatch(db.projects[i], projectId, user.userId)
    requires db.projects[i].idea.None? || db.projects[i].idea.value == ""
    ensures MvpPost(verify, req, db, completion) == Outcome(Fail(400, IdeaRequired), db)
  {
    var r := FindOwned(db.projects, projectId, user.userId);
    assert r.Some? && r.value == i;
  }

  /** A valid request for an owned project with an idea, answered by the
      language model, succeeds: status 200, the plan (the completion text,
      or the fallback when that is absent or empty) is stored under the
      project's id, and the response echoes the updated project. */
  lemma MvpSucceeds(verify: Verifier, req: Request, db: Db, content: Option<string>,
                    user: Identity, projectId: int, i: int)
    requires WellFormed(db)
    requires Authenticate(verify, req.authorization) == Success(user)
    requires req.body.Success? && ParseMvpBody(req.body.value) == Success(projectId)
    requires 0 <= i < |db.projects| && OwnedMatch(db.projects[i], projectId, user.userId)
    requires db.projects[i].idea.Some? && db.projects[i].idea.value != ""
    ensures var out := MvpPost(verify, req, db, Success(content));
            var p := db.projects[i];
            var plan := OrFallback(content, "Failed to generate MVP plan");
            && out.response == Response(200, MvpGenerated("MVP plan generated successfully",
                                                          MvpView(p.id, p.title, p.idea, Some(plan), p.updatedAt)))
            && out.db == db.(projects := SetPlanById(db.projects, projectId, plan))
  {
    var r := FindOwned(db.projects, projectId, user.userId);
    assert r.Some? && r.value == i;
  }

  /** On success only the `mvpPlan` of the matched project changes: it
      becomes the completion text, or the fallback when that is absent or
      empty; every other project and every other field stays as it was. */
  lemma MvpUpdatesOnlyPlan(verify: Verifier, req: Request, db: Db,
                           completion: Result<Option<string>, Thrown>,
                           user: Identity, projectId: int)
    requires WellFormed(db)
    requires Authenticate(verify, req.authorization) == Success(user)
    requires req.body.Success? && ParseMvpBody(req.body.value) == Success(projectId)
    requires MvpPost(verify, req, db, completion).response.status == 200
    ensures var out := MvpPost(verify, req, db, completion);
            exists i :: 0 <= i < |db.projects|
              && OwnedMatch(db.projects[i], projectId, user.userId)
              && out.db.projects[i] == db.projects[i].(mvpPlan := Some(OrFallback(completion.value, PlanFallback)))
              && (forall j :: 0 <= j < |db.projects| && j != i ==> out.db.projects[j] == db.projects[j])
  {
    var out := MvpPost(verify, req, db, completion);
    var i := FindOwned(db.projects, projectId, user.userId).value;
    var plan := OrFallback(completion.value, PlanFallback);
    assert out.db.projects == SetPlanById(db.projects, projectId, plan);
    forall j | 0 <= j < |db.projects| && j != i
      ensures out.db.projects[j] == db.projects[j]
    {
      assert db.projects[j].id != db.projects[i].id;
    }
    assert out.db.projects[i] == db.projects[i].(mvpPlan := Some(plan));
  }

  /** Whatever the request, a project the caller does not own is left
      exactly as it was. */
  lemma MvpNeverTouchesOthers(verify: Verifier, req: Request, db: Db,
                              completion: Result<Option<string>, Thrown>, j: int)
    requires WellFormed(db)
    requires Authenticate(verify, req.authorization).Success?
    requires 0 <= j < |db.projects|
    requires db.projects[j].userId != Authenticate(verify, req.authorization).value.userId
    ensures MvpPost(verify, req, db, completion).db.projects[j] == db.projects[j]
  {
    var out := MvpPost(verify, req, db, completion);
    if out.response.status == 200 {
      var user := Authenticate(verify, req.authorization).value;
      var projectId := ParseMvpBody(req.body.value).value;
      MvpUpdatesOnlyPlan(verify, req, db, completion, user, projectId);
    }
  }

  /** Storing a plan keeps project ids a primary key. */
  lemma MvpPreservesWellFormed(verify: Verifier, req: Request, db: Db,
                               completion: Result<Option<string>, Thrown>)
    requires WellFormed(db)
    ensures WellFormed(MvpPost(verify, req, db, completion).db)
  {
  }
}
