/** The database the routes read and write, as an in-memory table of
    projects and tasks, with the queries the routes issue against it. */
module Store {
  import opened Wrappers

  /** A row of the `project` table. */
  datatype Project = Project(
    id: nat,
    userId: int,
    title: string,
    description: Option<string>,
    idea: Option<string>,
    mvpPlan: Option<string>,
    status: string,
    createdAt: int,
    updatedAt: int)

  /** A row of the `task` table; only its owning project matters here. */
  datatype Task = Task(id: nat, projectId: nat)

  /** The tables, plus the next value of the project id sequence. */
  datatype Db = Db(projects: seq<Project>, tasks: seq<Task>, nextProjectId: nat)

  /** Project ids are a primary key drawn from the id sequence. */
  ghost predicate WellFormed(db: Db)
  {
    && (forall i, j :: 0 <= i < j < |db.projects| ==> db.projects[i].id != db.projects[j].id)
    && (forall i :: 0 <= i < |db.projects| ==> db.projects[i].id < db.nextProjectId)
  }

  predicate OwnedMatch(p: Project, id: int, userId: int)
  {
    p.id == id && p.userId == userId
  }

  /** `findFirst({where: {id, userId}})`: the position of the first project
      with that id owned by that user. */
  function FindOwned(projects: seq<Project>, id: int, userId: int): (r: Option<nat>)
    ensures r.Some? ==> r.value < |projects| && OwnedMatch(projects[r.value], id, userId)
    ensures r.Some? ==> forall j :: 0 <= j < r.value ==> !OwnedMatch(projects[j], id, userId)
    ensures r.None? ==> forall j :: 0 <= j < |projects| ==> !OwnedMatch(projects[j], id, userId)
    decreases |projects|
  {
    if |projects| == 0 then None
    else if OwnedMatch(projects[0], id, userId) then Some(0)
    else
      match FindOwned(projects[1..], id, userId)
      case None => None
      case Some(i) => Some(i + 1)
  }

  /** `update({where: {id}, data: {mvpPlan}})`: the rows with that id get the
      new plan; nothing else in the table changes. */
  function SetPlanById(projects: seq<Project>, id: int, plan: string): (r: seq<Project>)
    ensures |r| == |projects|
    ensures forall i :: 0 <= i < |projects| && projects[i].id != id ==> r[i] == projects[i]
    ensures forall i :: 0 <= i < |projects| && projects[i].id == id ==>
              r[i].mvpPlan == Some(plan) && r[i].(mvpPlan := projects[i].mvpPlan) == projects[i]
    decreases |projects|
  {
    if |projects| == 0 then []
    else
      var head := if projects[0].id == id then projects[0].(mvpPlan := Some(plan)) else projects[0];
      [head] + SetPlanById(projects[1..], id, plan)
  }

  /** `findMany({where: {userId}})` before ordering: the user's projects. */
  function OwnedBy(projects: seq<Project>, userId: int): (r: seq<Project>)
    ensures forall p :: multiset(r)[p] == if p.userId == userId then multiset(projects)[p] else 0
    ensures forall i :: 0 <= i < |r| ==> r[i].userId == userId
    decreases |projects|
  {
    if |projects| == 0 then []
    else
      assert projects == [projects[0]] + projects[1..];
      var rest := OwnedBy(projects[1..], userId);
      if projects[0].userId == userId then [projects[0]] + rest else rest
  }

  /** Newest first: `createdAt` never increases along the sequence. */
  ghost predicate SortedDesc(ps: seq<Project>)
  {
    forall i, j :: 0 <= i < j < |ps| ==> ps[i].createdAt >= ps[j].createdAt
  }

  function InsertDesc(p: Project, ps: seq<Project>): (r: seq<Project>)
    requires SortedDesc(ps)
    ensures SortedDesc(r)
    ensures multiset(r) == multiset(ps) + multiset{p}
    ensures |r| == |ps| + 1
    ensures r[0] == p || (|ps| > 0 && r[0] == ps[0])
    decreases |ps|
  {
    if |ps| == 0 || p.createdAt >= ps[0].createdAt then [p] + ps
    else
      assert ps == [ps[0]] + ps[1..];
      var rest := InsertDesc(p, ps[1..]);
      assert forall k :: 0 <= k < |rest| ==> ps[0].createdAt >= rest[0].createdAt >= rest[k].createdAt;
      [ps[0]] + rest
  }

  /** `orderBy: {createdAt: 'desc'}`: the same projects, newest first. The
      relative order of projects created at the same instant is the
      database's choice; this model keeps their original order. */
  function SortByCreatedDesc(ps: seq<Project>): (r: seq<Project>)
    ensures SortedDesc(r)
    ensures multiset(r) == multiset(ps)
    ensures |r| == |ps|
    decreases |ps|
  {
    if |ps| == 0 then []
    else
      assert ps == [ps[0]] + ps[1..];
      InsertDesc(ps[0], SortByCreatedDesc(ps[1..]))
  }

  /** The owning project of each task, in table order. */
  function TaskProjectIds(tasks: seq<Task>): seq<nat>
  {
    seq(|tasks|, i requires 0 <= i < |tasks| => tasks[i].projectId)
  }

  /** `_count: {select: {tasks: true}}`: how many tasks belong to a project. */
  function TaskCount(tasks: seq<Task>, projectId: nat): (n: nat)
    ensures n == multiset(TaskProjectIds(tasks))[projectId]
    ensures n <= |tasks|
    decreases |tasks|
  {
    if |tasks| == 0 then 0
    else
      assert TaskProjectIds(tasks) == [tasks[0].projectId] + TaskProjectIds(tasks[1..]);
      (if tasks[0].projectId == projectId then 1 else 0) + TaskCount(tasks[1..], projectId)
  }
}
