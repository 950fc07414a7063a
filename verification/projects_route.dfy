/** `GET /api/projects`: authenticate, fetch the caller's projects newest
    first, and list each with its task count. The handler only reads the
    database, so it returns a response and no new table. */
module ProjectsRoute {
  import opened Wrappers
  import opened Auth
  import opened Store
  import opened Api

  /** One list entry: the project's fields and its number of tasks. */
  function ListView(p: Project, tasks: seq<Task>): (v: ListedProject)
    ensures v.taskCount == multiset(TaskProjectIds(tasks))[p.id]
  {
    ListedProject(p.id, p.title, p.description, p.idea, p.mvpPlan, p.status,
                  p.createdAt, p.updatedAt, TaskCount(tasks, p.id))
  }

  /** `findMany({where: {userId}, orderBy: {createdAt: 'desc'}})`. */
  function FetchOwnedNewestFirst(projects: seq<Project>, userId: int): (r: seq<Project>)
    ensures SortedDesc(r)
    ensures multiset(r) == multiset(OwnedBy(projects, userId))
  {
    SortByCreatedDesc(OwnedBy(projects, userId))
  }

  /** `projects.map(...)`: one entry per fetched project, in the same order. */
  function ListViews(ps: seq<Project>, tasks: seq<Task>): (list: seq<ListedProject>)
    ensures |list| == |ps|
    ensures forall i :: 0 <= i < |ps| ==> list[i] == ListView(ps[i], tasks)
    decreases |ps|
  {
    if |ps| == 0 then [] else [ListView(ps[0], tasks)] + ListViews(ps[1..], tasks)
  }

  /** Listing a concatenation lists each part in turn. */
  lemma {:induction false} ListViewsConcat(a: seq<Project>, b: seq<Project>, tasks: seq<Task>)
    ensures ListViews(a + b, tasks) == ListViews(a, tasks) + ListViews(b, tasks)
    decreases |a|
  {
    if |a| > 0 {
      assert (a + b)[1..] == a[1..] + b;
      ListViewsConcat(a[1..], b, tasks);
    } else {
      assert a + b == b;
    }
  }

  /** A sequence is its prefix, its k-th element and its suffix. */
  lemma SplitAt(b: seq<Project>, k: int)
    requires 0 <= k < |b|
    ensures b == b[..k] + ([b[k]] + b[k + 1..])
  {
  }

  /** Removing the element at position k removes one copy of it. */
  lemma RemoveAtMultiset(b: seq<Project>, k: int)
    requires 0 <= k < |b|
    ensures multiset(b[..k] + b[k + 1..]) == multiset(b) - multiset{b[k]}
  {
    SplitAt(b, k);
    var front, back := multiset(b[..k]), multiset(b[k + 1..]);
    assert multiset(b) == front + (multiset{b[k]} + back);
    assert multiset(b[..k] + b[k + 1..]) == front + back;
  }

  /** Dropping the first element removes one copy of it. */
  lemma DropFirstMultiset(a: seq<Project>)
    requires |a| > 0
    ensures multiset(a[1..]) == multiset(a) - multiset{a[0]}
  {
    assert a == [a[0]] + a[1..];
  }

  /** Two permutations of each other stay permutations once the first
      element of one is removed from wherever it sits in the other. */
  lemma RemoveMatched(a: seq<Project>, b: seq<Project>, k: int)
    requires multiset(a) == multiset(b)
    requires |a| > 0 && 0 <= k < |b| && b[k] == a[0]
    ensures multiset(a[1..]) == multiset(b[..k] + b[k + 1..])
  {
    RemoveAtMultiset(b, k);
    DropFirstMultiset(a);
    calc {
      multiset(a[1..]);
      multiset(a) - multiset{a[0]};
      multiset(b) - multiset{b[k]};
      multiset(b[..k] + b[k + 1..]);
    }
  }

  /** Reordering the projects only reorders their list entries: permutations
      of projects have permuted lists. */
  lemma {:induction false} ListViewsPermutation(a: seq<Project>, b: seq<Project>, tasks: seq<Task>)
    requires multiset(a) == multiset(b)
    ensures multiset(ListViews(a, tasks)) == multiset(ListViews(b, tasks))
    decreases |a|
  {
    if |a| == 0 {
      assert |b| == |multiset(b)| == 0;
    } else {
      var x := a[0];
      assert x in multiset(b);
      var k :| 0 <= k < |b| && b[k] == x;
      var front, back := b[..k], b[k + 1..];
      RemoveMatched(a, b, k);
      ListViewsPermutation(a[1..], front + back, tasks);
      SplitAt(a, 0);
      SplitAt(b, k);
      assert a[..0] == [];
      ViewsOfSplit(x, a[1..], front, back, tasks);
    }
  }

  /** Moving one entry from the front to the middle keeps the multiset. */
  lemma MoveToMiddle(x: seq<ListedProject>, v: ListedProject, f: seq<ListedProject>, g: seq<ListedProject>)
    requires multiset(x) == multiset(f + g)
    ensures multiset([v] + x) == multiset(f + ([v] + g))
  {
    calc {
      multiset([v] + x);
      multiset([v]) + multiset(f + g);
      multiset(f) + (multiset([v]) + multiset(g));
      multiset(f + ([v] + g));
    }
  }

  /** The list step of the permutation proof: the entry of the project
      moved from the front to the middle moves with it. */
  lemma ViewsOfSplit(x: Project, rest: seq<Project>, front: seq<Project>, back: seq<Project>, tasks: seq<Task>)
    requires multiset(ListViews(rest, tasks)) == multiset(ListViews(front + back, tasks))
    ensures multiset(ListViews([x] + rest, tasks)) == multiset(ListViews(front + ([x] + back), tasks))
  {
    var v := ListView(x, tasks);
    var lfront, lback := ListViews(front, tasks), ListViews(back, tasks);
    assert ([x] + rest)[1..] == rest;
    assert ListViews([x] + rest, tasks) == [v] + ListViews(rest, tasks);
    assert ([x] + back)[1..] == back;
    assert ListViews([x] + back, tasks) == [v] + lback;
    ListViewsConcat(front, [x] + back, tasks);
    ListViewsConcat(front, back, tasks);
    MoveToMiddle(ListViews(rest, tasks), v, lfront, lback);
  }

  /** The handler. */
  function ProjectsGet(verify: Verifier, authHeader: Option<string>, db: Db): (r: Response)
    ensures r.status in {200, 401}
    ensures Authenticate(verify, authHeader).Failure? ==> r == Authenticate(verify, authHeader).error
    ensures r.status == 200 <==> Authenticate(verify, authHeader).Success?
    ensures r.status == 200 ==> r.body.ProjectList?
    ensures r.status == 200 ==>
              var userId := Authenticate(verify, authHeader).value.userId;
              var list := r.body.projects;
              && multiset(list) == multiset(ListViews(OwnedBy(db.projects, userId), db.tasks))
              && (forall i, j :: 0 <= i < j < |list| ==> list[i].createdAt >= list[j].createdAt)
  {
    match Authenticate(verify, authHeader)
    case Failure(denied) => denied
    case Success(user) =>
      var owned := OwnedBy(db.projects, user.userId);
      var fetched := FetchOwnedNewestFirst(db.projects, user.userId);
      ListViewsPermutation(fetched, owned, db.tasks);
      Response(200, ProjectList(ListViews(fetched, db.tasks)))
  }

  /** Each listed entry copies its project's fields unchanged, and its task
      count is the number of tasks whose `projectId` is that project's id. */
  lemma ListViewCopiesFields(p: Project, tasks: seq<Task>)
    ensures var v := ListView(p, tasks);
            && v.id == p.id && v.title == p.title && v.description == p.description
            && v.idea == p.idea && v.mvpPlan == p.mvpPlan && v.status == p.status
            && v.createdAt == p.createdAt && v.updatedAt == p.updatedAt
            && v.taskCount == multiset(TaskProjectIds(tasks))[p.id]
  {
  }

  /** A caller only ever sees their own projects: two tables that agree on
      the caller's projects, in the same order, and on the tasks give the
      same response. */
  lemma ProjectsOwnerScoped(verify: Verifier, authHeader: Option<string>,
                            db1: Db, db2: Db, userId: int)
    requires Authenticate(verify, authHeader).Success?
    requires Authenticate(verify, authHeader).value.userId == userId
    requires OwnedBy(db1.projects, userId) == OwnedBy(db2.projects, userId)
    requires db1.tasks == db2.tasks
    ensures ProjectsGet(verify, authHeader, db1) == ProjectsGet(verify, authHeader, db2)
  {
  }
}
