/** The task endpoints: creating a task with de-duplication by URL, forcing
    a refresh, looking tasks up by id and by URL, and the background job
    that crawls, converts and records the outcome. The task collection is
    modelled as a store of typed tasks in creation order, with the
    scheduled background jobs beside it. The crawler and the conversion
    are inputs of the background job. */
module Routes {
  import opened JsonValue
  import opened Models
  import opened TaskRecords
  import opened LlmService

  /** The error stored for every failed task: `LLMService` has no
      `translate_error`, so the call meant to phrase the error raises and
      this fallback text is used. */
  const FallbackError: string := "处理过程中发生错误，请稍后重试"

  const TaskNotFound: string := "Task not found"
  const TaskNotFoundForUrl: string := "Task not found for this URL"

  /** The id the store gives its `n`-th record. */
  function IdOf(n: nat): string
  {
    NatToString(n)
  }

  /** A background job queued by `background_tasks.add_task(process_task, ...)`. */
  datatype Job = Job(taskId: string, url: string, translate: bool)

  /** The collection's records in creation order, the number of ids
      issued so far, and the jobs scheduled so far. */
  datatype Store = Store(tasks: seq<Task>, issued: nat, jobs: seq<Job>)

  /** A handler's answer: the task, or a 404 with its detail. */
  datatype Response = Found(task: Task) | NotFound(detail: string)

  /** A store after a handler ran, with the task it answered. */
  datatype Handled = Handled(store: Store, task: Task)

  // ----- the store's queries -----

  /** The position of the record with id `id`. */
  function IdIndex(tasks: seq<Task>, id: string): (r: Option<nat>)
    ensures r.Some? ==> r.value < |tasks| && tasks[r.value].id == Some(id)
    ensures r.None? <==> forall k :: 0 <= k < |tasks| ==> tasks[k].id != Some(id)
  {
    if tasks == [] then None
    else if tasks[|tasks| - 1].id == Some(id) then Some(|tasks| - 1)
    else IdIndex(tasks[..|tasks| - 1], id)
  }

  /** `GET .../records/{id}`: the record with that id, `None` for a 404. */
  function FindById(tasks: seq<Task>, id: string): Option<Task>
  {
    match IdIndex(tasks, id)
    case Some(k) => Some(tasks[k])
    case None => None
  }

  /** The position of the most recently created record for `url`. */
  function LatestIndex(tasks: seq<Task>, url: string): (r: Option<nat>)
    ensures r.Some? ==> r.value < |tasks| && tasks[r.value].url == url
    ensures r.Some? ==> forall j :: r.value < j < |tasks| ==> tasks[j].url != url
    ensures r.None? <==> forall k :: 0 <= k < |tasks| ==> tasks[k].url != url
  {
    if tasks == [] then None
    else if tasks[|tasks| - 1].url == url then Some(|tasks| - 1)
    else LatestIndex(tasks[..|tasks| - 1], url)
  }

  /** `get_task_by_url`: the first item of `filter=url="{url}"&sort=-created`. */
  function LatestByUrl(tasks: seq<Task>, url: string): Option<Task>
  {
    match LatestIndex(tasks, url)
    case Some(k) => Some(tasks[k])
    case None => None
  }

  // ----- the store's updates -----

  /** The records without the one whose id is `id`, in the same order. */
  function Remove(tasks: seq<Task>, id: string): (r: seq<Task>)
    ensures |r| <= |tasks|
    ensures forall t :: t in r <==> t in tasks && t.id != Some(id)
  {
    if tasks == [] then []
    else
      var n := |tasks| - 1;
      Remove(tasks[..n], id) + (if tasks[n].id == Some(id) then [] else [tasks[n]])
  }

  /** The records with the one whose id is `id` updated as a PATCH of
      status, result and error does. */
  function Replace(tasks: seq<Task>, id: string, status: TaskStatus, result: Option<ArticleData>, error: Option<string>): (r: seq<Task>)
    ensures |r| == |tasks|
    ensures forall k :: 0 <= k < |tasks| ==> r[k].id == tasks[k].id && r[k].url == tasks[k].url
  {
    seq(|tasks|, k requires 0 <= k < |tasks| =>
      if tasks[k].id == Some(id) then Updated(tasks[k], status, result, error) else tasks[k])
  }

  /** `create_task` of the database service: a `pending` record with a new
      id, no result and no error, appended to the collection. */
  function Insert(s: Store, url: string): (h: Handled)
    ensures h.task == Task(Some(IdOf(s.issued)), url, Pending, None, None)
    ensures h.store == Store(s.tasks + [h.task], s.issued + 1, s.jobs)
  {
    var t := Task(Some(IdOf(s.issued)), url, Pending, None, None);
    Handled(Store(s.tasks + [t], s.issued + 1, s.jobs), t)
  }

  /** `delete_task`: the record is gone; a missing id changes nothing. */
  function Delete(s: Store, id: Option<string>): (r: Store)
    ensures r.issued == s.issued && r.jobs == s.jobs
  {
    if id.Some? then s.(tasks := Remove(s.tasks, id.value)) else s
  }

  /** `update_task_status`: `None` when it raises, because the store could
      not be reached or no record has the id; otherwise the record is
      patched. */
  function Update(s: Store, id: string, status: TaskStatus, result: Option<ArticleData>, error: Option<string>,
                  reachable: bool): (r: Option<Store>)
    ensures r.Some? <==> reachable && IdIndex(s.tasks, id).Some?
    ensures r.Some? ==> r.value.issued == s.issued && r.value.jobs == s.jobs
  {
    if !reachable || IdIndex(s.tasks, id).None? then None
    else Some(s.(tasks := Replace(s.tasks, id, status, result, error)))
  }

  // ----- the handlers, as transitions of the store -----

  /** `create_task`: the latest task for the URL is answered as it is
      unless a refresh is forced; otherwise that task, if any, is deleted,
      a new pending task is created and its processing scheduled. */
  function CreateTaskSpec(s: Store, req: CreateTaskRequest): Handled
  {
    var existing := LatestByUrl(s.tasks, req.url);
    if existing.Some? && !req.forceRefresh then Handled(s, existing.value)
    else
      var s1 := if existing.Some? then Delete(s, existing.value.id) else s;
      Schedule(Insert(s1, req.url), req.translateToChinese)
  }

  /** `refresh_task`: any task for the URL is deleted, then a new pending
      task is created and its processing scheduled. */
  function RefreshTaskSpec(s: Store, req: RefreshTaskRequest): Handled
  {
    var existing := LatestByUrl(s.tasks, req.url);
    var s1 := if existing.Some? then Delete(s, existing.value.id) else s;
    Schedule(Insert(s1, req.url), req.translateToChinese)
  }

  /** Queueing the processing of a newly created task. */
  function Schedule(h: Handled, translate: bool): (r: Handled)
    requires h.task.id.Some?
    ensures r.task == h.task && r.store.tasks == h.store.tasks && r.store.issued == h.store.issued
    ensures r.store.jobs == h.store.jobs + [Job(h.task.id.value, h.task.url, translate)]
  {
    Handled(h.store.(jobs := h.store.jobs + [Job(h.task.id.value, h.task.url, translate)]), h.task)
  }

  /** The `except` branch of `process_task`: an attempt to mark the task
      `failed` with the fallback error, whose own failure is swallowed. */
  function RecordFailure(s: Store, id: string, failing: set<TaskStatus>): Store
  {
    match Update(s, id, Failed, None, Some(FallbackError), Failed !in failing)
    case None => s
    case Some(s1) => s1
  }

  /** `process_task`: mark the task `processing`, crawl, convert, and mark
      it `completed` with the article; any exception on the way ends in
      `RecordFailure`. `failing` holds the statuses whose update raises
      for a reason other than a missing record. */
  function ProcessTaskSpec(s: Store, job: Job, crawl: Outcome<string>, convert: (string, bool) -> Conversion,
                           failing: set<TaskStatus>): Store
  {
    match Update(s, job.taskId, Processing, None, None, Processing !in failing)
    case None => RecordFailure(s, job.taskId, failing)
    case Some(s1) =>
      if crawl.Raised? then RecordFailure(s1, job.taskId, failing)
      else
        match convert(crawl.value, job.translate)
        case Converted(article) =>
          (match Update(s1, job.taskId, Completed, Some(article), None, Completed !in failing)
           case None => RecordFailure(s1, job.taskId, failing)
           case Some(s2) => s2)
        case _ => RecordFailure(s1, job.taskId, failing)
  }

  // ----- store invariants -----

  /** Every record has an id, issued earlier, and no two records share one. */
  ghost predicate ValidStore(s: Store)
  {
    && (forall k :: 0 <= k < |s.tasks| ==> s.tasks[k].id.Some?)
    && (forall k, m :: 0 <= k < |s.tasks| && s.issued <= m ==> s.tasks[k].id != Some(IdOf(m)))
    && DistinctIds(s.tasks)
  }

  /** No two records share an id. */
  ghost predicate DistinctIds(tasks: seq<Task>)
  {
    forall i, j :: 0 <= i < j < |tasks| ==> tasks[i].id != tasks[j].id
  }

  /** No two records are for the same URL. */
  ghost predicate OnePerUrl(tasks: seq<Task>)
  {
    forall i, j :: 0 <= i < j < |tasks| ==> tasks[i].url != tasks[j].url
  }

  // ----- the service -----

  class TaskService {
    var tasks: seq<Task>
    var issued: nat
    var jobs: seq<Job>

    function State(): Store
      reads this
    {
      Store(tasks, issued, jobs)
    }

    ghost predicate Valid()
      reads this
    {
      ValidStore(State())
    }

    constructor()
      ensures Valid() && tasks == [] && jobs == []
    {
      tasks, issued, jobs := [], 0, [];
    }

    /** `db_service.get_task_by_url`. */
    method FindTaskByUrl(url: string) returns (r: Option<Task>)
      ensures r.Some? <==> exists k :: 0 <= k < |tasks| && tasks[k].url == url
      ensures r == LatestByUrl(tasks, url)
    {
      r := LatestByUrl(tasks, url);
    }

    /** `db_service.get_task_by_id`. */
    method FindTaskById(id: string) returns (r: Option<Task>)
      ensures r.Some? <==> exists k :: 0 <= k < |tasks| && tasks[k].id == Some(id)
      ensures r.Some? ==> r.value in tasks && r.value.id == Some(id)
    {
      r := FindById(tasks, id);
    }

    /** `db_service.create_task`. */
    method InsertTask(url: string) returns (t: Task)
      requires Valid()
      modifies this
      ensures Valid()
      ensures Handled(State(), t) == Insert(old(State()), url)
    {
      var h := Insert(State(), url);
      InsertValid(State(), url);
      tasks, issued := h.store.tasks, h.store.issued;
      t := h.task;
    }

    /** `db_service.delete_task`. */
    method DeleteTask(id: Option<string>) returns (deleted: bool)
      requires Valid()
      modifies this
      ensures Valid()
      ensures deleted <==> id.Some? && IdIndex(old(tasks), id.value).Some?
      ensures State() == Delete(old(State()), id)
    {
      deleted := id.Some? && IdIndex(tasks, id.value).Some?;
      DeleteValid(State(), id);
      tasks := Delete(State(), id).tasks;
    }

    /** `db_service.update_task_status`; `reachable` is false when the
        request itself fails. */
    method UpdateTask(id: string, status: TaskStatus, result: Option<ArticleData>, error: Option<string>,
                      reachable: bool) returns (ok: bool)
      requires Valid()
      modifies this
      ensures Valid()
      ensures var u := Update(old(State()), id, status, result, error, reachable);
        && ok == u.Some?
        && State() == (if ok then u.value else old(State()))
    {
      var u := Update(State(), id, status, result, error, reachable);
      if u.Some? {
        UpdateValid(State(), id, status, result, error);
        tasks := u.value.tasks;
        ok := true;
      } else {
        ok := false;
      }
    }

    /** `POST /api/tasks`. */
    method CreateTask(req: CreateTaskRequest) returns (resp: Task)
      requires Valid()
      modifies this
      ensures Valid()
      ensures Handled(State(), resp) == CreateTaskSpec(old(State()), req)
    {
      var existing := FindTaskByUrl(req.url);
      if existing.Some? && !req.forceRefresh {
        return existing.value;
      }
      if existing.Some? {
        var _ := DeleteTask(existing.value.id);
      }
      resp := InsertTask(req.url);
      jobs := jobs + [Job(resp.id.value, req.url, req.translateToChinese)];
    }

    /** `POST /api/tasks/refresh`. */
    method RefreshTask(req: RefreshTaskRequest) returns (resp: Task)
      requires Valid()
      modifies this
      ensures Valid()
      ensures Handled(State(), resp) == RefreshTaskSpec(old(State()), req)
    {
      var existing := FindTaskByUrl(req.url);
      if existing.Some? {
        var _ := DeleteTask(existing.value.id);
      }
      resp := InsertTask(req.url);
      jobs := jobs + [Job(resp.id.value, req.url, req.translateToChinese)];
    }

    /** `GET /api/tasks/{task_id}`: 404 exactly when no record has the id. */
    method GetTask(id: string) returns (r: Response)
      ensures r.NotFound? <==> forall k :: 0 <= k < |tasks| ==> tasks[k].id != Some(id)
      ensures r.NotFound? ==> r.detail == TaskNotFound
      ensures r.Found? ==> r.task in tasks && r.task.id == Some(id)
    {
      var task := FindTaskById(id);
      if task.None? {
        return NotFound(TaskNotFound);
      }
      r := Found(task.value);
    }

    /** `GET /api/tasks/url/{url}`: 404 exactly when no record is for the
        URL; otherwise the latest one. */
    method GetTaskByUrl(url: string) returns (r: Response)
      ensures r.NotFound? <==> forall k :: 0 <= k < |tasks| ==> tasks[k].url != url
      ensures r.NotFound? ==> r.detail == TaskNotFoundForUrl
      ensures r.Found? ==> r.task.url == url && r.task in tasks
      ensures r.Found? ==>
        exists k :: 0 <= k < |tasks| && tasks[k] == r.task && forall j :: k < j < |tasks| ==> tasks[j].url != url
    {
      var task := FindTaskByUrl(url);
      if task.None? {
        return NotFound(TaskNotFoundForUrl);
      }
      r := Found(task.value);
    }

    /** The background job `process_task(task_id, url, translate)`, with
        the crawl's outcome and the conversion as inputs. */
    method ProcessTask(job: Job, crawl: Outcome<string>, convert: (string, bool) -> Conversion,
                       failing: set<TaskStatus>)
      requires Valid()
      modifies this
      ensures Valid()
      ensures State() == ProcessTaskSpec(old(State()), job, crawl, convert, failing)
    {
      var ok := UpdateTask(job.taskId, Processing, None, None, Processing !in failing);
      var failed := !ok;
      if ok {
        match crawl {
          case Raised =>
            failed := true;
          case Ok(markdown) =>
            var conversion := convert(markdown, job.translate);
            if conversion.Converted? {
              ok := UpdateTask(job.taskId, Completed, Some(conversion.article), None, Completed !in failing);
              failed := !ok;
            } else {
              failed := true;
            }
        }
      }
      if failed {
        var friendly := FallbackError;
        var _ := UpdateTask(job.taskId, Failed, None, Some(friendly), Failed !in failing);
      }
    }
  }

  // ----- invariants kept by the store's updates -----

  lemma InsertValid(s: Store, url: string)
    requires ValidStore(s)
    ensures ValidStore(Insert(s, url).store)
  {
    var t := Insert(s, url).task;
    forall m: nat | s.issued + 1 <= m
      ensures t.id != Some(IdOf(m))
    {
      NatToStringInjective(s.issued, m);
    }
  }

  lemma {:induction false} RemoveDistinct(tasks: seq<Task>, id: string)
    requires DistinctIds(tasks)
    ensures DistinctIds(Remove(tasks, id))
  {
    if tasks != [] {
      var n := |tasks| - 1;
      RemoveDistinct(tasks[..n], id);
      var init := Remove(tasks[..n], id);
      var r := Remove(tasks, id);
      forall i, j | 0 <= i < j < |r|
        ensures r[i].id != r[j].id
      {
        assert r[i] == init[i];
        if j < |init| {
          assert r[j] == init[j];
        } else {
          assert r[j] == tasks[n];
          assert init[i] in tasks[..n];
          var k :| 0 <= k < n && tasks[..n][k] == init[i];
          assert tasks[k] == r[i];
        }
      }
    }
  }

  lemma DeleteValid(s: Store, id: Option<string>)
    requires ValidStore(s)
    ensures ValidStore(Delete(s, id))
  {
    if id.Some? {
      RemoveDistinct(s.tasks, id.value);
      var r := Remove(s.tasks, id.value);
      forall k | 0 <= k < |r|
        ensures r[k].id.Some? && forall m :: s.issued <= m ==> r[k].id != Some(IdOf(m))
      {
        assert r[k] in s.tasks;
        var i :| 0 <= i < |s.tasks| && s.tasks[i] == r[k];
      }
      assert Delete(s, id).tasks == r;
    }
  }

  lemma UpdateValid(s: Store, id: string, status: TaskStatus, result: Option<ArticleData>, error: Option<string>)
    requires ValidStore(s)
    ensures ValidStore(s.(tasks := Replace(s.tasks, id, status, result, error)))
  {
  }

  /** Removing records keeps the remaining ones for different URLs. */
  lemma {:induction false} RemoveOnePerUrl(tasks: seq<Task>, id: string)
    requires OnePerUrl(tasks)
    ensures OnePerUrl(Remove(tasks, id))
  {
    if tasks != [] {
      var n := |tasks| - 1;
      RemoveOnePerUrl(tasks[..n], id);
      var init := Remove(tasks[..n], id);
      var r := Remove(tasks, id);
      forall i, j | 0 <= i < j < |r|
        ensures r[i].url != r[j].url
      {
        assert r[i] == init[i];
        if j < |init| {
          assert r[j] == init[j];
        } else {
          assert r[j] == tasks[n];
          assert init[i] in tasks[..n];
          var k :| 0 <= k < n && tasks[..n][k] == init[i];
          assert tasks[k] == r[i];
        }
      }
    }
  }

  // ----- properties of the handlers -----

  /** After `create_task`, looking the URL up finds the task it answered,
      whether that was the existing one or a new one. */
  lemma CreateThenLookup(s: Store, req: CreateTaskRequest)
    ensures var h := CreateTaskSpec(s, req);
      LatestByUrl(h.store.tasks, req.url) == Some(h.task)
  {
    var h := CreateTaskSpec(s, req);
    if !(LatestByUrl(s.tasks, req.url).Some? && !req.forceRefresh) {
      assert h.store.tasks[|h.store.tasks| - 1] == h.task;
    }
  }

  /** Creating a task for a URL a second time, without forcing a refresh,
      answers the task the first call answered and changes nothing. */
  lemma CreateDeduplicates(s: Store, req: CreateTaskRequest)
    ensures var h := CreateTaskSpec(s, req);
      CreateTaskSpec(h.store, req.(forceRefresh := false)) == Handled(h.store, h.task)
  {
    CreateThenLookup(s, req);
  }

  /** A create that does not find a task for its URL, or that forces a
      refresh, answers a new pending task with a new id and schedules its
      processing with the request's translation flag. */
  lemma CreateSchedulesNewTask(s: Store, req: CreateTaskRequest)
    requires LatestByUrl(s.tasks, req.url).None? || req.forceRefresh
    ensures var h := CreateTaskSpec(s, req);
      && h.task == Task(Some(IdOf(s.issued)), req.url, Pending, None, None)
      && h.store.issued == s.issued + 1
      && h.store.jobs == s.jobs + [Job(IdOf(s.issued), req.url, req.translateToChinese)]
  {
  }

  /** With at most one task per URL, removing the latest task for a URL
      leaves none for it. */
  lemma {:induction false} NoneLeftForUrl(tasks: seq<Task>, url: string)
    requires OnePerUrl(tasks) && LatestIndex(tasks, url).Some?
    requires tasks[LatestIndex(tasks, url).value].id.Some?
    ensures var k := LatestIndex(tasks, url).value;
      forall t :: t in Remove(tasks, tasks[k].id.value) ==> t.url != url
  {
    var k := LatestIndex(tasks, url).value;
    var r := Remove(tasks, tasks[k].id.value);
    forall t | t in r
      ensures t.url != url
    {
      var j :| 0 <= j < |tasks| && tasks[j] == t;
    }
  }

  /** Deleting the latest task for a URL and adding a new one for it keeps
      at most one task per URL. */
  lemma {:induction false} ReplaceForUrlOnePerUrl(s: Store, url: string, translate: bool)
    requires ValidStore(s) && OnePerUrl(s.tasks)
    ensures var existing := LatestByUrl(s.tasks, url);
      var s1 := if existing.Some? then Delete(s, existing.value.id) else s;
      OnePerUrl(Schedule(Insert(s1, url), translate).store.tasks)
  {
    var existing := LatestByUrl(s.tasks, url);
    var s1 := if existing.Some? then Delete(s, existing.value.id) else s;
    if existing.Some? {
      RemoveOnePerUrl(s.tasks, existing.value.id.value);
      NoneLeftForUrl(s.tasks, url);
    }
    var all := s1.tasks + [Insert(s1, url).task];
    forall i, j | 0 <= i < j < |all|
      ensures all[i].url != all[j].url
    {
      if j == |s1.tasks| {
        assert all[i] in s1.tasks;
      }
    }
  }

  /** `create_task` keeps at most one task per URL. */
  lemma CreateKeepsOnePerUrl(s: Store, req: CreateTaskRequest)
    requires ValidStore(s) && OnePerUrl(s.tasks)
    ensures OnePerUrl(CreateTaskSpec(s, req).store.tasks)
  {
    if !(LatestByUrl(s.tasks, req.url).Some? && !req.forceRefresh) {
      ReplaceForUrlOnePerUrl(s, req.url, req.translateToChinese);
    }
  }

  /** `refresh_task` keeps at most one task per URL. */
  lemma RefreshKeepsOnePerUrl(s: Store, req: RefreshTaskRequest)
    requires ValidStore(s) && OnePerUrl(s.tasks)
    ensures OnePerUrl(RefreshTaskSpec(s, req).store.tasks)
  {
    ReplaceForUrlOnePerUrl(s, req.url, req.translateToChinese);
  }

  /** After `refresh_task`, the URL's task is the new pending one and the
      task it replaced can no longer be found by its id. */
  lemma {:induction false} RefreshReplacesTask(s: Store, req: RefreshTaskRequest)
    requires ValidStore(s) && OnePerUrl(s.tasks)
    ensures var h := RefreshTaskSpec(s, req);
      && h.task == Task(Some(IdOf(s.issued)), req.url, Pending, None, None)
      && LatestByUrl(h.store.tasks, req.url) == Some(h.task)
      && forall t :: t in s.tasks && t.url == req.url ==> FindById(h.store.tasks, t.id.value).None?
  {
    var h := RefreshTaskSpec(s, req);
    assert h.store.tasks[|h.store.tasks| - 1] == h.task;
    var existing := LatestByUrl(s.tasks, req.url);
    forall t | t in s.tasks && t.url == req.url
      ensures FindById(h.store.tasks, t.id.value).None?
    {
      var j :| 0 <= j < |s.tasks| && s.tasks[j] == t;
      var k := LatestIndex(s.tasks, req.url).value;
      assert j == k;
      var s1 := Delete(s, existing.value.id);
      assert forall u :: u in s1.tasks ==> u.id != t.id;
      assert h.task.id != t.id;
      forall m | 0 <= m < |h.store.tasks|
        ensures h.store.tasks[m].id != Some(t.id.value)
      {
        if m < |s1.tasks| {
          assert h.store.tasks[m] in s1.tasks;
        }
      }
    }
  }

  // ----- properties of the background job -----

  /** Whether every step of `process_task` goes through. */
  predicate Succeeds(job: Job, crawl: Outcome<string>, convert: (string, bool) -> Conversion, failing: set<TaskStatus>)
  {
    && Processing !in failing
    && crawl.Ok?
    && convert(crawl.value, job.translate).Converted?
    && Completed !in failing
  }

  /** The position of a record is decided by the ids alone. */
  lemma {:induction false} IdIndexByIds(a: seq<Task>, b: seq<Task>, id: string)
    requires |a| == |b| && forall k :: 0 <= k < |a| ==> a[k].id == b[k].id
    ensures IdIndex(a, id) == IdIndex(b, id)
  {
    if a != [] {
      var n := |a| - 1;
      IdIndexByIds(a[..n], b[..n], id);
    }
  }

  /** A successful update patches the record with that id and no other. */
  lemma UpdateEffect(s: Store, id: string, status: TaskStatus, result: Option<ArticleData>, error: Option<string>, reachable: bool)
    requires Update(s, id, status, result, error, reachable).Some?
    ensures var s1 := Update(s, id, status, result, error, reachable).value;
      && FindById(s1.tasks, id) == Some(Updated(FindById(s.tasks, id).value, status, result, error))
      && |s1.tasks| == |s.tasks|
      && forall k :: 0 <= k < |s.tasks| && s.tasks[k].id != Some(id) ==> s1.tasks[k] == s.tasks[k]
  {
    var s1 := Update(s, id, status, result, error, reachable).value;
    IdIndexByIds(s.tasks, s1.tasks, id);
  }

  /** The job on a task whose every step goes through leaves it
      `completed` with the converted article, its error untouched. */
  lemma {:induction false} ProcessCompletes(s: Store, job: Job, crawl: Outcome<string>, convert: (string, bool) -> Conversion,
                                            failing: set<TaskStatus>)
    requires IdIndex(s.tasks, job.taskId).Some? && Succeeds(job, crawl, convert, failing)
    ensures var t := FindById(s.tasks, job.taskId).value;
      var article := convert(crawl.value, job.translate).article;
      FindById(ProcessTaskSpec(s, job, crawl, convert, failing).tasks, job.taskId)
        == Some(Task(t.id, t.url, Completed, Some(article), t.error))
  {
    var id := job.taskId;
    UpdateEffect(s, id, Processing, None, None, true);
    var s1 := Update(s, id, Processing, None, None, true).value;
    var article := convert(crawl.value, job.translate).article;
    UpdateEffect(s1, id, Completed, Some(article), None, true);
  }

  /** The job on a task where some step fails leaves it `failed` with the
      fallback error and its result untouched, provided that last update
      goes through. */
  lemma {:induction false} ProcessFails(s: Store, job: Job, crawl: Outcome<string>, convert: (string, bool) -> Conversion,
                                        failing: set<TaskStatus>)
    requires IdIndex(s.tasks, job.taskId).Some? && !Succeeds(job, crawl, convert, failing) && Failed !in failing
    ensures var t := FindById(s.tasks, job.taskId).value;
      FindById(ProcessTaskSpec(s, job, crawl, convert, failing).tasks, job.taskId)
        == Some(Task(t.id, t.url, Failed, t.result, Some(FallbackError)))
  {
    var id := job.taskId;
    if Processing in failing {
      UpdateEffect(s, id, Failed, None, Some(FallbackError), true);
    } else {
      UpdateEffect(s, id, Processing, None, None, true);
      var s1 := Update(s, id, Processing, None, None, true).value;
      UpdateEffect(s1, id, Failed, None, Some(FallbackError), true);
    }
  }

  /** When the update to `failed` itself raises, the failure is swallowed
      and a task whose processing had started stays `processing`. */
  lemma {:induction false} FailureUpdateSwallowed(s: Store, job: Job, crawl: Outcome<string>, convert: (string, bool) -> Conversion,
                                                  failing: set<TaskStatus>)
    requires IdIndex(s.tasks, job.taskId).Some? && !Succeeds(job, crawl, convert, failing)
    requires Processing !in failing && Failed in failing
    ensures var t := FindById(s.tasks, job.taskId).value;
      FindById(ProcessTaskSpec(s, job, crawl, convert, failing).tasks, job.taskId)
        == Some(Task(t.id, t.url, Processing, t.result, t.error))
  {
    UpdateEffect(s, job.taskId, Processing, None, None, true);
  }

  /** With the final update going through, the task ends `completed`
      exactly when every step succeeded and `failed` exactly when one did
      not. */
  lemma ProcessOutcome(s: Store, job: Job, crawl: Outcome<string>, convert: (string, bool) -> Conversion,
                       failing: set<TaskStatus>)
    requires IdIndex(s.tasks, job.taskId).Some? && Failed !in failing
    ensures var t := FindById(ProcessTaskSpec(s, job, crawl, convert, failing).tasks, job.taskId);
      && t.Some?
      && (t.value.status == Completed <==> Succeeds(job, crawl, convert, failing))
      && (t.value.status == Failed <==> !Succeeds(job, crawl, convert, failing))
  {
    if Succeeds(job, crawl, convert, failing) {
      ProcessCompletes(s, job, crawl, convert, failing);
    } else {
      ProcessFails(s, job, crawl, convert, failing);
    }
  }

  /** The job touches no record but its own, adds and removes none, and
      leaves a store without its task as it was. */
  lemma {:induction false} ProcessIsolated(s: Store, job: Job, crawl: Outcome<string>, convert: (string, bool) -> Conversion,
                                           failing: set<TaskStatus>)
    ensures var r := ProcessTaskSpec(s, job, crawl, convert, failing);
      && |r.tasks| == |s.tasks| && r.issued == s.issued && r.jobs == s.jobs
      && (forall k :: 0 <= k < |s.tasks| && s.tasks[k].id != Some(job.taskId) ==> r.tasks[k] == s.tasks[k])
      && (IdIndex(s.tasks, job.taskId).None? ==> r == s)
  {
    var id := job.taskId;
    if IdIndex(s.tasks, id).Some? {
      if Processing !in failing {
        UpdateEffect(s, id, Processing, None, None, true);
        var s1 := Update(s, id, Processing, None, None, true).value;
        if Failed !in failing {
          UpdateEffect(s1, id, Failed, None, Some(FallbackError), true);
        }
        if crawl.Ok? && convert(crawl.value, job.translate).Converted? && Completed !in failing {
          UpdateEffect(s1, id, Completed, Some(convert(crawl.value, job.translate).article), None, true);
        }
      } else if Failed !in failing {
        UpdateEffect(s, id, Failed, None, Some(FallbackError), true);
      }
    }
  }
}
