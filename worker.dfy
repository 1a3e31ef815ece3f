/** The background task worker of pkg/worker/worker.go: a FIFO queue of tasks,
    a pending counter, one replaceable middleware and a shared result cache.
    The consumer loop is modelled one iteration at a time; a job is a function
    from its origin context to the (value, error) pair it yields. */
module Worker {
  import opened Wrappers
  import opened TtlCache

  /** `time.Duration` units, in nanoseconds. */
  const Second: int := 1_000_000_000
  const Minute: int := 60 * Second

  /** TTL used when a task leaves its own TTL at zero. */
  const DefaultTTL: int := 10 * Minute

  /** Capacity of the task channel. */
  const MaxQueueSize: nat := 100

  /** The context a task was enqueued with, as an opaque token. */
  datatype Context = Context(id: nat)

  /** A background job: what it yields when run with a context. */
  type Job<V> = Context -> (V, Option<Error>)

  /** A middleware wraps a job into another job. */
  type Middleware<!V> = Job<V> -> Job<V>

  datatype Task<V> = Task(originContext: Context, name: string, job: Job<V>, ttl: int)

  /** What the worker stores under a task's name, error included. */
  datatype TaskResult<V> = TaskResult(value: V, error: Option<Error>)

  /** The middleware installed by `New`: returns the job unchanged. */
  function Identity<V>(job: Job<V>): Job<V> {
    job
  }

  /** The TTL a result is stored with: the task's own, or 10 minutes when it is zero. */
  function EffectiveTTL(ttl: int): (r: int)
    ensures r != 0
    ensures ttl != 0 ==> r == ttl
    ensures ttl == 0 ==> r == 10 * 60 * 1_000_000_000
  {
    if ttl == 0 then DefaultTTL else ttl
  }

  /** The result of running `t`'s job wrapped by `mw` with `t`'s origin context. */
  function Outcome<V>(mw: Middleware<V>, t: Task<V>): TaskResult<V> {
    var r := mw(t.job)(t.originContext);
    TaskResult(r.0, r.1)
  }

  /** The result cache after the worker has finished `t` at instant `now`. */
  function Record<V>(m: map<string, Item<TaskResult<V>>>, t: Task<V>, mw: Middleware<V>, now: int)
    : map<string, Item<TaskResult<V>>>
  {
    AfterSet(m, t.name, Outcome(mw, t), EffectiveTTL(t.ttl), now)
  }

  /** The names of the given tasks. */
  function Names<V>(tasks: seq<Task<V>>): set<string> {
    set i | 0 <= i < |tasks| :: tasks[i].name
  }

  /** The result cache after the worker has finished `tasks` in order, the
      `i`-th at instant `clock[i]`. */
  function Drain<V>(m: map<string, Item<TaskResult<V>>>, tasks: seq<Task<V>>, mw: Middleware<V>, clock: seq<int>)
    : map<string, Item<TaskResult<V>>>
    requires |clock| == |tasks|
    decreases |tasks|
  {
    if tasks == [] then m
    else
      var n := |tasks| - 1;
      Record(Drain(m, tasks[..n], mw, clock[..n]), tasks[n], mw, clock[n])
  }

  /** Draining the queue adds exactly one entry per task name and removes none. */
  lemma {:induction false} DrainKeys<V>(m: map<string, Item<TaskResult<V>>>, tasks: seq<Task<V>>,
                                        mw: Middleware<V>, clock: seq<int>)
    requires |clock| == |tasks|
    ensures Drain(m, tasks, mw, clock).Keys == m.Keys + Names(tasks)
    decreases |tasks|
  {
    if tasks != [] {
      var n := |tasks| - 1;
      DrainKeys(m, tasks[..n], mw, clock[..n]);
      assert Names(tasks) == Names(tasks[..n]) + {tasks[n].name} by {
        forall x | x in Names(tasks) ensures x in Names(tasks[..n]) + {tasks[n].name} {
          var i :| 0 <= i < |tasks| && tasks[i].name == x;
          if i < n { assert tasks[..n][i] == tasks[i]; }
        }
        forall x | x in Names(tasks[..n]) ensures x in Names(tasks) {
          var i :| 0 <= i < n && tasks[..n][i].name == x;
          assert tasks[i].name == x;
        }
      }
    }
  }

  /** Finishing one more task extends a drain by one `Record`. */
  lemma DrainSnoc<V>(m: map<string, Item<TaskResult<V>>>, tasks: seq<Task<V>>, mw: Middleware<V>,
                     clock: seq<int>, t: Task<V>, now: int)
    requires |clock| == |tasks|
    ensures Drain(m, tasks + [t], mw, clock + [now]) == Record(Drain(m, tasks, mw, clock), t, mw, now)
  {
  }

  /** The index of the last task called `name`, or -1 when there is none. */
  function LastIndex<V>(tasks: seq<Task<V>>, name: string): (i: int)
    ensures -1 <= i < |tasks|
    ensures i >= 0 ==> tasks[i].name == name && forall j :: i < j < |tasks| ==> tasks[j].name != name
    ensures i == -1 ==> forall j :: 0 <= j < |tasks| ==> tasks[j].name != name
    decreases |tasks|
  {
    if tasks == [] then -1
    else if tasks[|tasks| - 1].name == name then |tasks| - 1
    else LastIndex(tasks[..|tasks| - 1], name)
  }

  /** After the worker has finished `tasks`, the entry under each name holds the
      outcome of the LAST task of that name, stored at its completion instant
      with its effective TTL; names no task carries keep their old entry. */
  lemma {:induction false} DrainLastWins<V>(m: map<string, Item<TaskResult<V>>>, tasks: seq<Task<V>>,
                                            mw: Middleware<V>, clock: seq<int>, name: string)
    requires |clock| == |tasks|
    ensures var i := LastIndex(tasks, name);
      if i >= 0 then
        name in Drain(m, tasks, mw, clock) &&
        Drain(m, tasks, mw, clock)[name] == Item(Outcome(mw, tasks[i]), clock[i] + EffectiveTTL(tasks[i].ttl))
      else
        (name in Drain(m, tasks, mw, clock) <==> name in m) &&
        (name in m ==> Drain(m, tasks, mw, clock)[name] == m[name])
    decreases |tasks|
  {
    if tasks != [] {
      var n := |tasks| - 1;
      if tasks[n].name != name {
        DrainLastWins(m, tasks[..n], mw, clock[..n], name);
        var i := LastIndex(tasks, name);
        if i >= 0 {
          assert tasks[..n][i] == tasks[i] && clock[..n][i] == clock[i];
        }
      }
    }
  }

  /** A drained task's result can be read back: the last task called `name`
      is found under `name` at every instant up to its expiry, with its
      job's outcome, including the error when the job failed. */
  lemma ResultVisibleUntilExpiry<V>(m: map<string, Item<TaskResult<V>>>, tasks: seq<Task<V>>,
                                    mw: Middleware<V>, clock: seq<int>, i: int, t: int)
    requires |clock| == |tasks|
    requires 0 <= i < |tasks| && forall j :: i < j < |tasks| ==> tasks[j].name != tasks[i].name
    requires t <= clock[i] + EffectiveTTL(tasks[i].ttl)
    ensures Hit(Drain(m, tasks, mw, clock), tasks[i].name, t)
    ensures Drain(m, tasks, mw, clock)[tasks[i].name].value == Outcome(mw, tasks[i])
    ensures Drain(m, tasks, mw, clock)[tasks[i].name].value.error == mw(tasks[i].job)(tasks[i].originContext).1
  {
    DrainLastWins(m, tasks, mw, clock, tasks[i].name);
  }

  /** What one poll of `Shutdown` sees: the pending count, and whether the
      select picked the caller's context being done. */
  datatype Poll = Poll(count: int, ctxDone: bool)

  /** How `Shutdown` ends after the given polls: it returned, or it is still waiting. */
  datatype Wait = Returned(err: Option<Error>) | Waiting

  const ShutdownTimeout: Error := Error("timeout waiting for worker queue")

  /** None of the first `i` polls made `Shutdown` return. */
  ghost predicate Undecided(polls: seq<Poll>, i: int)
    requires 0 <= i <= |polls|
  {
    forall j :: 0 <= j < i ==> polls[j].count != 0 && !polls[j].ctxDone
  }

  class BackgroundWorker<V(0)> {
    var queue: seq<Task<V>>
    /** The pending counter: incremented by `Enqueue`, decremented when a task finishes. */
    var len: int
    /** The task the consumer loop has dequeued and not yet finished. */
    var current: Option<Task<V>>
    var middleware: Middleware<V>
    const resultCache: Cache<string, TaskResult<V>>

    /** The counter accounts for every queued task plus the one in flight; the
        channel holds at most `MaxQueueSize` tasks. */
    ghost predicate Valid()
      reads this
    {
      && len == |queue| + (if current.Some? then 1 else 0)
      && |queue| <= MaxQueueSize
    }

    /** `New`: an idle worker with an empty queue and the identity middleware. */
    constructor (cache: Cache<string, TaskResult<V>>)
      ensures Valid()
      ensures resultCache == cache
      ensures queue == [] && len == 0 && current == None
      ensures forall job :: middleware(job) == job
    {
      queue := [];
      len := 0;
      current := None;
      middleware := Identity;
      resultCache := cache;
    }

    /** Counts the task as pending, then appends it to the queue. A full queue
        would block the caller; the model requires room. */
    method Enqueue(task: Task<V>)
      requires Valid()
      requires |queue| < MaxQueueSize
      modifies this
      ensures Valid()
      ensures len == old(len) + 1
      ensures queue == old(queue) + [task]
      ensures current == old(current) && middleware == old(middleware)
    {
      len := len + 1;
      queue := queue + [task];
    }

    /** First half of one iteration of `Run`: take the head of the queue. On an
        empty queue the loop waits, which changes nothing. */
    method Begin() returns (started: bool)
      requires Valid() && current == None
      modifies this
      ensures Valid()
      ensures started == (old(queue) != [])
      ensures started ==> current == Some(old(queue)[0]) && queue == old(queue)[1..]
      ensures !started ==> current == None && queue == old(queue)
      ensures len == old(len) && middleware == old(middleware)
    {
      if queue == [] {
        return false;
      }
      current := Some(queue[0]);
      queue := queue[1..];
      started := true;
    }

    /** Second half of one iteration of `Run`: run the job through the current
        middleware, store its value and error under the task's name with the
        effective TTL at `now`, and count the task as done. A job error is
        stored, not propagated. */
    method Finish(now: int)
      requires Valid() && current.Some?
      modifies this, resultCache
      ensures Valid()
      ensures resultCache.items == Record(old(resultCache.items), old(current).value, middleware, now)
      ensures len == old(len) - 1
      ensures current == None && queue == old(queue) && middleware == old(middleware)
    {
      var task := current.value;
      var r := middleware(task.job)(task.originContext);
      var ttl := task.ttl;
      if ttl == 0 {
        ttl := DefaultTTL;
      }
      var _ := resultCache.Set(task.name, TaskResult(r.0, r.1), ttl, now);
      len := len - 1;
      current := None;
    }

    /** One whole iteration of `Run`, finishing at `now`: the head of the queue
        is processed, so tasks complete in enqueue order. */
    method Step(now: int) returns (ran: bool)
      requires Valid() && current == None
      modifies this, resultCache
      ensures Valid() && current == None && middleware == old(middleware)
      ensures ran == (old(queue) != [])
      ensures ran ==> queue == old(queue)[1..] && len == old(len) - 1
      ensures ran ==> resultCache.items == Record(old(resultCache.items), old(queue)[0], middleware, now)
      ensures !ran ==> queue == old(queue) && len == old(len) && resultCache.items == old(resultCache.items)
    {
      ran := Begin();
      if ran {
        Finish(now);
      }
    }

    /** `Run` for as long as tasks are queued, the `i`-th finishing at `clock[i]`:
        afterwards nothing is pending and the cache holds every task's result. */
    method RunUntilIdle(clock: seq<int>)
      requires Valid() && current == None
      requires |clock| == |queue|
      modifies this, resultCache
      ensures Valid() && queue == [] && len == 0 && current == None
      ensures middleware == old(middleware)
      ensures resultCache.items == Drain(old(resultCache.items), old(queue), middleware, clock)
    {
      ghost var tasks, start := queue, resultCache.items;
      var i := 0;
      while queue != []
        invariant Valid() && current == None && middleware == old(middleware)
        invariant 0 <= i <= |tasks| && queue == tasks[i..]
        invariant resultCache.items == Drain(start, tasks[..i], middleware, clock[..i])
        decreases |queue|
      {
        var ran := Step(clock[i]);
        DrainSnoc(start, tasks[..i], middleware, clock[..i], tasks[i], clock[i]);
        assert tasks[..i] + [tasks[i]] == tasks[..i + 1];
        assert clock[..i] + [clock[i]] == clock[..i + 1];
        i := i + 1;
      }
      assert tasks[..i] == tasks && clock[..i] == clock;
    }

    /** `Use`: the new middleware replaces the old one; they do not compose. */
    method Use(m: Middleware<V>)
      modifies this
      ensures middleware == m
      ensures queue == old(queue) && len == old(len) && current == old(current)
    {
      middleware := m;
    }

    /** `Length`: the pending count, i.e. the queued tasks plus the one in flight. */
    method Length() returns (n: int)
      requires Valid()
      ensures n == |queue| + (if current.Some? then 1 else 0)
      ensures n >= 0
    {
      n := len;
    }

    /** `GetResult`: exactly a `Get` on the result cache, lazy eviction included. */
    method GetResult(name: string, now: int) returns (r: TaskResult<V>, found: bool)
      modifies resultCache
      ensures found == Hit(old(resultCache.items), name, now)
      ensures name in old(resultCache.items) ==> r == old(resultCache.items)[name].value
      ensures resultCache.items == AfterGet(old(resultCache.items), name, now)
    {
      r, found := resultCache.Get(name, now);
    }

    /** The decision logic of `Shutdown`, given what each poll of the pending
        count saw: nil at once when nothing is pending; otherwise nil at the
        first poll that sees zero, the timeout error when the context is done
        first, and still waiting when neither happened within `polls`. */
    method Shutdown(polls: seq<Poll>) returns (w: Wait)
      ensures w == Returned(None) <==>
        len <= 0 || exists i :: 0 <= i < |polls| && polls[i].count == 0 && Undecided(polls, i)
      ensures w == Returned(Some(ShutdownTimeout)) <==>
        len > 0 && exists i :: 0 <= i < |polls| && polls[i].count != 0 && polls[i].ctxDone && Undecided(polls, i)
      ensures w == Waiting <==> len > 0 && Undecided(polls, |polls|)
    {
      if len <= 0 {
        return Returned(None);
      }
      var i := 0;
      while i < |polls|
        invariant 0 <= i <= |polls| && Undecided(polls, i)
      {
        if polls[i].count == 0 {
          return Returned(None);
        }
        if polls[i].ctxDone {
          return Returned(Some(ShutdownTimeout));
        }
        i := i + 1;
      }
      return Waiting;
    }
  }
}
