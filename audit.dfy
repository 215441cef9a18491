/**
 * The audit engine: a browser limiter over a shared counter, a worker that
 * drains a FIFO queue of product ids one browser at a time, the per-chunk
 * `AuditWorkers.run`, and `RunAudit`, which splits a product list into
 * contiguous chunks and runs one `AuditWorkers` per chunk.
 *
 * Every caller uses one worker per chunk (`browser_instances=1`), so a
 * chunk's queue has a single consumer and is modelled as a sequential loop.
 * What the browser, the page and the other limiter clients do is an input
 * (`ItemEnv`); the world supplies one per product the worker takes.
 */
module Audit {
  import opened Wrappers
  import opened ResultBuffer
  import opened AuditUtils
  import opened BrowserConfig

  // ---------------------------------------------------------------------
  // BrowserLimiter
  // ---------------------------------------------------------------------

  /** The `browser_count` key, shared by every limiter. */
  class SharedCounter {
    var value: int

    constructor (value: int)
      ensures this.value == value
    {
      this.value := value;
    }
  }

  function Sum(s: seq<int>): int {
    if s == [] then 0 else s[0] + Sum(s[1..])
  }

  lemma {:induction false} SumConcat(a: seq<int>, b: seq<int>)
    ensures Sum(a + b) == Sum(a) + Sum(b)
  {
    if a == [] {
      assert a + b == b;
    } else {
      assert (a + b)[1..] == a[1..] + b;
      SumConcat(a[1..], b);
    }
  }

  /** What a call of `acquire` did: whether it got a slot, the counter after it, and its attempts. */
  datatype Acquisition = Acquisition(acquired: bool, value: int, attempts: nat)

  /**
   * `acquire` on values. Each attempt increments the counter `v`; a count
   * within `max` keeps the increment and returns. A rejected attempt rolls
   * back and sleeps, and during the sleep the other clients change the
   * counter by the next entry of `others`. The source retries forever; the
   * model gives up, not acquired, once `others` is exhausted.
   */
  function AcquireSpec(v: int, others: seq<int>, max: int): (a: Acquisition)
    ensures a.acquired ==> a.value <= max
    ensures 1 <= a.attempts <= |others| + 1
    decreases |others|
  {
    if v + 1 <= max then Acquisition(true, v + 1, 1)
    else if others == [] then Acquisition(false, v, 1)
    else
      var a := AcquireSpec(v + others[0], others[1..], max);
      a.(attempts := a.attempts + 1)
  }

  /**
   * What `acquire` means: it returns after the first attempt whose
   * increment stays within `max`, every earlier attempt having been
   * rejected and rolled back, so the counter then holds its starting value,
   * the others' changes and this client's one slot. Without a slot the
   * counter holds only the others' changes.
   */
  lemma {:induction false} AcquireMeaning(v: int, others: seq<int>, max: int)
    ensures var a := AcquireSpec(v, others, max);
      if a.acquired then
        a.value == v + Sum(others[..a.attempts - 1]) + 1 && a.value <= max
        && forall j :: 0 <= j < a.attempts - 1 ==> v + Sum(others[..j]) + 1 > max
      else
        a.attempts == |others| + 1 && a.value == v + Sum(others)
        && forall j :: 0 <= j <= |others| ==> v + Sum(others[..j]) + 1 > max
    decreases |others|
  {
    if v + 1 > max && others != [] {
      var rest := others[1..];
      AcquireMeaning(v + others[0], rest, max);
      forall j | 1 <= j <= |others|
        ensures Sum(others[..j]) == others[0] + Sum(rest[..j - 1])
      {
        assert others[..j][1..] == rest[..j - 1];
      }
      assert others[..0] == [];
      assert others == others[..|others|];
    } else if v + 1 > max {
      assert others[..0] == [];
    } else {
      assert others[..0] == [];
    }
  }

  class BrowserLimiter {
    const maxBrowsers: int
    const counter: SharedCounter

    constructor (maxBrowsers: int, counter: SharedCounter)
      ensures this.maxBrowsers == maxBrowsers && this.counter == counter
    {
      this.maxBrowsers := maxBrowsers;
      this.counter := counter;
    }

    /** One attempt: keep the increment when it stays within the maximum, otherwise roll it back. */
    method TryAcquire() returns (ok: bool)
      modifies counter
      ensures ok <==> old(counter.value) + 1 <= maxBrowsers
      ensures counter.value == if ok then old(counter.value) + 1 else old(counter.value)
    {
      counter.value := counter.value + 1;
      var count := counter.value;
      if count <= maxBrowsers {
        return true;
      }
      counter.value := counter.value - 1;
      ok := false;
    }

    /** `acquire`: retry one attempt per sleep until a slot is free. */
    method Acquire(others: seq<int>) returns (acquired: bool, attempts: nat)
      modifies counter
      ensures Acquisition(acquired, counter.value, attempts) == AcquireSpec(old(counter.value), others, maxBrowsers)
      ensures acquired ==> counter.value <= maxBrowsers
    {
      ghost var v0 := counter.value;
      var i := 0;
      while true
        invariant 0 <= i <= |others|
        invariant var a := AcquireSpec(counter.value, others[i..], maxBrowsers);
          AcquireSpec(v0, others, maxBrowsers) == a.(attempts := a.attempts + i)
        decreases |others| - i
      {
        var ok := TryAcquire();
        if ok {
          return true, i + 1;
        }
        if i == |others| {
          return false, i + 1;
        }
        // `asyncio.sleep(1)`: meanwhile the other clients move the counter
        assert others[i..][1..] == others[i + 1..];
        counter.value := counter.value + others[i];
        i := i + 1;
      }
    }

    /** `release`: one decrement. */
    method Release()
      modifies counter
      ensures counter.value == old(counter.value) - 1
    {
      counter.value := counter.value - 1;
    }
  }

  // ---------------------------------------------------------------------
  // The queue and one worker
  // ---------------------------------------------------------------------

  /** `asyncio.Queue`: the items still queued and the count of unfinished tasks. */
  class WorkQueue {
    var items: seq<Option<string>>
    var unfinished: int

    constructor ()
      ensures items == [] && unfinished == 0
    {
      items := [];
      unfinished := 0;
    }

    method Put(x: Option<string>)
      modifies this
      ensures items == old(items) + [x] && unfinished == old(unfinished) + 1
    {
      items := items + [x];
      unfinished := unfinished + 1;
    }

    method Get() returns (x: Option<string>)
      requires items != []
      modifies this
      ensures x == old(items)[0] && items == old(items)[1..] && unfinished == old(unfinished)
    {
      x := items[0];
      items := items[1..];
    }

    /** `task_done`; more calls than items raise, so callers must not make them. */
    method TaskDone()
      requires unfinished > 0
      modifies this
      ensures items == old(items) && unfinished == old(unfinished) - 1
    {
      unfinished := unfinished - 1;
    }
  }

  /** The random picks of `create_spoofed_context` always name list entries. */
  type SpoofPicks = p: Picks | ValidPicks(p) witness Picks(0, 0, 0, 0, 0)

  /** What happens while the worker handles one product. */
  datatype ItemEnv = ItemEnv(
    waits: seq<int>,                  // other limiter clients' changes during each sleep of `acquire`
    startFailure: Option<StartStep>,  // the step of `BrowserManager.start` that raises, if any
    picks: SpoofPicks,                // the spoofed context settings
    nav: NavScenario)                 // what `_navigate` meets

  /** `{"asin": product, "status": "no_data"}` */
  function NoData(product: string): Dict {
    map["asin" := Str(product), "status" := Str("no_data")]
  }

  /** The dict the worker hands to `add_result`: the navigate result when it is a dict, else the no-data record. */
  function ItemResult(product: string, env: ItemEnv): (d: Dict)
    ensures "asin" in d
  {
    match NavigateResult(product, env.nav)
    case Some(d) => d
    case None => NoData(product)
  }

  /** The worker's constants: what its saver writes under and the limiter's maximum. */
  datatype Config = Config(productList: int, user: int, batchSize: int, maxBrowsers: int)

  /** The state one worker changes: its saver, the shared counter and its queue. */
  datatype WState = WState(saver: SaverState, counter: int, items: seq<Option<string>>, unfinished: int)

  /** How the handling of one product ends. */
  datatype Fate = Completed | StartFailed | NeverAcquired

  function ItemFate(counter: int, env: ItemEnv, max: int): Fate {
    if !AcquireSpec(counter, env.waits, max).acquired then NeverAcquired
    else if env.startFailure.Some? then StartFailed
    else Completed
  }

  /**
   * One pass of the worker's loop body on a product already taken from the
   * queue: acquire; start a browser; navigate; add one row; and in
   * `finally` release the slot and mark the task done. A start that
   * raises still runs the `finally`; an acquire that never succeeds never
   * enters the `try`.
   */
  function StepState(st: WState, product: string, env: ItemEnv, cfg: Config): (r: WState)
    ensures r.items == st.items
  {
    var a := AcquireSpec(st.counter, env.waits, cfg.maxBrowsers);
    if !a.acquired then st.(counter := a.value)
    else if env.startFailure.Some? then st.(counter := a.value - 1, unfinished := st.unfinished - 1)
    else
      var row := ToRow(cfg.productList, cfg.user, ItemResult(product, env));
      st.(saver := AddStep(st.saver, row, cfg.batchSize), counter := a.value - 1, unfinished := st.unfinished - 1)
  }

  /** Why the worker stopped: the sentinel, an empty queue, an exception, or a slot that never came. */
  datatype Stop = Exited | Starved | Crashed | Blocked

  datatype WorkerRun = WorkerRun(final: WState, stop: Stop, processed: nat)

  /**
   * The worker loop on values. `world(k)` is what happens to the k-th
   * product this worker handles.
   */
  function WorkerSpec(st: WState, world: nat -> ItemEnv, k: nat, cfg: Config): WorkerRun
    decreases |st.items|
  {
    if st.items == [] then WorkerRun(st, Starved, 0)
    else
      var st1 := st.(items := st.items[1..]);
      match st.items[0]
      case None => WorkerRun(st1.(unfinished := st1.unfinished - 1), Exited, 0)
      case Some(product) =>
        var st2 := StepState(st1, product, world(k), cfg);
        match ItemFate(st1.counter, world(k), cfg.maxBrowsers)
        case NeverAcquired => WorkerRun(st2, Blocked, 0)
        case StartFailed => WorkerRun(st2, Crashed, 0)
        case Completed =>
          var r := WorkerSpec(st2, world, k + 1, cfg);
          r.(processed := r.processed + 1)
  }

  /** The run from `st`, whose first product is the worker's k-th, ends as `target` does, after `k` products already counted. */
  ghost predicate Resumes(st: WState, world: nat -> ItemEnv, k: nat, cfg: Config, target: WorkerRun) {
    var r := WorkerSpec(st, world, k, cfg);
    r.final == target.final && r.stop == target.stop && r.processed + k == target.processed
  }

  /**
   * What one turn does to a run in progress: at an empty queue, the
   * sentinel, or a product that is not completed the run ends here; after a
   * completed product it resumes one count further.
   */
  lemma ResumesTurn(st: WState, world: nat -> ItemEnv, k: nat, cfg: Config, target: WorkerRun)
    requires Resumes(st, world, k, cfg, target)
    ensures st.items == [] ==> st == target.final && target.stop == Starved && k == target.processed
    ensures st.items != [] && st.items[0].None? ==>
      st.(items := st.items[1..], unfinished := st.unfinished - 1) == target.final && target.stop == Exited && k == target.processed
    ensures st.items != [] && st.items[0].Some? ==>
      var st2 := StepState(st.(items := st.items[1..]), st.items[0].value, world(k), cfg);
      match ItemFate(st.counter, world(k), cfg.maxBrowsers)
      case NeverAcquired => st2 == target.final && target.stop == Blocked && k == target.processed
      case StartFailed => st2 == target.final && target.stop == Crashed && k == target.processed
      case Completed => Resumes(st2, world, k + 1, cfg, target)
  { }

  /** The worker only waits on an empty queue. */
  lemma {:induction false} StarvedEmpty(st: WState, world: nat -> ItemEnv, k: nat, cfg: Config)
    ensures WorkerSpec(st, world, k, cfg).stop == Starved ==> WorkerSpec(st, world, k, cfg).final.items == []
    decreases |st.items|
  {
    if st.items != [] && st.items[0].Some? {
      var st2 := StepState(st.(items := st.items[1..]), st.items[0].value, world(k), cfg);
      StarvedEmpty(st2, world, k + 1, cfg);
    }
  }

  /** The products of a queue filled in order. */
  function Pending(products: seq<string>): (q: seq<Option<string>>)
    ensures |q| == |products| && forall i :: 0 <= i < |q| ==> q[i] == Some(products[i])
  {
    seq(|products|, i requires 0 <= i < |products| => Some(products[i]))
  }

  /** The rows the worker adds for `products` when every one completes. */
  function Rows(products: seq<string>, world: nat -> ItemEnv, k: nat, cfg: Config): seq<Row>
    decreases |products|
  {
    if products == [] then []
    else [ToRow(cfg.productList, cfg.user, ItemResult(products[0], world(k)))] + Rows(products[1..], world, k + 1, cfg)
  }

  /** No other limiter client interferes and every browser starts. */
  predicate Benign(world: nat -> ItemEnv, k: nat, n: nat) {
    forall i :: k <= i < k + n ==> world(i).waits == [] && world(i).startFailure.None?
  }

  /**
   * With a free slot and a benign world, the worker handles every queued
   * product in order, adds exactly one row for each, gives every slot
   * back, marks every task done and then waits on the empty queue.
   */
  lemma {:induction false} WorkerDrainsQueue(st: WState, products: seq<string>, world: nat -> ItemEnv, k: nat, cfg: Config)
    requires st.items == Pending(products) && st.counter + 1 <= cfg.maxBrowsers
    requires Benign(world, k, |products|)
    ensures WorkerSpec(st, world, k, cfg) ==
      WorkerRun(WState(AddAll(st.saver, Rows(products, world, k, cfg), cfg.batchSize), st.counter, [], st.unfinished - |products|),
                Starved, |products|)
    decreases |products|
  {
    if products != [] {
      var rest := products[1..];
      assert st.items[1..] == Pending(rest);
      assert k <= k < k + |products|;
      var st1 := st.(items := st.items[1..]);
      var st2 := StepState(st1, products[0], world(k), cfg);
      assert Benign(world, k + 1, |rest|) by {
        forall i | k + 1 <= i < k + 1 + |rest|
          ensures world(i).waits == [] && world(i).startFailure.None?
        {
          assert k <= i < k + |products|;
        }
      }
      WorkerDrainsQueue(st2, rest, world, k + 1, cfg);
    }
  }

  /**
   * A browser that fails to start ends the only worker of the chunk while
   * later products are still queued and unfinished, so `queue.join()`
   * can never return.
   */
  lemma WorkerCrashLeavesWork(st: WState, products: seq<string>, world: nat -> ItemEnv, cfg: Config)
    requires st.items == Pending(products) && |products| >= 2 && st.unfinished == |products|
    requires st.counter + 1 <= cfg.maxBrowsers && world(0).startFailure.Some?
    ensures var r := WorkerSpec(st, world, 0, cfg);
      r.stop == Crashed && r.processed == 0 && r.final.unfinished == |products| - 1 > 0
      && r.final.items == Pending(products[1..])
  {
    assert st.items[1..] == Pending(products[1..]);
  }

  /**
   * A chunk in a benign world: `run` finishes, every product is counted,
   * the limiter's counter is back where it was, and the table ends as one
   * upsert of the saver's earlier buffer and one row per product, in order.
   */
  lemma ChunkRunCompletes(s: SaverState, counter: int, products: seq<string>, world: nat -> ItemEnv, cfg: Config)
    requires counter + 1 <= cfg.maxBrowsers && Benign(world, 0, |products|)
    ensures var r := WorkerSpec(WState(s, counter, Pending(products), |products|), world, 0, cfg);
      r.stop == Starved && r.final.unfinished == 0 && r.processed == |products| && r.final.counter == counter
      && FlushState(r.final.saver).table == UpsertAll(s.table, s.buffer + Rows(products, world, 0, cfg))
  {
    WorkerDrainsQueue(WState(s, counter, Pending(products), |products|), products, world, 0, cfg);
    BatchingTransparent(s, Rows(products, world, 0, cfg), cfg.batchSize);
  }

  // ---------------------------------------------------------------------
  // AuditWorkers
  // ---------------------------------------------------------------------

  /** `{"status": "success", "processed_count": n}`, or a run that never gets past `queue.join()`. */
  datatype RunOutcome = Finished(processedCount: nat) | Hung

  /** A progress record after `n` more increments. */
  function Bumped(r: Option<Progress>, n: int): Option<Progress> {
    if r.Some? then Some(r.value.(count := r.value.count + n)) else None
  }

  lemma BumpedTwice(r: Option<Progress>, m: int, n: int)
    ensures Bumped(Bumped(r, m), n) == Bumped(r, m + n)
  { }

  /** A progress record after `set_status("done")`. */
  function Done(r: Option<Progress>): Option<Progress> {
    if r.Some? then Some(r.value.(status := "done")) else None
  }

  class AuditWorkers {
    const products: seq<string>
    const saver: ResultSaver
    const limiter: BrowserLimiter
    const redis: Redis
    /** `TaskProgress(task_id) if task_id else None` */
    const progress: TaskProgress?

    ghost predicate Valid()
      reads this, saver, saver.table, redis
    {
      saver.Valid() && redis.Typed() && (progress != null ==> progress.redis == redis)
    }

    function Cfg(): Config {
      Config(saver.productList, saver.user, saver.batchSize, limiter.maxBrowsers)
    }

    ghost function St(queue: WorkQueue): WState
      reads saver, saver.table, limiter.counter, queue
    {
      WState(saver.State(), limiter.counter.value, queue.items, queue.unfinished)
    }

    /** The task's progress record, when the task is tracked. */
    ghost function Report(): Option<Progress>
      reads redis
    {
      if progress == null then None else Some(ProgressOf(redis.strings, progress.taskId))
    }

    constructor (products: seq<string>, productList: int, user: int, taskId: string, batchSize: int,
                 maxBrowsers: int, table: ProductTable, counter: SharedCounter, redis: Redis)
      requires 1 <= batchSize && table.Valid() && redis.Typed()
      ensures Valid() && fresh(saver) && fresh(limiter) && saver.buffer == []
      ensures this.products == products && this.redis == redis
      ensures saver.table == table && limiter.counter == counter
      ensures Cfg() == Config(productList, user, batchSize, maxBrowsers)
      ensures (progress != null) == (taskId != "") && (progress != null ==> progress.taskId == taskId)
    {
      this.products := products;
      saver := new ResultSaver(productList, user, batchSize, table);
      limiter := new BrowserLimiter(maxBrowsers, counter);
      this.redis := redis;
      if taskId != "" {
        progress := new TaskProgress(taskId, redis);
      } else {
        progress := null;
      }
    }

    /** The `try` block's browser work: start a browser, open the product page, and close the browser. */
    method Visit(product: string, env: ItemEnv) returns (started: bool, result: Option<Dict>)
      ensures started == env.startFailure.None?
      ensures started ==> result == NavigateResult(product, env.nav)
    {
      var browser := new BrowserManager(BrowserConfig.DefaultHeadless);
      var launch := browser.Start(env.startFailure, env.picks);
      started := launch.Some?;
      if started {
        var pages := new AmazonPageManager(launch.value.0, launch.value.1);
        result := pages.Navigate(product, env.nav);
      } else {
        result := None;
      }
      // `finally`
      browser.Close();
    }

    /** `if self.task_progress: self.task_progress.increment()` */
    method Count()
      requires Valid()
      modifies redis
      ensures Valid() && Report() == Bumped(old(Report()), 1)
      ensures redis.sets == old(redis.sets)
      ensures progress == null ==> redis.strings == old(redis.strings)
    {
      if progress != null {
        progress.Increment(1);
      }
    }

    /** The body of `worker` for one product taken from the queue. */
    method HandleItem(queue: WorkQueue, product: string, env: ItemEnv) returns (fate: Fate)
      requires Valid() && queue.unfinished > |queue.items|
      modifies saver, saver.table, limiter.counter, redis, queue
      ensures Valid() && queue.unfinished >= |queue.items|
      ensures fate == ItemFate(old(limiter.counter.value), env, limiter.maxBrowsers)
      ensures St(queue) == StepState(old(St(queue)), product, env, Cfg())
      ensures Report() == Bumped(old(Report()), if fate.Completed? then 1 else 0)
      ensures redis.sets == old(redis.sets)
      ensures progress == null ==> redis.strings == old(redis.strings)
    {
      ghost var s := St(queue);
      var acquired, _ := limiter.Acquire(env.waits);
      ghost var a := AcquireSpec(s.counter, env.waits, limiter.maxBrowsers);
      assert acquired == a.acquired && limiter.counter.value == a.value;
      if !acquired {
        assert St(queue) == s.(counter := a.value);
        return NeverAcquired;
      }
      var started, result := Visit(product, env);
      if !started {
        // the exception leaves `worker` after the `finally`
        limiter.Release();
        queue.TaskDone();
        assert St(queue) == s.(counter := a.value - 1, unfinished := s.unfinished - 1);
        return StartFailed;
      }
      var record := if result.Some? then result.value else NoData(product);
      assert record == ItemResult(product, env);
      Record(queue, record);
      fate := Completed;
    }

    /** A browser that started: add its row, count the product, give the slot back and mark the task done. */
    method Record(queue: WorkQueue, record: Dict)
      requires Valid() && queue.unfinished > |queue.items| && "asin" in record
      modifies saver, saver.table, limiter.counter, redis, queue
      ensures Valid() && queue.unfinished >= |queue.items|
      ensures var s := old(St(queue));
        St(queue) == s.(saver := AddStep(s.saver, ToRow(saver.productList, saver.user, record), saver.batchSize),
                        counter := s.counter - 1, unfinished := s.unfinished - 1)
      ensures Report() == Bumped(old(Report()), 1)
      ensures redis.sets == old(redis.sets)
      ensures progress == null ==> redis.strings == old(redis.strings)
    {
      saver.AddResult(record);
      ghost var saved := saver.State();
      Count();
      limiter.Release();
      queue.TaskDone();
      assert saver.State() == saved;
    }

    /**
     * One turn of `worker`'s loop: take an item and handle it. `None` means
     * the loop goes on; otherwise the worker stops for the reason given.
     * `target` is the whole run and `k` the products counted before this
     * turn; `rep0` is the progress record the run began with.
     */
    method Turn(queue: WorkQueue, world: nat -> ItemEnv, k: nat, ghost target: WorkerRun, ghost rep0: Option<Progress>)
      returns (stop: Option<Stop>)
      requires Valid() && queue.unfinished >= |queue.items|
      requires Resumes(St(queue), world, k, Cfg(), target) && Report() == Bumped(rep0, k)
      modifies saver, saver.table, limiter.counter, redis, queue
      ensures Valid() && queue.unfinished >= |queue.items|
      ensures stop.None? ==> (|queue.items| < |old(queue.items)|
        && Resumes(St(queue), world, k + 1, Cfg(), target) && Report() == Bumped(rep0, k + 1))
      ensures stop.Some? ==> (St(queue) == target.final && stop.value == target.stop && k == target.processed
        && Report() == Bumped(rep0, k))
      ensures redis.sets == old(redis.sets)
      ensures progress == null ==> redis.strings == old(redis.strings)
    {
      ResumesTurn(St(queue), world, k, Cfg(), target);
      if queue.items == [] {
        // `await queue.get()` waits for an item that only the caller can put
        return Some(Starved);
      }
      ghost var s := St(queue);
      ghost var s1 := s.(items := s.items[1..]);
      var item := queue.Get();
      assert St(queue) == s1;
      if item.None? {
        queue.TaskDone();
        return Some(Exited);
      }
      stop := Proceed(queue, item.value, world, k, target, rep0, s);
    }

    /** The rest of a turn once a product `s` queued first has been taken. */
    method Proceed(queue: WorkQueue, product: string, world: nat -> ItemEnv, k: nat,
                   ghost target: WorkerRun, ghost rep0: Option<Progress>, ghost s: WState)
      returns (stop: Option<Stop>)
      requires Valid() && queue.unfinished > |queue.items|
      requires s.items != [] && s.items[0] == Some(product) && St(queue) == s.(items := s.items[1..])
      requires Resumes(s, world, k, Cfg(), target) && Report() == Bumped(rep0, k)
      modifies saver, saver.table, limiter.counter, redis, queue
      ensures Valid() && queue.unfinished >= |queue.items| && queue.items == old(queue.items)
      ensures stop.None? ==> (Resumes(St(queue), world, k + 1, Cfg(), target) && Report() == Bumped(rep0, k + 1))
      ensures stop.Some? ==> (St(queue) == target.final && stop.value == target.stop && k == target.processed
        && Report() == Bumped(rep0, k))
      ensures redis.sets == old(redis.sets)
      ensures progress == null ==> redis.strings == old(redis.strings)
    {
      ResumesTurn(s, world, k, Cfg(), target);
      var fate := HandleItem(queue, product, world(k));
      if fate == NeverAcquired {
        return Some(Blocked);
      } else if fate == StartFailed {
        return Some(Crashed);
      }
      BumpedTwice(rep0, k, 1);
      stop := None;
    }

    /** `worker`: take products until the sentinel, an empty queue, or an exception. */
    method Worker(queue: WorkQueue, world: nat -> ItemEnv) returns (stop: Stop, processed: nat)
      requires Valid() && queue.unfinished >= |queue.items|
      modifies saver, saver.table, limiter.counter, redis, queue
      ensures Valid() && queue.unfinished >= |queue.items|
      ensures var r := WorkerSpec(old(St(queue)), world, 0, Cfg());
        St(queue) == r.final && stop == r.stop && processed == r.processed
      ensures Report() == Bumped(old(Report()), processed)
      ensures redis.sets == old(redis.sets)
      ensures progress == null ==> redis.strings == old(redis.strings)
    {
      ghost var target := WorkerSpec(St(queue), world, 0, Cfg());
      ghost var rep0 := Report();
      processed := 0;
      while true
        invariant Valid() && queue.unfinished >= |queue.items|
        invariant Resumes(St(queue), world, processed, Cfg(), target) && Report() == Bumped(rep0, processed)
        invariant redis.sets == old(redis.sets)
        invariant progress == null ==> redis.strings == old(redis.strings)
        decreases |queue.items|
      {
        var turn := Turn(queue, world, processed, target, rep0);
        if turn.Some? {
          return turn.value, processed;
        }
        processed := processed + 1;
      }
    }

    /** The state `run` starts its worker on: the saver, the shared counter, and every product queued and unfinished. */
    ghost function Start(saver0: SaverState, counter0: int): WState {
      WState(saver0, counter0, Pending(products), |products|)
    }

    /** `for product in self.products: await queue.put(product)` on a fresh queue. */
    method Enqueue() returns (queue: WorkQueue)
      ensures fresh(queue) && queue.items == Pending(products) && queue.unfinished == |products|
    {
      queue := new WorkQueue();
      var i := 0;
      while i < |products|
        invariant 0 <= i <= |products|
        invariant queue.items == Pending(products[..i]) && queue.unfinished == i
      {
        assert Pending(products[..i + 1]) == Pending(products[..i]) + [Some(products[i])];
        queue.Put(Some(products[i]));
        i := i + 1;
      }
      assert products[..i] == products;
    }

    /**
     * What follows the worker: while a task is unfinished `queue.join()`
     * never returns; otherwise the sentinel is queued (a worker still
     * waiting takes it and exits), the saver is flushed and the task is
     * marked done.
     */
    method Finish(queue: WorkQueue, stop: Stop, world: nat -> ItemEnv) returns (outcome: RunOutcome)
      requires Valid() && queue.unfinished >= |queue.items|
      requires stop == Starved ==> queue.items == []
      modifies saver, saver.table, limiter.counter, redis, queue
      ensures Valid()
      ensures outcome == if old(queue.unfinished) == 0 then Finished(|products|) else Hung
      ensures limiter.counter.value == old(limiter.counter.value)
      ensures saver.State() == if outcome.Finished? then FlushState(old(saver.State())) else old(saver.State())
      ensures Report() == if outcome.Finished? then Done(old(Report())) else old(Report())
      ensures outcome.Finished? && progress != null ==>
        redis.Members(ActiveTasks) == old(redis.Members(ActiveTasks)) - {progress.taskId}
      ensures outcome.Hung? ==> redis.sets == old(redis.sets)
      ensures progress == null ==> redis.strings == old(redis.strings)
    {
      if queue.unfinished != 0 {
        // `await queue.join()` never returns
        return Hung;
      }
      queue.Put(None);
      if stop == Starved {
        // the waiting worker takes the sentinel and exits
        ghost var s := St(queue);
        assert WorkerSpec(s, world, 0, Cfg()) == WorkerRun(s.(items := [], unfinished := 0), Exited, 0);
        BumpedTwice(Report(), 0, 0);
        var _, _ := Worker(queue, world);
      }
      saver.Flush();
      if progress != null {
        progress.SetStatus("done");
      }
      outcome := Finished(|products|);
    }

    /**
     * `run` after its prologue: queue every product, let the worker drain
     * the queue, and once `queue.join()` returns, stop the worker with the
     * sentinel, flush the saver and mark the task done. While a task is
     * still unfinished the join never returns.
     */
    method Drain(world: nat -> ItemEnv) returns (outcome: RunOutcome, processed: nat)
      requires Valid()
      modifies saver, saver.table, limiter.counter, redis
      ensures Valid()
      ensures var r := WorkerSpec(Start(old(saver.State()), old(limiter.counter.value)), world, 0, Cfg());
        processed == r.processed && limiter.counter.value == r.final.counter
        && outcome == (if r.final.unfinished == 0 then Finished(|products|) else Hung)
        && saver.State() == (if outcome.Finished? then FlushState(r.final.saver) else r.final.saver)
      ensures Report() == if outcome.Finished? then Done(Bumped(old(Report()), processed)) else Bumped(old(Report()), processed)
      ensures outcome.Finished? && progress != null ==>
        redis.Members(ActiveTasks) == old(redis.Members(ActiveTasks)) - {progress.taskId}
      ensures outcome.Hung? ==> redis.sets == old(redis.sets)
      ensures progress == null ==> redis.strings == old(redis.strings)
    {
      var queue := Enqueue();
      ghost var s0 := St(queue);
      var stop;
      stop, processed := Worker(queue, world);
      StarvedEmpty(s0, world, 0, Cfg());
      outcome := Finish(queue, stop, world);
    }

    /** `run`: `init_task` with the chunk's length, then the queue is drained. */
    method Run(world: nat -> ItemEnv) returns (outcome: RunOutcome, processed: nat)
      requires Valid()
      modifies saver, saver.table, limiter.counter, redis
      ensures Valid()
      ensures var r := WorkerSpec(Start(old(saver.State()), old(limiter.counter.value)), world, 0, Cfg());
        processed == r.processed && limiter.counter.value == r.final.counter
        && outcome == (if r.final.unfinished == 0 then Finished(|products|) else Hung)
        && saver.State() == (if outcome.Finished? then FlushState(r.final.saver) else r.final.saver)
      ensures progress != null ==> (Report() ==
        Some(Progress(progress.taskId, processed, |products|, if outcome.Finished? then "done" else "running", Some(saver.user))))
      ensures progress == null ==> redis.strings == old(redis.strings)
    {
      if progress != null {
        progress.InitTask(|products|, saver.user);
      }
      outcome, processed := Drain(world);
    }
  }

  // ---------------------------------------------------------------------
  // RunAudit
  // ---------------------------------------------------------------------

  /** A product of the list: its id and its last audit status (NULL when never audited). */
  datatype ProductRecord = ProductRecord(productId: string, status: Option<string>)

  /** The statuses a re-audit skips, spelled as the source spells them. */
  const ReauditSkipped: seq<string> := ["Live", "Suppressed", "Suppressed Asin Chnaged"]

  /** `exclude(status__in=...)`: a NULL status is never excluded. */
  predicate Reaudited(p: ProductRecord, skipped: seq<string>) {
    !(p.status.Some? && p.status.value in skipped)
  }

  function ProductIds(records: seq<ProductRecord>): (ids: seq<string>)
    ensures |ids| == |records| && forall i :: 0 <= i < |records| ==> ids[i] == records[i].productId
  {
    seq(|records|, i requires 0 <= i < |records| => records[i].productId)
  }

  /** The ids of the records kept by a re-audit that skips `skipped`, in list order. */
  function Filtered(records: seq<ProductRecord>, skipped: seq<string>): seq<string>
    decreases |records|
  {
    if records == [] then []
    else (if Reaudited(records[0], skipped) then [records[0].productId] else []) + Filtered(records[1..], skipped)
  }

  /** `get_product_infos`: every product id, or on a re-audit those not yet settled. */
  function GetProductInfos(records: seq<ProductRecord>, reaudit: bool): seq<string> {
    if reaudit then Filtered(records, ReauditSkipped) else ProductIds(records)
  }

  /** The filter keeps list order: it works record by record. */
  lemma {:induction false} FilteredAppend(a: seq<ProductRecord>, b: seq<ProductRecord>, skipped: seq<string>)
    ensures Filtered(a + b, skipped) == Filtered(a, skipped) + Filtered(b, skipped)
    decreases |a|
  {
    if a == [] {
      assert a + b == b;
    } else {
      assert (a + b)[1..] == a[1..] + b;
      FilteredAppend(a[1..], b, skipped);
    }
  }

  /** An id is re-audited exactly when some record carries it with a status that is not skipped. */
  lemma {:induction false} FilteredMembers(records: seq<ProductRecord>, skipped: seq<string>, id: string)
    ensures id in Filtered(records, skipped) <==>
      exists i :: 0 <= i < |records| && records[i].productId == id && Reaudited(records[i], skipped)
    decreases |records|
  {
    if records != [] {
      FilteredMembers(records[1..], skipped, id);
      if exists i :: 0 <= i < |records| && records[i].productId == id && Reaudited(records[i], skipped) {
        var i :| 0 <= i < |records| && records[i].productId == id && Reaudited(records[i], skipped);
        if i > 0 {
          assert records[1..][i - 1] == records[i];
        }
      }
      if exists i :: 0 <= i < |records| - 1 && records[1..][i].productId == id && Reaudited(records[1..][i], skipped) {
        var i :| 0 <= i < |records| - 1 && records[1..][i].productId == id && Reaudited(records[1..][i], skipped);
        assert records[i + 1] == records[1..][i];
      }
    }
  }

  /**
   * The checker labels a product whose page now shows another ASIN
   * "Suppressed Asin Changed"; the misspelt entry of `ReauditSkipped`
   * does not match it, so such a product is audited again.
   */
  lemma AsinChangedIsReaudited(id: string)
    ensures GetProductInfos([ProductRecord(id, Some("Suppressed Asin Changed"))], true) == [id]
  {
    var t := "Suppressed Asin Changed";
    assert t[18] != ReauditSkipped[2][18];
    assert t !in ReauditSkipped;
    var r := ProductRecord(id, Some(t));
    assert Reaudited(r, ReauditSkipped);
    assert [r][1..] == [];
    assert Filtered([r], ReauditSkipped) == [id] + Filtered([], ReauditSkipped);
  }

  /** The re-audit filter as evidently intended, with the checker's own spelling. */
  const ReauditSkippedIntended: seq<string> := ["Live", "Suppressed", "Suppressed Asin Changed"]

  function GetProductInfosIntended(records: seq<ProductRecord>, reaudit: bool): seq<string> {
    if reaudit then Filtered(records, ReauditSkippedIntended) else ProductIds(records)
  }

  /** Intended: a re-audit skips every product the checker left Live, Suppressed or Suppressed Asin Changed, and keeps the rest. */
  lemma IntendedReauditSkipsSettled(records: seq<ProductRecord>, id: string)
    ensures id in GetProductInfosIntended(records, true) <==>
      exists i :: 0 <= i < |records| && records[i].productId == id &&
        !(records[i].status == Some("Live") || records[i].status == Some("Suppressed") || records[i].status == Some("Suppressed Asin Changed"))
  {
    FilteredMembers(records, ReauditSkippedIntended, id);
    forall p: ProductRecord
      ensures Reaudited(p, ReauditSkippedIntended) <==>
        !(p.status == Some("Live") || p.status == Some("Suppressed") || p.status == Some("Suppressed Asin Changed"))
    {
    }
  }

  /** `math.ceil(total_products / max_browsers)`: the least size whose `max_browsers` chunks hold them all. */
  function ChunkSize(n: nat, maxBrowsers: int): (size: nat)
    requires maxBrowsers >= 1
    ensures size * maxBrowsers >= n
    ensures n > 0 ==> size >= 1 && (size - 1) * maxBrowsers < n
  {
    var q := (n + maxBrowsers - 1) / maxBrowsers;
    assert q * maxBrowsers + (n + maxBrowsers - 1) % maxBrowsers == n + maxBrowsers - 1;
    q
  }

  /** `[ids[i:i + size] for i in range(0, len(ids), size)]` */
  function Chunks(ids: seq<string>, size: nat): (cs: seq<seq<string>>)
    requires size >= 1
    ensures forall i :: 0 <= i < |cs| ==> 1 <= |cs[i]| <= size
    ensures forall i :: 0 <= i < |cs| - 1 ==> |cs[i]| == size
    ensures ids != [] <==> cs != []
    decreases |ids|
  {
    if ids == [] then []
    else if |ids| <= size then [ids]
    else [ids[..size]] + Chunks(ids[size..], size)
  }

  function Flatten(cs: seq<seq<string>>): seq<string> {
    if cs == [] then [] else cs[0] + Flatten(cs[1..])
  }

  /** The chunks are contiguous: laid end to end they give back the list. */
  lemma {:induction false} ChunksFlatten(ids: seq<string>, size: nat)
    requires size >= 1
    ensures Flatten(Chunks(ids, size)) == ids
    decreases |ids|
  {
    if ids != [] && |ids| > size {
      ChunksFlatten(ids[size..], size);
      assert ids[..size] + ids[size..] == ids;
    } else if ids != [] {
      assert [ids][1..] == [];
    }
  }

  /** A list no longer than `m` chunks' worth makes at most `m` chunks. */
  lemma {:induction false} ChunksCount(ids: seq<string>, size: nat, m: nat)
    requires size >= 1 && |ids| <= m * size
    ensures |Chunks(ids, size)| <= m
    decreases |ids|
  {
    if ids != [] && |ids| > size {
      assert m >= 1;
      assert |ids[size..]| <= (m - 1) * size;
      ChunksCount(ids[size..], size, m - 1);
    } else if ids != [] {
      assert m >= 1;
    }
  }

  /** `run` splits a non-empty list into at most `max_browsers` chunks of at most `chunk_size` products. */
  lemma RunChunks(ids: seq<string>, maxBrowsers: int)
    requires maxBrowsers >= 1 && ids != []
    ensures var size := ChunkSize(|ids|, maxBrowsers); var cs := Chunks(ids, size);
      1 <= |cs| <= maxBrowsers && Flatten(cs) == ids && forall i :: 0 <= i < |cs| ==> 1 <= |cs[i]| <= size
  {
    var size := ChunkSize(|ids|, maxBrowsers);
    ChunksCount(ids, size, maxBrowsers);
    ChunksFlatten(ids, size);
  }

  /** Eleven products and five browsers: chunks of 3, 3, 3 and 2. */
  lemma ElevenProductsFiveBrowsers(ids: seq<string>)
    requires |ids| == 11
    ensures ChunkSize(11, 5) == 3
    ensures var cs := Chunks(ids, 3); |cs| == 4 && |cs[3]| == 2
  {
    var c1 := ids[3..];
    var c2 := c1[3..];
    var c3 := c2[3..];
    assert Chunks(c3, 3) == [c3];
    assert Chunks(c2, 3) == [c2[..3]] + [c3];
    assert Chunks(c1, 3) == [c1[..3]] + ([c2[..3]] + [c3]);
  }

  /**
   * Where draining the chunks has got to: the table, the shared counter,
   * the products handled so far, whether some chunk hung, and whether some
   * chunk finished (and so marked the task done).
   */
  datatype ChunksRun = ChunksRun(table: map<Key, Row>, counter: int, processed: nat, hung: bool, anyDone: bool)

  /**
   * One chunk's `run` after its prologue, on values: a fresh saver over
   * `table` and a worker on an untouched queue. A queue that never empties
   * leaves the saver unflushed and the chunk hung; otherwise the buffer is
   * flushed and the chunk is done. `processed` counts this chunk only.
   */
  function AfterChunk(chunk: seq<string>, table: map<Key, Row>, counter: int, world: nat -> ItemEnv, cfg: Config): (c: ChunksRun)
    ensures c.hung == !c.anyDone
  {
    var r := WorkerSpec(WState(SaverState([], table), counter, Pending(chunk), |chunk|), world, 0, cfg);
    if r.final.unfinished != 0 then ChunksRun(r.final.saver.table, r.final.counter, r.processed, true, false)
    else ChunksRun(FlushState(r.final.saver).table, r.final.counter, r.processed, false, true)
  }

  /** `acc` after chunk `i`'s run ended as `c`: the chunk's table and counter, its products counted, its hang or finish noted. */
  function Absorb(acc: ChunksRun, c: ChunksRun): (next: ChunksRun)
    ensures next.hung <==> acc.hung || c.hung
    ensures next.anyDone <==> acc.anyDone || c.anyDone
    ensures next.processed == acc.processed + c.processed
  {
    ChunksRun(c.table, c.counter, acc.processed + c.processed, acc.hung || c.hung, acc.anyDone || c.anyDone)
  }

  /**
   * The chunks from `i` on, drained one after another on values: each
   * chunk starts from the table and counter the previous one left. Under
   * `gather` a chunk that hangs on its `join` does not stop the others, so
   * the drain goes on past it. `world(i)` is what chunk `i` meets.
   */
  function DrainSpec(chunks: seq<seq<string>>, i: nat, acc: ChunksRun, world: nat -> nat -> ItemEnv, cfg: Config): ChunksRun
    decreases |chunks| - i
  {
    if i >= |chunks| then acc
    else DrainSpec(chunks, i + 1, Absorb(acc, AfterChunk(chunks[i], acc.table, acc.counter, world(i), cfg)), world, cfg)
  }

  /**
   * The drain from chunk `i` ends as `spec` does exactly when the drain
   * from chunk `i + 1`, after chunk `i` is absorbed, ends so: a hung chunk
   * hands its table and counter on like a finished one.
   */
  lemma DrainSpecAdvance(chunks: seq<seq<string>>, i: nat, acc: ChunksRun, world: nat -> nat -> ItemEnv, cfg: Config, spec: ChunksRun)
    requires i < |chunks|
    ensures DrainSpec(chunks, i, acc, world, cfg) == spec <==>
      DrainSpec(chunks, i + 1, Absorb(acc, AfterChunk(chunks[i], acc.table, acc.counter, world(i), cfg)), world, cfg) == spec
  { }

  /** Once a chunk has hung, or one has finished, the drain's end says so. */
  lemma {:induction false} DrainSpecKeepsFlags(chunks: seq<seq<string>>, i: nat, acc: ChunksRun, world: nat -> nat -> ItemEnv, cfg: Config)
    ensures acc.hung ==> DrainSpec(chunks, i, acc, world, cfg).hung
    ensures acc.anyDone ==> DrainSpec(chunks, i, acc, world, cfg).anyDone
    ensures DrainSpec(chunks, i, acc, world, cfg).processed >= acc.processed
    decreases |chunks| - i
  {
    if i < |chunks| {
      DrainSpecKeepsFlags(chunks, i + 1, Absorb(acc, AfterChunk(chunks[i], acc.table, acc.counter, world(i), cfg)), world, cfg);
    }
  }

  /** The rows every chunk from `i` on adds when all of its products complete. */
  function ChunkRows(chunks: seq<seq<string>>, i: nat, world: nat -> nat -> ItemEnv, cfg: Config): seq<Row>
    decreases |chunks| - i
  {
    if i >= |chunks| then [] else Rows(chunks[i], world(i), 0, cfg) + ChunkRows(chunks, i + 1, world, cfg)
  }

  /**
   * Chunks in benign worlds with a free slot: none of them hangs, every
   * product is handled, the counter is back where it was, some chunk
   * marks the task done when there is one, and the table ends as one
   * upsert of every chunk's rows, chunk after chunk. An earlier hang stays
   * recorded but changes none of this.
   */
  lemma {:induction false} BenignChunksComplete(chunks: seq<seq<string>>, i: nat, acc: ChunksRun, world: nat -> nat -> ItemEnv, cfg: Config)
    requires i <= |chunks| && acc.counter + 1 <= cfg.maxBrowsers
    requires forall j :: i <= j < |chunks| ==> Benign(world(j), 0, |chunks[j]|)
    ensures var r := DrainSpec(chunks, i, acc, world, cfg);
      r.hung == acc.hung && r.counter == acc.counter && r.processed == acc.processed + |Flatten(chunks[i..])|
      && r.table == UpsertAll(acc.table, ChunkRows(chunks, i, world, cfg))
      && r.anyDone == (acc.anyDone || i < |chunks|)
    decreases |chunks| - i
  {
    if i < |chunks| {
      var rows := Rows(chunks[i], world(i), 0, cfg);
      ChunkRunCompletes(SaverState([], acc.table), acc.counter, chunks[i], world(i), cfg);
      var c := AfterChunk(chunks[i], acc.table, acc.counter, world(i), cfg);
      assert [] + rows == rows;
      assert !c.hung && c.table == UpsertAll(acc.table, rows) && c.counter == acc.counter && c.processed == |chunks[i]|;
      var next := Absorb(acc, c);
      BenignChunksComplete(chunks, i + 1, next, world, cfg);
      var later := ChunkRows(chunks, i + 1, world, cfg);
      var after := DrainSpec(chunks, i + 1, next, world, cfg);
      assert DrainSpec(chunks, i, acc, world, cfg) == after;
      assert ChunkRows(chunks, i, world, cfg) == rows + later;
      UpsertAllAppend(acc.table, rows, later);
      assert after.table == UpsertAll(acc.table, rows + later);
      assert chunks[i..][1..] == chunks[i + 1..];
      assert Flatten(chunks[i..]) == chunks[i] + Flatten(chunks[i + 1..]);
      assert after.processed == acc.processed + |Flatten(chunks[i..])|;
    } else {
      assert chunks[i..] == [];
    }
  }

  /**
   * A chunk that hangs does not stop the others: when chunk `i` hangs and
   * leaves a free slot, the benign chunks after it still handle all their
   * products, upsert all their rows over the table it left and mark the
   * task done, while the run as a whole stays hung.
   */
  lemma HungChunkLeavesOthersRunning(chunks: seq<seq<string>>, i: nat, acc: ChunksRun, world: nat -> nat -> ItemEnv, cfg: Config)
    requires i < |chunks|
    requires var c := AfterChunk(chunks[i], acc.table, acc.counter, world(i), cfg); c.hung && c.counter + 1 <= cfg.maxBrowsers
    requires forall j :: i < j < |chunks| ==> Benign(world(j), 0, |chunks[j]|)
    ensures var c := AfterChunk(chunks[i], acc.table, acc.counter, world(i), cfg);
      var r := DrainSpec(chunks, i, acc, world, cfg);
      r.hung && r.counter == c.counter && r.processed == acc.processed + c.processed + |Flatten(chunks[i + 1..])|
      && r.table == UpsertAll(c.table, ChunkRows(chunks, i + 1, world, cfg))
      && r.anyDone == (acc.anyDone || i + 1 < |chunks|)
  {
    var c := AfterChunk(chunks[i], acc.table, acc.counter, world(i), cfg);
    BenignChunksComplete(chunks, i + 1, Absorb(acc, c), world, cfg);
  }

  /**
   * A whole list in benign worlds: the run of its chunks handles every
   * product, marks the task done, gives every slot back and leaves the
   * table as one upsert of every chunk's rows.
   */
  lemma BenignAuditCompletes(ids: seq<string>, maxBrowsers: int, table: map<Key, Row>, counter: int,
                             world: nat -> nat -> ItemEnv, cfg: Config)
    requires maxBrowsers >= 1 && ids != [] && counter + 1 <= cfg.maxBrowsers
    requires var cs := Chunks(ids, ChunkSize(|ids|, maxBrowsers)); forall j :: 0 <= j < |cs| ==> Benign(world(j), 0, |cs[j]|)
    ensures var cs := Chunks(ids, ChunkSize(|ids|, maxBrowsers));
      var r := DrainSpec(cs, 0, ChunksRun(table, counter, 0, false, false), world, cfg);
      !r.hung && r.processed == |ids| && r.counter == counter && r.anyDone
      && r.table == UpsertAll(table, ChunkRows(cs, 0, world, cfg))
  {
    var cs := Chunks(ids, ChunkSize(|ids|, maxBrowsers));
    BenignChunksComplete(cs, 0, ChunksRun(table, counter, 0, false, false), world, cfg);
    ChunksFlatten(ids, ChunkSize(|ids|, maxBrowsers));
    assert cs[0..] == cs;
  }

  /** The reply of `RunAudit.run`; a chunk that never finishes keeps `gather` from returning. */
  datatype Reply = Error(message: string) | Success(processedCount: nat) | NoReply

  const NoProductsMessage: string := "No products found in this list"

  class RunAudit {
    const taskId: string
    const table: ProductTable
    const counter: SharedCounter
    const redis: Redis

    constructor (taskId: string, table: ProductTable, counter: SharedCounter, redis: Redis)
      ensures this.taskId == taskId && this.table == table && this.counter == counter && this.redis == redis
    {
      this.taskId := taskId;
      this.table := table;
      this.counter := counter;
      this.redis := redis;
    }

    /**
     * The prologues of the chunks' `run`s. Each runs up to its
     * `queue.join()` before any worker starts, so every `init_task` comes
     * first, one per chunk, and the last one's total stays.
     */
    method Prologues(chunks: seq<seq<string>>, user: int)
      requires redis.Typed() && chunks != []
      modifies redis
      ensures redis.Typed()
      ensures taskId != "" ==> ProgressOf(redis.strings, taskId) == Progress(taskId, 0, |chunks[|chunks| - 1]|, "running", Some(user))
      ensures taskId == "" ==> redis.strings == old(redis.strings)
    {
      var i := 0;
      while i < |chunks|
        invariant 0 <= i <= |chunks| && redis.Typed()
        invariant taskId != "" && i > 0 ==> ProgressOf(redis.strings, taskId) == Progress(taskId, 0, |chunks[i - 1]|, "running", Some(user))
        invariant taskId == "" ==> redis.strings == old(redis.strings)
      {
        if taskId != "" {
          var progress := new TaskProgress(taskId, redis);
          progress.InitTask(|chunks[i]|, user);
        }
        i := i + 1;
      }
    }

    /** The prologue as evidently intended: one `init_task` with the whole list's length. */
    method PrologueIntended(chunks: seq<seq<string>>, user: int)
      requires redis.Typed()
      modifies redis
      ensures redis.Typed()
      ensures taskId != "" ==> ProgressOf(redis.strings, taskId) == Progress(taskId, 0, |Flatten(chunks)|, "running", Some(user))
      ensures taskId == "" ==> redis.strings == old(redis.strings)
    {
      if taskId != "" {
        var progress := new TaskProgress(taskId, redis);
        progress.InitTask(|Flatten(chunks)|, user);
      }
    }

    /**
     * `run`: no products is an error and starts nothing; otherwise the list
     * is chunked, every chunk's prologue runs, and then the chunks' queues
     * are drained, one after another in this model. `world(i)` is what
     * chunk `i` meets. `processed` counts the products whose handling
     * completed. A chunk that never finishes keeps `gather` from returning.
     */
    method Run(records: seq<ProductRecord>, reaudit: bool, productList: int, user: int, maxBrowsers: int,
               batchSize: int, world: nat -> nat -> ItemEnv) returns (reply: Reply, processed: nat)
      requires maxBrowsers >= 1 && batchSize >= 1 && table.Valid() && redis.Typed()
      modifies table, counter, redis
      ensures table.Valid() && redis.Typed()
      ensures var ids := GetProductInfos(records, reaudit);
        ids == [] ==>
          reply == Error(NoProductsMessage) && processed == 0
          && table.rows == old(table.rows) && counter.value == old(counter.value) && redis.strings == old(redis.strings)
      ensures var ids := GetProductInfos(records, reaudit);
        var cs := if ids == [] then [] else Chunks(ids, ChunkSize(|ids|, maxBrowsers));
        var spec := DrainSpec(cs, 0, ChunksRun(old(table.rows), old(counter.value), 0, false, false), world,
                              Config(productList, user, batchSize, maxBrowsers));
        ids != [] ==>
          reply == (if spec.hung then NoReply else Success(|ids|))
          && processed == spec.processed && table.rows == spec.table && counter.value == spec.counter
          && (taskId != "" ==>
                ProgressOf(redis.strings, taskId) ==
                Progress(taskId, processed, |cs[|cs| - 1]|, if spec.anyDone then "done" else "running", Some(user)))
    {
      var ids := GetProductInfos(records, reaudit);
      if ids == [] {
        return Error(NoProductsMessage), 0;
      }
      var chunks := Chunks(ids, ChunkSize(|ids|, maxBrowsers));
      Prologues(chunks, user);
      var hung;
      hung, processed := DrainChunks(chunks, productList, user, maxBrowsers, batchSize, world, |chunks[|chunks| - 1]|);
      reply := if hung then NoReply else Success(|ids|);
    }

    /**
     * The chunks' queues drained one after another; a chunk whose queue
     * never empties hangs on its own `join`, while the others go on. The
     * task's total stays, its count grows by the products handled, and the
     * first chunk to finish marks it done.
     */
    method DrainChunks(chunks: seq<seq<string>>, productList: int, user: int, maxBrowsers: int, batchSize: int,
                       world: nat -> nat -> ItemEnv, ghost total: int) returns (hung: bool, processed: nat)
      requires maxBrowsers >= 1 && batchSize >= 1 && table.Valid() && redis.Typed()
      requires taskId != "" ==> ProgressOf(redis.strings, taskId) == Progress(taskId, 0, total, "running", Some(user))
      modifies table, counter, redis
      ensures table.Valid() && redis.Typed()
      ensures var spec := DrainSpec(chunks, 0, ChunksRun(old(table.rows), old(counter.value), 0, false, false), world,
                                    Config(productList, user, batchSize, maxBrowsers));
        hung == spec.hung && processed == spec.processed && table.rows == spec.table && counter.value == spec.counter
        && (taskId != "" ==>
              ProgressOf(redis.strings, taskId) ==
              Progress(taskId, processed, total, if spec.anyDone then "done" else "running", Some(user)))
    {
      ghost var cfg := Config(productList, user, batchSize, maxBrowsers);
      ghost var acc := ChunksRun(table.rows, counter.value, 0, false, false);
      ghost var spec := DrainSpec(chunks, 0, acc, world, cfg);
      hung, processed := false, 0;
      var i := 0;
      while i < |chunks|
        invariant 0 <= i <= |chunks| && table.Valid() && redis.Typed()
        invariant acc == ChunksRun(table.rows, counter.value, processed, hung, acc.anyDone)
        invariant DrainSpec(chunks, i, acc, world, cfg) == spec
        invariant taskId != "" ==>
          ProgressOf(redis.strings, taskId) == Progress(taskId, processed, total, if acc.anyDone then "done" else "running", Some(user))
      {
        ghost var c := AfterChunk(chunks[i], acc.table, acc.counter, world(i), cfg);
        DrainSpecAdvance(chunks, i, acc, world, cfg, spec);
        var chunkHung, n := DrainChunk(chunks[i], productList, user, maxBrowsers, batchSize, world(i));
        hung, processed := hung || chunkHung, processed + n;
        acc := Absorb(acc, c);
        i := i + 1;
      }
    }

    /** One chunk's `run` after its prologue, with a fresh `AuditWorkers` over the shared table and counter. */
    method DrainChunk(chunk: seq<string>, productList: int, user: int, maxBrowsers: int, batchSize: int,
                      world: nat -> ItemEnv) returns (hung: bool, n: nat)
      requires maxBrowsers >= 1 && batchSize >= 1 && table.Valid() && redis.Typed()
      modifies table, counter, redis
      ensures table.Valid() && redis.Typed()
      ensures var c := AfterChunk(chunk, old(table.rows), old(counter.value), world, Config(productList, user, batchSize, maxBrowsers));
        hung == c.hung && n == c.processed && table.rows == c.table && counter.value == c.counter
      ensures taskId != "" ==>
        var p := old(ProgressOf(redis.strings, taskId));
        ProgressOf(redis.strings, taskId) == if hung then p.(count := p.count + n) else p.(count := p.count + n, status := "done")
    {
      var w := new AuditWorkers(chunk, productList, user, taskId, batchSize, maxBrowsers, table, counter, redis);
      var outcome, processed := w.Drain(world);
      hung, n := outcome.Hung?, processed;
    }
  }
}
