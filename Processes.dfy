/** The process manager of utils/process_manager.py: a FIFO job queue, the
    GPU/CPU device choice, two worker pools that are drained of dead
    workers before every dequeue, and the interrupt handler that terminates
    every tracked worker.

    Worker processes are handles into a process table (the operating
    system's view: which handles are alive, which terminate calls were
    made). One iteration of the `work_vili` loop is specified by the
    function `Step` over a `LoopState`; the classes below implement it
    imperatively and are proved against it. */
module Processes {
  import opened Wrappers
  import opened Python
  import opened Text

  /** A worker process: its position in the process table. */
  type Handle = nat

  /** The processor class a job names as its "target". */
  datatype ProcessorKind = TrainerProcessor | TesterProcessor | LearnerProcessor

  /** An item taken from the queue: a job dict `{'target': ..., 'data': ...}`
      (always truthy), or any falsy item, which `if job:` skips. */
  datatype Job = Falsy | Job(target: ProcessorKind, data: map<string, Value>)

  /** A started worker: its process name, the processor whose `consume` it
      runs and the payload it was started with. */
  datatype Worker = Worker(name: string, target: ProcessorKind, payload: map<string, Value>)

  // =====================================================================
  // Device selection

  /** What the GPUtil calls produce: an exception (from `getGPUs` or from
      `getFirstAvailable`), or the list `getFirstAvailable` returned. */
  datatype GpuQuery = QueryRaised | FirstAvailable(ids: seq<Option<int>>)

  const LOAD_PER_PROCESS: real := 10.0
  const MEM_PER_PROCESS: real := 100.0

  /** `gpu_settings`: the load and memory each process is taken to need. */
  function GpuSettings(): (r: (real, real))
    ensures r == (10.0, 100.0)
  {
    (LOAD_PER_PROCESS, MEM_PER_PROCESS)
  }

  /** The `maxLoad` and `maxMemory` passed to `getFirstAvailable`. */
  function GpuThresholds(): (r: (real, real))
    ensures r == (-9.0, -99.0)
  {
    var (load, mem) := GpuSettings();
    (1.0 - load, 1.0 - mem)
  }

  function CpuConfig(): Value {
    Dict(map["cpu" := Dict(map[])])
  }

  function GpuConfig(deviceId: int): Value {
    Dict(map["gpu" := Dict(map["DEVICE_ID" := Int(deviceId), "MEMORY_FRACTION" := Real(MEM_PER_PROCESS)])])
  }

  /** `device_config.get("gpu")` is truthy (only meaningful for a dict). */
  predicate SelectsGpu(config: Value) {
    config.Dict? && Truthy(DictGet(config.fields, "gpu"))
  }

  predicate FoundDevice(q: GpuQuery) {
    q.FirstAvailable? && |q.ids| > 0 && q.ids[0].Some?
  }

  /** `get_device_config`: a GPU config when a device id is found, the CPU
      config when the query raises (taking element 0 of an empty list
      raises too), and `None` when the id found is `None`, because the
      `if` then falls through to the end of the `try`. */
  function GetDeviceConfig(q: GpuQuery): (r: Value)
    ensures FoundDevice(q) ==> r == GpuConfig(q.ids[0].value) && SelectsGpu(r)
    ensures q.FirstAvailable? && |q.ids| > 0 && q.ids[0].None? <==> r.None?
    ensures q.QueryRaised? || (q.FirstAvailable? && q.ids == []) ==> r == CpuConfig()
    ensures SelectsGpu(r) <==> FoundDevice(q)
    ensures r.None? || r.Dict?
  {
    match q
    case QueryRaised => CpuConfig()
    case FirstAvailable(ids) =>
      if |ids| == 0 then CpuConfig()
      else if ids[0].Some? then
        var config := GpuConfig(ids[0].value);
        assert "DEVICE_ID" in config.fields["gpu"].fields;
        config
      else Value.None
  }

  // =====================================================================
  // Pools and draining

  /** The handles of `pool` that are alive, in pool order. */
  function AliveOnly(pool: seq<Handle>, alive: set<Handle>): seq<Handle> {
    if pool == [] then []
    else AliveOnly(pool[..|pool| - 1], alive)
         + (if pool[|pool| - 1] in alive then [pool[|pool| - 1]] else [])
  }

  /** The handles of `pool` that are not alive, in pool order. */
  function DeadOnly(pool: seq<Handle>, alive: set<Handle>): seq<Handle> {
    if pool == [] then []
    else DeadOnly(pool[..|pool| - 1], alive)
         + (if pool[|pool| - 1] !in alive then [pool[|pool| - 1]] else [])
  }

  /** The drained pool holds exactly the live handles of the pool and the
      terminated ones exactly the dead handles. */
  lemma {:induction false} DrainMembers(pool: seq<Handle>, alive: set<Handle>, h: Handle)
    ensures h in AliveOnly(pool, alive) <==> h in pool && h in alive
    ensures h in DeadOnly(pool, alive) <==> h in pool && h !in alive
    decreases |pool|
  {
    if pool != [] {
      var init := pool[..|pool| - 1];
      DrainMembers(init, alive, h);
      assert pool == init + [pool[|pool| - 1]];
    }
  }

  /** Draining distributes over concatenation: survivors keep their
      relative order, and so do the terminated handles. */
  lemma DrainAppend(a: seq<Handle>, b: seq<Handle>, alive: set<Handle>)
    ensures AliveOnly(a + b, alive) == AliveOnly(a, alive) + AliveOnly(b, alive)
    ensures DeadOnly(a + b, alive) == DeadOnly(a, alive) + DeadOnly(b, alive)
  {
    AliveOnlyAppend(a, b, alive);
    DeadOnlyAppend(a, b, alive);
  }

  lemma SnocOfAppend(a: seq<Handle>, b: seq<Handle>)
    requires b != []
    ensures (a + b)[..|a + b| - 1] == a + b[..|b| - 1]
    ensures (a + b)[|a + b| - 1] == b[|b| - 1]
  {
  }

  lemma {:induction false} AliveOnlyAppend(a: seq<Handle>, b: seq<Handle>, alive: set<Handle>)
    ensures AliveOnly(a + b, alive) == AliveOnly(a, alive) + AliveOnly(b, alive)
    decreases |b|
  {
    if b == [] {
      assert a + b == a;
    } else {
      AliveOnlyAppend(a, b[..|b| - 1], alive);
      SnocOfAppend(a, b);
    }
  }

  lemma {:induction false} DeadOnlyAppend(a: seq<Handle>, b: seq<Handle>, alive: set<Handle>)
    ensures DeadOnly(a + b, alive) == DeadOnly(a, alive) + DeadOnly(b, alive)
    decreases |b|
  {
    if b == [] {
      assert a + b == a;
    } else {
      DeadOnlyAppend(a, b[..|b| - 1], alive);
      SnocOfAppend(a, b);
    }
  }

  /** Every handle goes to exactly one side: survivors and terminated
      handles together are a permutation of the pool. */
  lemma {:induction false} DrainPartition(pool: seq<Handle>, alive: set<Handle>)
    ensures multiset(AliveOnly(pool, alive)) + multiset(DeadOnly(pool, alive)) == multiset(pool)
    ensures |AliveOnly(pool, alive)| + |DeadOnly(pool, alive)| == |pool|
    decreases |pool|
  {
    if pool != [] {
      DrainPartition(pool[..|pool| - 1], alive);
      DrainLast(pool, alive);
    }
  }

  lemma DrainLast(pool: seq<Handle>, alive: set<Handle>)
    requires pool != []
    ensures var init, last := pool[..|pool| - 1], pool[|pool| - 1];
      && multiset(AliveOnly(pool, alive)) + multiset(DeadOnly(pool, alive))
         == multiset(AliveOnly(init, alive)) + multiset(DeadOnly(init, alive)) + multiset{last}
      && |AliveOnly(pool, alive)| + |DeadOnly(pool, alive)| == |AliveOnly(init, alive)| + |DeadOnly(init, alive)| + 1
      && multiset(pool) == multiset(init) + multiset{last}
  {
    assert pool == pool[..|pool| - 1] + [pool[|pool| - 1]];
  }

  /** A pool whose handles are all alive drains to itself. */
  lemma {:induction false} DrainAllAlive(pool: seq<Handle>, alive: set<Handle>)
    requires forall i :: 0 <= i < |pool| ==> pool[i] in alive
    ensures AliveOnly(pool, alive) == pool
    ensures DeadOnly(pool, alive) == []
    decreases |pool|
  {
    if pool != [] {
      var init := pool[..|pool| - 1];
      DrainAllAlive(init, alive);
      assert pool == init + [pool[|pool| - 1]];
    }
  }

  /** Draining twice is draining once, and the second pass terminates nothing. */
  lemma DrainIdempotent(pool: seq<Handle>, alive: set<Handle>)
    ensures AliveOnly(AliveOnly(pool, alive), alive) == AliveOnly(pool, alive)
    ensures DeadOnly(AliveOnly(pool, alive), alive) == []
  {
    var p := AliveOnly(pool, alive);
    forall i | 0 <= i < |p| ensures p[i] in alive {
      DrainMembers(pool, alive, p[i]);
    }
    DrainAllAlive(p, alive);
  }

  // =====================================================================
  // One iteration of `work_vili`, as a function of the state

  datatype PoolKind = Cpu | Gpu

  /** How an iteration ended: the loop waits in `queue.get()` on an empty
      queue; a falsy item was skipped; a worker was started into a pool;
      or an exception escaped, which ends the loop (only `queue.Empty` is
      caught, and a blocking `get` never raises it). */
  datatype StepResult = Blocked | Skipped | Dispatched(handle: Handle, pool: PoolKind) | Raised(error: Error)

  /** Which code the iteration runs: the code as written; the code with the
      drain of line 139 corrected only; or with the CPU naming of line 156
      corrected as well. */
  datatype Revision = AsWritten | DrainFixed | Corrected

  /** Everything an iteration reads or changes: the queue, the two pools and
      the process table. */
  datatype LoopState = LoopState(
    queue: seq<Job>,
    cpu: seq<Handle>,
    gpu: seq<Handle>,
    workers: seq<Worker>,
    alive: set<Handle>,
    terminated: seq<Handle>)

  /** The pool the second `drain_pool` call reads: the CPU pool as written. */
  function GpuDrainSource(rev: Revision, cpuDrained: seq<Handle>, gpu: seq<Handle>): seq<Handle> {
    if rev == AsWritten then cpuDrained else gpu
  }

  /** The two `drain_pool` calls at the top of an iteration. */
  function Drain(rev: Revision, s: LoopState): (d: LoopState)
    ensures d.queue == s.queue && d.workers == s.workers && d.alive == s.alive
    ensures d.cpu == AliveOnly(s.cpu, s.alive)
  {
    var cpu := AliveOnly(s.cpu, s.alive);
    var source := GpuDrainSource(rev, cpu, s.gpu);
    s.(cpu := cpu,
       gpu := AliveOnly(source, s.alive),
       terminated := s.terminated + DeadOnly(s.cpu, s.alive) + DeadOnly(source, s.alive))
  }

  function PoolLabel(pool: PoolKind): string {
    if pool == Gpu then "gpu" else "cpu"
  }

  /** The process name `"mimir-training_<pool>-" + str(n)`. */
  function WorkerName(pool: PoolKind, n: nat): string {
    "mimir-training_" + PoolLabel(pool) + "-" + NatToString(n)
  }

  /** Names with the same pool label differ exactly when their numbers differ. */
  lemma WorkerNameInjective(pool: PoolKind, m: nat, n: nat)
    requires WorkerName(pool, m) == WorkerName(pool, n)
    ensures m == n
  {
    var prefix := "mimir-training_" + PoolLabel(pool) + "-";
    assert WorkerName(pool, m)[|prefix|..] == NatToString(m);
    assert WorkerName(pool, n)[|prefix|..] == NatToString(n);
    NatToStringInjective(m, n);
  }

  /** The number in a new worker's name, read from the drained pools:
      `len(gpu_pool) + 1` for both pools as written. */
  function NameNumber(rev: Revision, pool: PoolKind, d: LoopState): nat {
    if pool == Cpu && rev == Corrected then |d.cpu| + 1 else |d.gpu| + 1
  }

  /** One iteration: drain, dequeue, choose the device, attach the config,
      start the named worker and append its handle to the chosen pool. */
  function Step(rev: Revision, s: LoopState, q: GpuQuery): (LoopState, StepResult)
  {
    var d := Drain(rev, s);
    if d.queue == [] then (d, Blocked)
    else
      var job := d.queue[0];
      var d := d.(queue := d.queue[1..]);
      if job.Falsy? then (d, Skipped)
      else
        var config := GetDeviceConfig(q);
        if !config.Dict? then (d, Raised(AttributeError("get")))
        else
          var pool := if SelectsGpu(config) then Gpu else Cpu;
          var h := |d.workers|;
          var w := Worker(WorkerName(pool, NameNumber(rev, pool, d)), job.target,
                          job.data["device_config" := config]);
          var d := d.(workers := d.workers + [w], alive := d.alive + {h});
          if pool == Gpu then (d.(gpu := d.gpu + [h]), Dispatched(h, Gpu))
          else (d.(cpu := d.cpu + [h]), Dispatched(h, Cpu))
  }

  /** What an iteration does, case by case: the queue always loses its head,
      the outcome is decided by the head and the device config, and a
      dispatch starts one worker, named from the drained pools, with the
      config in its payload. */
  lemma StepCases(rev: Revision, s: LoopState, q: GpuQuery)
    ensures Step(rev, s, q).0.queue == if s.queue == [] then [] else s.queue[1..]
    ensures Step(rev, s, q).1 == Blocked <==> s.queue == []
    ensures Step(rev, s, q).1 == Skipped <==> s.queue != [] && s.queue[0].Falsy?
    ensures Step(rev, s, q).1.Raised? <==> s.queue != [] && s.queue[0].Job? && GetDeviceConfig(q).None?
    ensures var (s', r) := Step(rev, s, q);
      !r.Dispatched? ==> s' == Drain(rev, s).(queue := s'.queue)
    ensures var (s', r) := Step(rev, s, q);
      r.Dispatched? ==>
        var d := Drain(rev, s);
        && r.handle == |s.workers| && s'.alive == s.alive + {r.handle}
        && s'.workers == s.workers + [Worker(WorkerName(r.pool, NameNumber(rev, r.pool, d)),
                                             s.queue[0].target,
                                             s.queue[0].data["device_config" := GetDeviceConfig(q)])]
        && (r.pool == Gpu <==> SelectsGpu(GetDeviceConfig(q)))
        && (r.pool == Gpu ==> s'.gpu == d.gpu + [r.handle] && s'.cpu == d.cpu)
        && (r.pool == Cpu ==> s'.cpu == d.cpu + [r.handle] && s'.gpu == d.gpu)
        && s'.terminated == d.terminated
  {
  }

  /** Iterations over successive GPU query outcomes, until the loop waits on
      an empty queue, an exception leaves it, or the outcomes run out. */
  function Run(rev: Revision, s: LoopState, qs: seq<GpuQuery>): LoopState
    decreases |qs|
  {
    if qs == [] then s
    else
      var (s', r) := Step(rev, s, qs[0]);
      if r.Blocked? || r.Raised? then s' else Run(rev, s', qs[1..])
  }

  /** `sig_handler`: both pools' handles are terminated, CPU pool first. */
  function Shutdown(s: LoopState): (r: LoopState)
    ensures r.terminated == s.terminated + s.cpu + s.gpu
    ensures forall h :: h in s.cpu || h in s.gpu ==> h !in r.alive
    ensures forall h :: h in r.alive <==> h in s.alive && h !in s.cpu && h !in s.gpu
  {
    s.(terminated := s.terminated + s.cpu + s.gpu,
       alive := s.alive - (set h | h in s.cpu) - (set h | h in s.gpu))
  }

  // =====================================================================
  // Properties of the iteration

  /** Jobs in the dispatched payloads, without the attached device config. */
  function JobOf(w: Worker): Job {
    Job(w.target, w.payload - {"device_config"})
  }

  function JobsOf(ws: seq<Worker>): seq<Job> {
    if ws == [] then [] else [JobOf(ws[0])] + JobsOf(ws[1..])
  }

  /** The truthy items of a queue segment, without any device config. */
  function Dispatchable(js: seq<Job>): seq<Job> {
    if js == [] then [] else DispatchedAs(js[0]) + Dispatchable(js[1..])
  }

  /** What a worker started for `j` carries, if `j` is truthy. */
  function DispatchedAs(j: Job): seq<Job> {
    if j.Job? then [Job(j.target, j.data - {"device_config"})] else []
  }

  lemma {:induction false} JobsOfAppend(a: seq<Worker>, b: seq<Worker>)
    ensures JobsOf(a + b) == JobsOf(a) + JobsOf(b)
    decreases |a|
  {
    if a == [] {
      assert a + b == b;
    } else {
      assert (a + b)[1..] == a[1..] + b;
      JobsOfAppend(a[1..], b);
    }
  }

  predicate NeverNone(qs: seq<GpuQuery>) {
    forall i :: 0 <= i < |qs| ==> !GetDeviceConfig(qs[i]).None?
  }

  lemma {:induction false} DispatchableAppend(a: seq<Job>, b: seq<Job>)
    ensures Dispatchable(a + b) == Dispatchable(a) + Dispatchable(b)
    decreases |a|
  {
    if a == [] {
      assert a + b == b;
    } else {
      assert (a + b)[0] == a[0];
      assert (a + b)[1..] == a[1..] + b;
      DispatchableAppend(a[1..], b);
    }
  }

  /** From `s` to `s'` the queue lost a prefix, the process table only grew,
      and the workers started in between carry that prefix's truthy jobs in
      submission order. */
  predicate DispatchedInOrder(s: LoopState, s': LoopState) {
    && |s'.queue| <= |s.queue| && s.queue[|s.queue| - |s'.queue|..] == s'.queue
    && |s.workers| <= |s'.workers| && s'.workers[..|s.workers|] == s.workers
    && JobsOf(s'.workers[|s.workers|..]) == Dispatchable(s.queue[..|s.queue| - |s'.queue|])
  }

  lemma DispatchedInOrderTrans(a: LoopState, b: LoopState, c: LoopState)
    requires DispatchedInOrder(a, b) && DispatchedInOrder(b, c)
    ensures DispatchedInOrder(a, c)
  {
    var ka, kb := |a.queue| - |b.queue|, |b.queue| - |c.queue|;
    SuffixSplit(a.queue, b.queue, ka, kb);
    assert |a.queue| - |c.queue| == ka + kb;
    DispatchableAppend(a.queue[..ka], b.queue[..kb]);
    PrefixSplit(c.workers, b.workers, a.workers);
    JobsOfAppend(b.workers[|a.workers|..], c.workers[|b.workers|..]);
  }

  /** `y` is `x` without its first `n` elements: cutting `m` more from `y`
      cuts `n + m` from `x`. */
  lemma SuffixSplit<T>(x: seq<T>, y: seq<T>, n: nat, m: nat)
    requires n <= |x| && x[n..] == y && m <= |y|
    ensures x[n + m..] == y[m..]
    ensures x[..n + m] == x[..n] + y[..m]
  {
    assert x[n..][m..] == x[n + m..];
    assert x[n..][..m] == x[n..n + m];
  }

  /** `y` starts `z` and `z` starts `x`: `y` starts `x` as well, and `z`
      beyond `y` extends `y` beyond `x`. */
  lemma PrefixSplit<T>(z: seq<T>, y: seq<T>, x: seq<T>)
    requires |y| <= |z| && z[..|y|] == y && |x| <= |y| && y[..|x|] == x
    ensures z[..|x|] == x
    ensures z[|x|..] == y[|x|..] + z[|y|..]
  {
    assert z[..|y|][..|x|] == z[..|x|];
    assert z[|x|..] == z[|x|..|y|] + z[|y|..];
    assert z[..|y|][|x|..] == z[|x|..|y|];
  }

  /** Taking the head and starting the workers `started` for it is in order. */
  lemma TakeHeadInOrder(s: LoopState, s': LoopState, started: seq<Worker>)
    requires s.queue != [] && s'.queue == s.queue[1..]
    requires s'.workers == s.workers + started && JobsOf(started) == DispatchedAs(s.queue[0])
    ensures DispatchedInOrder(s, s')
  {
    assert s.queue[..1] == [s.queue[0]];
    assert Dispatchable(s.queue[..1]) == DispatchedAs(s.queue[0]) + Dispatchable([]);
    assert s'.workers[..|s.workers|] == s.workers;
    assert s'.workers[|s.workers|..] == started;
  }

  /** An iteration whose device config is not `None` does not raise, and
      dispatches in order: it takes at most the queue's head and starts at
      most one worker, carrying that head's job. */
  lemma StepFifo(rev: Revision, s: LoopState, q: GpuQuery)
    requires !GetDeviceConfig(q).None?
    ensures !Step(rev, s, q).1.Raised?
    ensures DispatchedInOrder(s, Step(rev, s, q).0)
  {
    StepCases(rev, s, q);
    var (s1, r) := Step(rev, s, q);
    if r.Blocked? {
      assert s1.workers[|s.workers|..] == [];
      assert s1.workers[..|s.workers|] == s.workers;
    } else if r.Skipped? {
      assert s1.workers == s.workers + [];
      TakeHeadInOrder(s, s1, []);
    } else {
      var w := s1.workers[|s.workers|];
      assert w.payload - {"device_config"} == s.queue[0].data - {"device_config"};
      assert JobsOf([w]) == [JobOf(w)] + JobsOf([]);
      TakeHeadInOrder(s, s1, [w]);
    }
  }

  /** FIFO dispatch: over any run whose device queries never yield `None`,
      the queue loses a prefix and the workers started carry that prefix's
      truthy jobs, in submission order. */
  lemma {:induction false} RunIsFifo(rev: Revision, s: LoopState, qs: seq<GpuQuery>)
    requires NeverNone(qs)
    ensures DispatchedInOrder(s, Run(rev, s, qs))
    decreases |qs|
  {
    if qs == [] {
      assert s.workers[|s.workers|..] == [];
      assert s.queue[..0] == [];
    } else {
      StepFifo(rev, s, qs[0]);
      var (s1, r) := Step(rev, s, qs[0]);
      if !r.Blocked? {
        assert NeverNone(qs[1..]) by {
          forall i | 0 <= i < |qs[1..]| ensures !GetDeviceConfig(qs[1..][i]).None? {
            assert qs[1..][i] == qs[i + 1];
          }
        }
        RunIsFifo(rev, s1, qs[1..]);
        DispatchedInOrderTrans(s, s1, Run(rev, s1, qs[1..]));
      }
    }
  }

  /** As written, the GPU pool after the drains is a copy of the drained CPU
      pool: line 139 drains `cpu_pool` into `gpu_pool`. */
  lemma AsWrittenGpuPoolMirrorsCpuPool(s: LoopState)
    ensures Drain(AsWritten, s).gpu == Drain(AsWritten, s).cpu
    ensures Drain(AsWritten, s).terminated == s.terminated + DeadOnly(s.cpu, s.alive)
  {
    DrainIdempotent(s.cpu, s.alive);
  }

  /** As written, both kinds of worker are numbered from the drained CPU
      pool: line 156's mistake is hidden by line 139's, and a GPU worker's
      number ignores the GPU pool. */
  lemma AsWrittenNamesCountCpuPool(s: LoopState, pool: PoolKind)
    ensures NameNumber(AsWritten, pool, Drain(AsWritten, s)) == |AliveOnly(s.cpu, s.alive)| + 1
  {
    AsWrittenGpuPoolMirrorsCpuPool(s);
  }

  /** Corrected, each worker is numbered from its own drained pool. */
  lemma CorrectedNamesCountOwnPool(s: LoopState, q: GpuQuery)
    ensures var (s', r) := Step(Corrected, s, q);
      r.Dispatched? ==>
        var d := Drain(Corrected, s);
        s'.workers[r.handle].name
          == WorkerName(r.pool, (if r.pool == Gpu then |d.gpu| else |d.cpu|) + 1)
  {
  }

  /** Every live worker is in one of the pools. */
  predicate Tracked(s: LoopState) {
    forall h :: h in s.alive ==> h in s.cpu || h in s.gpu
  }

  /** With the drain corrected, an iteration keeps every live worker in a
      pool: live handles survive their own pool's drain. */
  lemma CorrectedStepKeepsWorkersTracked(rev: Revision, s: LoopState, q: GpuQuery)
    requires rev != AsWritten && Tracked(s)
    ensures Tracked(Step(rev, s, q).0)
  {
    var s' := Step(rev, s, q).0;
    forall h | h in s'.alive ensures h in s'.cpu || h in s'.gpu {
      DrainMembers(s.cpu, s.alive, h);
      DrainMembers(s.gpu, s.alive, h);
    }
  }

  /** So the interrupt handler leaves no worker running. */
  lemma TrackedShutdownStopsAll(s: LoopState)
    requires Tracked(s)
    ensures Shutdown(s).alive == {}
  {
  }

  /** A worker that exits on its own never breaks tracking. */
  lemma ExitKeepsTracked(s: LoopState, h: Handle)
    requires Tracked(s)
    ensures Tracked(s.(alive := s.alive - {h}))
  {
  }

  const ExampleJob: Job := Job(TrainerProcessor, map[])

  /** As written, a live GPU worker leaves the GPU pool at the next
      iteration's drain while still running, so the interrupt handler no
      longer terminates it. */
  lemma AsWrittenOrphansGpuWorker()
    ensures var s := LoopState([], [], [0], [Worker(WorkerName(Gpu, 1), TrainerProcessor, map[])], {0}, []);
      var (s', r) := Step(AsWritten, s, QueryRaised);
      && Tracked(s) && r == Blocked && s'.gpu == [] && s'.cpu == []
      && 0 in s'.alive && 0 in Shutdown(s').alive && !Tracked(s')
  {
    var s := LoopState([], [], [0], [Worker(WorkerName(Gpu, 1), TrainerProcessor, map[])], {0}, []);
    assert AliveOnly([], {0}) == [];
    assert Drain(AsWritten, s).gpu == [];
  }

  predicate AllAlive(pool: seq<Handle>, alive: set<Handle>) {
    forall i :: 0 <= i < |pool| ==> pool[i] in alive
  }

  /** With no GPU found and every pooled worker alive, an iteration on a
      truthy head starts a CPU worker and terminates nothing. */
  lemma CpuDispatchAllAlive(rev: Revision, s: LoopState)
    requires s.queue != [] && s.queue[0].Job?
    requires AllAlive(s.cpu, s.alive) && AllAlive(s.gpu, s.alive)
    ensures var (s', r) := Step(rev, s, QueryRaised);
      var gpu := GpuDrainSource(rev, s.cpu, s.gpu);
      var n := if rev == Corrected then |s.cpu| + 1 else |gpu| + 1;
      && r == Dispatched(|s.workers|, Cpu)
      && s'.queue == s.queue[1..] && s'.cpu == s.cpu + [|s.workers|] && s'.gpu == gpu
      && s'.workers == s.workers + [Worker(WorkerName(Cpu, n), s.queue[0].target,
                                           s.queue[0].data["device_config" := CpuConfig()])]
      && s'.alive == s.alive + {|s.workers|} && s'.terminated == s.terminated
  {
    DrainAllAlive(s.cpu, s.alive);
    DrainAllAlive(s.gpu, s.alive);
    assert Drain(rev, s) == s.(gpu := GpuDrainSource(rev, s.cpu, s.gpu));
    StepCases(rev, s, QueryRaised);
  }

  /** With only line 139 corrected, line 156 numbers a CPU worker from the
      GPU pool: a second live CPU worker gets the first one's name. */
  lemma DrainFixedDuplicatesCpuName()
    ensures var first := Worker(WorkerName(Cpu, 1), TrainerProcessor, map[]);
      var s := LoopState([ExampleJob], [0], [], [first], {0}, []);
      var (s', r) := Step(DrainFixed, s, QueryRaised);
      && r == Dispatched(1, Cpu) && s'.cpu == [0, 1] && s'.alive == {0, 1}
      && s'.workers[1].name == s'.workers[0].name
  {
    var first := Worker(WorkerName(Cpu, 1), TrainerProcessor, map[]);
    var s := LoopState([ExampleJob], [0], [], [first], {0}, []);
    CpuDispatchAllAlive(DrainFixed, s);
  }

  /** With both lines corrected, the same state names the new worker
      `mimir-training_cpu-2`. */
  lemma CorrectedNamesSecondCpuWorker()
    ensures var first := Worker(WorkerName(Cpu, 1), TrainerProcessor, map[]);
      var s := LoopState([ExampleJob], [0], [], [first], {0}, []);
      var (s', r) := Step(Corrected, s, QueryRaised);
      && r == Dispatched(1, Cpu) && s'.workers[1].name == WorkerName(Cpu, 2)
      && s'.workers[1].name != s'.workers[0].name
  {
    var first := Worker(WorkerName(Cpu, 1), TrainerProcessor, map[]);
    var s := LoopState([ExampleJob], [0], [], [first], {0}, []);
    CpuDispatchAllAlive(Corrected, s);
    if WorkerName(Cpu, 2) == WorkerName(Cpu, 1) {
      WorkerNameInjective(Cpu, 2, 1);
    }
  }

  /** One job whose worker exits on its own: the next iteration's drain
      empties the CPU pool again and terminates the dead worker. */
  lemma FinishedWorkerIsReaped(j: Job)
    requires j.Job?
    ensures var (s1, _) := Step(AsWritten, LoopState([j], [], [], [], {}, []), QueryRaised);
      var s2 := s1.(alive := s1.alive - {0});
      var (s3, r3) := Step(AsWritten, s2, QueryRaised);
      && s1.cpu == [0] && r3 == Blocked && s3.cpu == [] && s3.gpu == [] && s3.terminated == [0]
  {
    var (s1, _) := Step(AsWritten, LoopState([j], [], [], [], {}, []), QueryRaised);
    var s2 := s1.(alive := s1.alive - {0});
    assert [0][..0] == [];
    assert AliveOnly([0], s2.alive) == [];
    assert DeadOnly([0], s2.alive) == [0];
  }

  // =====================================================================
  // The objects: queue, process table, manager and the loop's frame

  /** The `multiprocessing.Queue` of jobs. */
  class JobQueue {
    var items: seq<Job>

    constructor ()
      ensures items == []
    {
      items := [];
    }

    /** `put`: append at the tail. */
    method Put(job: Job)
      modifies this
      ensures items == old(items) + [job]
    {
      items := items + [job];
    }

    /** `get`: take the head; `None` stands for waiting on an empty queue. */
    method Get() returns (job: Option<Job>)
      modifies this
      ensures old(items) == [] ==> job == Option.None && items == []
      ensures old(items) != [] ==> job == Some(old(items)[0]) && items == old(items)[1..]
    {
      if items == [] {
        job := Option.None;
      } else {
        job := Some(items[0]);
        items := items[1..];
      }
    }
  }

  /** The operating system's view of the worker processes: the started
      workers (a handle is an index into `workers`), which are alive, and
      every `terminate` call made, in order. */
  class ProcessTable {
    var workers: seq<Worker>
    var alive: set<Handle>
    var terminateCalls: seq<Handle>

    constructor ()
      ensures workers == [] && alive == {} && terminateCalls == []
    {
      workers, alive, terminateCalls := [], {}, [];
    }

    /** `p.is_alive()` */
    method IsAlive(h: Handle) returns (b: bool)
      ensures b <==> h in alive
    {
      b := h in alive;
    }

    /** `p.terminate()`: harmless on a process that has already exited. */
    method Terminate(h: Handle)
      modifies this
      ensures alive == old(alive) - {h}
      ensures terminateCalls == old(terminateCalls) + [h] && workers == old(workers)
    {
      alive := alive - {h};
      terminateCalls := terminateCalls + [h];
    }

    /** `Process(...)` followed by `p.start()`. */
    method Start(w: Worker) returns (h: Handle)
      modifies this
      ensures h == |old(workers)| && workers == old(workers) + [w]
      ensures alive == old(alive) + {h} && terminateCalls == old(terminateCalls)
    {
      h := |workers|;
      workers := workers + [w];
      alive := alive + {h};
    }

    /** A worker finishing on its own (outside the manager's control). */
    method Exit(h: Handle)
      modifies this
      ensures alive == old(alive) - {h}
      ensures workers == old(workers) && terminateCalls == old(terminateCalls)
    {
      alive := alive - {h};
    }
  }

  /** The `ProcessManager` object: the job queue, and the process table its
      background process manipulates. Starting that background process is
      not modelled; `WorkLoop` stands for what it runs. */
  class ProcessManager {
    const queue: JobQueue
    const os: ProcessTable

    constructor (os: ProcessTable)
      ensures fresh(queue) && queue.items == [] && this.os == os
    {
      queue := new JobQueue();
      this.os := os;
    }

    /** `add_process`: the job goes to the tail of the queue. */
    method AddProcess(job: Job)
      modifies queue
      ensures queue.items == old(queue.items) + [job]
    {
      queue.Put(job);
    }

    /** `drain_pool`: keep the live handles in order and terminate the
        others; liveness does not change while the pool is drained. */
    method DrainPool(poolName: string, pool: seq<Handle>) returns (newPool: seq<Handle>)
      modifies os
      ensures newPool == AliveOnly(pool, old(os.alive))
      ensures os.terminateCalls == old(os.terminateCalls) + DeadOnly(pool, old(os.alive))
      ensures os.alive == old(os.alive) && os.workers == old(os.workers)
    {
      newPool := [];
      for i := 0 to |pool|
        invariant newPool == AliveOnly(pool[..i], old(os.alive))
        invariant os.terminateCalls == old(os.terminateCalls) + DeadOnly(pool[..i], old(os.alive))
        invariant os.alive == old(os.alive) && os.workers == old(os.workers)
      {
        assert pool[..i + 1][..i] == pool[..i];
        var p := pool[i];
        var isAlive := os.IsAlive(p);
        if !isAlive {
          os.Terminate(p);
        } else {
          newPool := newPool + [p];
        }
      }
      assert pool[..|pool|] == pool;
    }
  }

  /** The frame of the `work_vili` coroutine: its two pools, shared with the
      `sig_handler` closure. */
  class WorkLoop {
    const manager: ProcessManager
    const revision: Revision
    var cpuPool: seq<Handle>
    var gpuPool: seq<Handle>

    constructor (manager: ProcessManager, revision: Revision)
      ensures this.manager == manager && this.revision == revision
      ensures cpuPool == [] && gpuPool == []
    {
      this.manager := manager;
      this.revision := revision;
      cpuPool, gpuPool := [], [];
    }

    ghost function State(): LoopState
      reads this, manager, manager.queue, manager.os
    {
      LoopState(manager.queue.items, cpuPool, gpuPool,
                manager.os.workers, manager.os.alive, manager.os.terminateCalls)
    }

    /** One pass of the `while True` body. */
    method Iterate(q: GpuQuery) returns (r: StepResult)
      modifies this, manager.queue, manager.os
      ensures (State(), r) == Step(revision, old(State()), q)
    {
      ghost var s := State();
      DrainPools();
      r := Dispatch(s, q);
    }

    /** Lines 138-139: both pools reassigned from `drain_pool`. */
    method DrainPools()
      modifies this, manager.os
      ensures State() == Drain(revision, old(State()))
    {
      cpuPool := manager.DrainPool("CPU Pool", cpuPool);
      var source := if revision == AsWritten then cpuPool else gpuPool;
      gpuPool := manager.DrainPool("gpu Pool", source);
    }

    /** Lines 141-161, after the drain: take the head job and start its
        worker. */
    method Dispatch(ghost s: LoopState, q: GpuQuery) returns (r: StepResult)
      requires State() == Drain(revision, s)
      modifies this, manager.queue, manager.os
      ensures (State(), r) == Step(revision, s, q)
    {
      var job := manager.queue.Get();
      if job.None? {
        return Blocked;
      }
      if job.value.Falsy? {
        return Skipped;
      }
      var config := GetDeviceConfig(q);
      var data := job.value.data["device_config" := config];
      if !config.Dict? {
        return Raised(AttributeError("get"));
      }
      if SelectsGpu(config) {
        var name := WorkerName(Gpu, |gpuPool| + 1);
        var p := manager.os.Start(Worker(name, job.value.target, data));
        gpuPool := gpuPool + [p];
        r := Dispatched(p, Gpu);
      } else {
        var n := if revision == Corrected then |cpuPool| + 1 else |gpuPool| + 1;
        var name := WorkerName(Cpu, n);
        var p := manager.os.Start(Worker(name, job.value.target, data));
        cpuPool := cpuPool + [p];
        r := Dispatched(p, Cpu);
      }
    }

    /** The `while True` loop, fed one GPU query outcome per iteration; it
        returns when the queue is empty, an exception escapes, or the
        outcomes run out. */
    method WorkVili(qs: seq<GpuQuery>)
      modifies this, manager.queue, manager.os
      ensures State() == Run(revision, old(State()), qs)
    {
      var i := 0;
      while i < |qs|
        invariant 0 <= i <= |qs|
        invariant Run(revision, State(), qs[i..]) == Run(revision, old(State()), qs)
      {
        ghost var before := State();
        var r := Iterate(qs[i]);
        assert qs[i..][1..] == qs[i + 1..];
        if r.Blocked? || r.Raised? {
          return;
        }
        i := i + 1;
      }
    }

    /** `empty_process_pool`: terminate every handle, alive or not. */
    method EmptyProcessPool(pool: seq<Handle>)
      modifies manager.os
      ensures manager.os.terminateCalls == old(manager.os.terminateCalls) + pool
      ensures manager.os.alive == old(manager.os.alive) - (set h | h in pool)
      ensures manager.os.workers == old(manager.os.workers)
    {
      for i := 0 to |pool|
        invariant manager.os.terminateCalls == old(manager.os.terminateCalls) + pool[..i]
        invariant manager.os.alive == old(manager.os.alive) - (set h | h in pool[..i])
        invariant manager.os.workers == old(manager.os.workers)
      {
        assert pool[..i + 1] == pool[..i] + [pool[i]];
        manager.os.Terminate(pool[i]);
      }
      assert pool[..|pool|] == pool;
    }

    /** `sig_handler`: empty the CPU pool, then the GPU pool (the
        `sys.exit()` that follows is not modelled). */
    method SigHandler()
      modifies manager.os
      ensures State() == Shutdown(old(State()))
    {
      EmptyProcessPool(cpuPool);
      EmptyProcessPool(gpuPool);
    }
  }
}
