/** The orchestrator side of the worker-thread pool of pool-real.ts: a FIFO
    queue of load and inference tasks, a table of workers with a busy flag, and
    a registry of loaded models. Each worker event (online, reply) is a method
    call; a promise is a settle-once record addressed by a handle.

    Each handler of the class `Pool` is specified by a function on a value of
    `PoolState`, and the lemmas about those functions state what the scheduler
    promises: the first idle worker gets the first eligible task, an inference
    waits until its model is registered, a busy worker is never handed a second
    task, and the number of workers stays within the configured bound. */
module PoolReal {
  import opened Js
  import opened Runtime

  datatype TaskKind = Load | Infer

  /** What a caller passes to `queueTask`. */
  datatype TaskRequest = LoadRequest(params: FullParams) | InferRequest(path: string, inputs: Inputs)

  /** A task in the queue or in a worker's listener, with the handle of the
      promise it settles. An inference task gets the registry's parameters
      when it is dispatched. */
  datatype PoolTask =
    | LoadTask(params: FullParams, promise: nat)
    | InferTask(path: string, inputs: Inputs, modelParams: Option<FullParams>, promise: nat)

  /** The message posted to a worker. */
  datatype Message = Message(kind: TaskKind, params: Option<FullParams>, inputs: Option<Inputs>)

  /** A worker's reply; `error` is the value the worker caught, tested for
      truthiness as `if (value.error)` does (an empty one counts as no error). */
  datatype Reply = Reply(kind: TaskKind, error: Option<string>, data: Option<Logits>)

  /** A settle-once promise. */
  datatype Settlement = Pending | Resolved(data: Option<Logits>) | Rejected(error: string)

  /** An entry `[worker, busy]` of the worker table; a worker is known by its thread id. */
  datatype Worker = Worker(threadId: nat, busy: bool)

  datatype PoolState = PoolState(
    workers: seq<Worker>,
    queue: seq<PoolTask>,
    models: map<string, FullParams>,
    listeners: map<nat, seq<PoolTask>>,   // the once-listeners waiting for each worker's reply
    online: set<nat>,                     // workers whose online listener has not fired yet
    promises: map<nat, Settlement>,
    posted: seq<(nat, Message)>,          // every message posted, with its worker
    nextThreadId: nat,
    nextPromise: nat,
    minThreads: int,
    maxThreads: int)

  function Max(a: int, b: int): int {
    if a < b then b else a
  }

  /** The largest size the pool may reach: the constructor adds `minThreads`
      workers and growth stops at `maxThreads`. */
  function Bound(s: PoolState): int {
    Max(0, Max(s.minThreads, s.maxThreads))
  }

  function ParamsOf(t: PoolTask): Option<FullParams> {
    if t.LoadTask? then Some(t.params) else t.modelParams
  }

  function Lookup(m: map<string, FullParams>, k: string): (r: Option<FullParams>)
    ensures r.Some? <==> k in m
    ensures r.Some? ==> r.value == m[k]
  {
    if k in m then Some(m[k]) else None
  }

  function ListenersOf(s: PoolState, w: nat): seq<PoolTask> {
    if w in s.listeners then s.listeners[w] else []
  }

  function Ids(ws: seq<Worker>): (r: seq<nat>)
    ensures |r| == |ws| && forall i :: 0 <= i < |ws| ==> r[i] == ws[i].threadId
  {
    seq(|ws|, i requires 0 <= i < |ws| => ws[i].threadId)
  }

  /** Resolving or rejecting a promise that is already settled changes nothing. */
  function Settle(p: map<nat, Settlement>, h: nat, v: Settlement): map<nat, Settlement> {
    if h in p && p[h].Pending? then p[h := v] else p
  }

  lemma SettleOnce(p: map<nat, Settlement>, h: nat, v: Settlement, v': Settlement)
    requires !v.Pending?
    ensures Settle(Settle(p, h, v), h, v') == Settle(p, h, v)
    ensures h in p && p[h].Pending? ==> Settle(Settle(p, h, v), h, v')[h] == v
    // settling creates no promise and touches no other one
    ensures Settle(p, h, v).Keys == p.Keys
    ensures forall k :: k in p && k != h ==> Settle(p, h, v)[k] == p[k]
  {
  }

  // ---------------------------------------------------------------- the worker table

  /** The outcome of the scan in `getWorker`: the index of the first idle
      worker, or -1. */
  function FirstIdle(ws: seq<Worker>): (r: int)
    ensures -1 <= r < |ws|
    ensures r == -1 <==> forall i :: 0 <= i < |ws| ==> ws[i].busy
    ensures r >= 0 ==> !ws[r].busy && forall i :: 0 <= i < r ==> ws[i].busy
  {
    if ws == [] then -1
    else if !ws[0].busy then 0
    else
      var k := FirstIdle(ws[1..]);
      if k == -1 then -1 else k + 1
  }

  /** `ws[i]` is the first entry of the table with thread id `id`. */
  predicate FirstWithId(ws: seq<Worker>, i: int, id: nat) {
    0 <= i < |ws| && ws[i].threadId == id && forall j :: 0 <= j < i ==> ws[j].threadId != id
  }

  /** The effect of `toggleWorkerStatus`: the first entry with the thread id
      gets the new status; every other entry is unchanged. */
  function SetStatus(ws: seq<Worker>, id: nat, busy: bool): (r: seq<Worker>)
    ensures |r| == |ws|
    ensures forall i :: 0 <= i < |ws| ==> r[i] == if FirstWithId(ws, i, id) then Worker(id, busy) else ws[i]
  {
    if ws == [] then []
    else if ws[0].threadId == id then [Worker(id, busy)] + ws[1..]
    else
      var rest := SetStatus(ws[1..], id, busy);
      assert forall i :: 1 <= i < |ws| ==> (FirstWithId(ws, i, id) <==> FirstWithId(ws[1..], i - 1, id));
      [ws[0]] + rest
  }

  predicate Distinct(xs: seq<nat>) {
    forall i, j :: 0 <= i < j < |xs| ==> xs[i] != xs[j]
  }

  predicate UniqueIds(ws: seq<Worker>) {
    Distinct(Ids(ws))
  }

  predicate AllBelow(xs: seq<nat>, n: nat) {
    forall i :: 0 <= i < |xs| ==> xs[i] < n
  }

  /** With unique thread ids, the toggle changes exactly the entry of that id. */
  lemma SetStatusUnique(ws: seq<Worker>, id: nat, busy: bool)
    requires UniqueIds(ws)
    ensures var r := SetStatus(ws, id, busy);
            forall i :: 0 <= i < |ws| ==> r[i] == if ws[i].threadId == id then Worker(id, busy) else ws[i]
    ensures Ids(SetStatus(ws, id, busy)) == Ids(ws)
  {
    var r := SetStatus(ws, id, busy);
    forall i | 0 <= i < |ws| && ws[i].threadId == id
      ensures FirstWithId(ws, i, id)
    {
      forall j | 0 <= j < i ensures ws[j].threadId != id {
        assert Ids(ws)[j] != Ids(ws)[i];
      }
    }
  }

  function AddWorkerSpec(s: PoolState): (r: PoolState)
  {
    s.(workers := s.workers + [Worker(s.nextThreadId, false)],
       listeners := s.listeners[s.nextThreadId := []],
       online := s.online + {s.nextThreadId},
       nextThreadId := s.nextThreadId + 1)
  }

  /** `getWorker`: the first idle worker, and the state after it; with no idle
      worker and room left, a new worker is added but none is returned. */
  function GetWorkerSpec(s: PoolState): (PoolState, Option<nat>) {
    var i := FirstIdle(s.workers);
    if i >= 0 then (s, Some(s.workers[i].threadId))
    else if |s.workers| < s.maxThreads then (AddWorkerSpec(s), None)
    else (s, None)
  }

  // ---------------------------------------------------------------- dispatch

  /** Tasks that `runNextTask` may dispatch: loads always, inferences once
      their model is registered. */
  predicate Eligible(t: PoolTask, models: map<string, FullParams>) {
    t.LoadTask? || t.path in models
  }

  /** `queue.findIndex(...)` with the eligibility test. */
  function FirstEligible(q: seq<PoolTask>, models: map<string, FullParams>): (r: int)
    ensures -1 <= r < |q|
    ensures r == -1 <==> forall i :: 0 <= i < |q| ==> !Eligible(q[i], models)
    ensures r >= 0 ==> Eligible(q[r], models) && forall i :: 0 <= i < r ==> !Eligible(q[i], models)
  {
    if q == [] then -1
    else if Eligible(q[0], models) then 0
    else
      var k := FirstEligible(q[1..], models);
      if k == -1 then -1 else k + 1
  }

  /** `queue.splice(i, 1)` */
  function RemoveAt<T>(q: seq<T>, i: nat): (r: seq<T>)
    requires i < |q|
    ensures |r| == |q| - 1
    ensures forall j :: 0 <= j < i ==> r[j] == q[j]
    ensures forall j :: i <= j < |r| ==> r[j] == q[j + 1]
    ensures multiset(r) + multiset{q[i]} == multiset(q)
  {
    assert q == q[..i] + [q[i]] + q[i + 1..];
    q[..i] + q[i + 1..]
  }

  /** The task as it leaves the queue: an inference takes the registered parameters. */
  function Assign(t: PoolTask, models: map<string, FullParams>): PoolTask {
    if t.InferTask? then t.(modelParams := Lookup(models, t.path)) else t
  }

  function MessageOf(t: PoolTask): Message {
    if t.LoadTask? then Message(Load, Some(t.params), None)
    else Message(Infer, t.modelParams, Some(t.inputs))
  }

  /** Dispatch of queue entry `k` to worker `w`: the worker is marked busy,
      the task leaves the queue, a once-listener waits for the reply, and the
      task's message is posted. */
  function Dispatch(s: PoolState, w: nat, k: nat): (r: PoolState)
    requires k < |s.queue|
    ensures r.promises == s.promises && r.models == s.models
  {
    var t := Assign(s.queue[k], s.models);
    s.(workers := SetStatus(s.workers, w, true),
       queue := RemoveAt(s.queue, k),
       listeners := s.listeners[w := ListenersOf(s, w) + [t]],
       posted := s.posted + [(w, MessageOf(t))])
  }

  /** `runNextTask` */
  function RunNext(s: PoolState): (r: PoolState)
    ensures r.promises == s.promises && r.models == s.models
  {
    var i := FirstIdle(s.workers);
    if i == -1 then GetWorkerSpec(s).0
    else
      var k := FirstEligible(s.queue, s.models);
      if k == -1 then s else Dispatch(s, s.workers[i].threadId, k)
  }

  /** The queue step of `queueTask`, before the dispatch attempt. */
  function Enqueue(s: PoolState, req: TaskRequest): PoolState {
    var h := s.nextPromise;
    var t := match req
      case LoadRequest(p) => LoadTask(p, h)
      case InferRequest(path, inputs) => InferTask(path, inputs, None, h);
    s.(queue := s.queue + [t], promises := s.promises[h := Pending], nextPromise := h + 1)
  }

  /** `queueTask`: the promise's handle is `s.nextPromise`. */
  function QueueTaskSpec(s: PoolState, req: TaskRequest): PoolState {
    RunNext(Enqueue(s, req))
  }

  // ---------------------------------------------------------------- events

  /** The end of every reply listener: the worker is idle again and the next
      task is dispatched. */
  function Release(s: PoolState, w: nat): (r: PoolState)
    ensures r.promises == s.promises && r.models == s.models
  {
    RunNext(s.(workers := SetStatus(s.workers, w, false)))
  }

  /** One once-listener of `runNextTask` receiving a reply from worker `w`. */
  function HandleReply(s: PoolState, w: nat, t: PoolTask, reply: Reply): PoolState {
    var s1 := if Truthy(reply.error) then s.(promises := Settle(s.promises, t.promise, Rejected(reply.error.value)))
              else s;
    if reply.kind == Load then
      match ParamsOf(t)
      case None => s1   // reading `task.params!.path` throws; the listener stops there
      case Some(p) =>
        Release(s1.(models := s1.models[p.path := p],
                    promises := Settle(s1.promises, t.promise, Resolved(None))), w)
    else
      Release(s1.(promises := Settle(s1.promises, t.promise, Resolved(reply.data))), w)
  }

  /** The listeners of one message, called in registration order. */
  function HandleAll(s: PoolState, w: nat, ts: seq<PoolTask>, reply: Reply): PoolState
    decreases |ts|
  {
    if ts == [] then s else HandleAll(HandleReply(s, w, ts[0], reply), w, ts[1..], reply)
  }

  /** A "message" event on worker `w`: every once-listener registered so far is
      removed and called. */
  function OnMessageSpec(s: PoolState, w: nat, reply: Reply): PoolState {
    if w !in s.listeners then s
    else HandleAll(s.(listeners := s.listeners[w := []]), w, s.listeners[w], reply)
  }

  /** The "online" event as written: the worker is marked idle whatever it is doing. */
  function OnOnlineAsWritten(s: PoolState, w: nat): PoolState {
    if w !in s.online then s
    else RunNext(s.(online := s.online - {w}, workers := SetStatus(s.workers, w, false)))
  }

  /** The "online" event as intended: a worker enters the table idle already,
      so coming online only triggers a dispatch attempt. */
  function OnOnlineSpec(s: PoolState, w: nat): PoolState {
    if w !in s.online then s
    else RunNext(s.(online := s.online - {w}))
  }

  function Empty(minThreads: int, maxThreads: int): PoolState {
    PoolState([], [], map[], map[], {}, map[], [], 0, 0, minThreads, maxThreads)
  }

  function AddWorkers(s: PoolState, n: nat): PoolState {
    if n == 0 then s else AddWorkerSpec(AddWorkers(s, n - 1))
  }

  /** The constructor: `minThreads` (default 1) idle workers, at most 5 by default. */
  function Initial(minThreads: Option<int>, maxThreads: Option<int>): PoolState {
    var lo := minThreads.GetOr(1);
    AddWorkers(Empty(lo, maxThreads.GetOr(5)), Max(0, lo))
  }

  // ---------------------------------------------------------------- invariants

  predicate AllAssigned(ts: seq<PoolTask>) {
    forall k :: 0 <= k < |ts| ==> ParamsOf(ts[k]).Some?
  }

  /** Structural well-formedness, kept by every handler. */
  predicate Wf(s: PoolState) {
    && UniqueIds(s.workers)
    && AllBelow(Ids(s.workers), s.nextThreadId)
    && (forall k :: k in s.listeners ==> AllAssigned(s.listeners[k]))
    && |s.workers| <= Bound(s)
  }

  /** No worker ever has two tasks waiting for its reply, and a worker is busy
      exactly when one task is. */
  predicate Exclusive(s: PoolState) {
    && (forall k :: k in s.listeners ==> |s.listeners[k]| <= 1)
    && (forall i :: 0 <= i < |s.workers| ==> WorkerExclusive(s, s.workers[i]))
  }

  predicate WorkerExclusive(s: PoolState, x: Worker) {
    x.busy <==> |ListenersOf(s, x.threadId)| == 1
  }

  predicate Valid(s: PoolState) {
    Wf(s) && Exclusive(s)
  }

  lemma {:induction false} AddWorkersShape(s: PoolState, n: nat)
    requires Valid(s) && |s.workers| + n <= Bound(s)
    ensures var r := AddWorkers(s, n);
            && Valid(r) && |r.workers| == |s.workers| + n
            && r.workers[..|s.workers|] == s.workers
            && (forall i :: |s.workers| <= i < |r.workers| ==> !r.workers[i].busy)
            && r.queue == s.queue && r.models == s.models && r.promises == s.promises
            && r.minThreads == s.minThreads && r.maxThreads == s.maxThreads
  {
    if n > 0 {
      AddWorkersShape(s, n - 1);
      AddWorkerValid(AddWorkers(s, n - 1));
    }
  }

  /** A new worker enters the table idle, with no listener. */
  lemma AddWorkerValid(s: PoolState)
    requires Valid(s) && |s.workers| < Bound(s)
    ensures var r := AddWorkerSpec(s);
            Valid(r) && |r.workers| == |s.workers| + 1 && r.workers[..|s.workers|] == s.workers
            && !r.workers[|s.workers|].busy && ListenersOf(r, s.nextThreadId) == []
  {
    var r := AddWorkerSpec(s);
    assert Ids(r.workers) == Ids(s.workers) + [s.nextThreadId];
    forall i | 0 <= i < |s.workers| ensures ListenersOf(r, r.workers[i].threadId) == ListenersOf(s, s.workers[i].threadId) {
      assert r.workers[i] == s.workers[i];
    }
  }

  /** The pool starts with `minThreads` (default 1) idle workers and nothing queued. */
  lemma InitialValid(minThreads: Option<int>, maxThreads: Option<int>)
    ensures var s := Initial(minThreads, maxThreads);
            && Valid(s) && |s.workers| == Max(0, minThreads.GetOr(1))
            && (forall i :: 0 <= i < |s.workers| ==> !s.workers[i].busy)
            && s.queue == [] && s.models == map[] && s.promises == map[]
  {
    var e := Empty(minThreads.GetOr(1), maxThreads.GetOr(5));
    AddWorkersShape(e, Max(0, minThreads.GetOr(1)));
  }

  /** Dispatch to an idle worker keeps the invariant: the worker had no
      listener and leaves busy with exactly one. */
  lemma DispatchValid(s: PoolState, i: nat, k: nat)
    requires Valid(s) && i < |s.workers| && !s.workers[i].busy
    requires k < |s.queue| && Eligible(s.queue[k], s.models)
    ensures var r := Dispatch(s, s.workers[i].threadId, k);
            && Valid(r)
            && r.workers == s.workers[i := Worker(s.workers[i].threadId, true)]
            && r.listeners == s.listeners[s.workers[i].threadId := [Assign(s.queue[k], s.models)]]
  {
    var w := s.workers[i].threadId;
    var t := Assign(s.queue[k], s.models);
    var r := Dispatch(s, w, k);
    SetStatusUnique(s.workers, w, true);
    assert WorkerExclusive(s, s.workers[i]);
    assert ListenersOf(s, w) == [];
    assert ListenersOf(s, w) + [t] == [t];
    assert r.workers == s.workers[i := Worker(w, true)];
    assert Ids(r.workers) == Ids(s.workers);
    assert AllAssigned([t]);
    forall j | 0 <= j < |r.workers|
      ensures WorkerExclusive(r, r.workers[j])
    {
      if j != i {
        assert Ids(s.workers)[j] != Ids(s.workers)[i];
        assert WorkerExclusive(s, s.workers[j]);
      }
    }
  }

  /** `runNextTask` keeps the invariant. */
  lemma RunNextValid(s: PoolState)
    requires Valid(s)
    ensures Valid(RunNext(s))
  {
    var i := FirstIdle(s.workers);
    if i == -1 {
      if |s.workers| < s.maxThreads {
        AddWorkerValid(s);
      }
    } else {
      var k := FirstEligible(s.queue, s.models);
      if k != -1 {
        DispatchValid(s, i, k);
      }
    }
  }

  /** What `runNextTask` does, case by case. A task leaves the queue only by
      being dispatched, and then it is the first eligible one, the worker is the
      first idle one, the rest of the queue keeps its order, and an inference
      carries the registry's parameters for its path. With no idle worker the
      pool may grow by one idle worker, but nothing is dispatched. */
  lemma RunNextCases(s: PoolState)
    requires Valid(s)
    ensures var r := RunNext(s);
            var i := FirstIdle(s.workers);
            var k := FirstEligible(s.queue, s.models);
            && (i == -1 ==> && r.queue == s.queue && r.posted == s.posted && r.listeners.Keys >= s.listeners.Keys
                            && (|s.workers| < s.maxThreads ==>
                                  r.workers == s.workers + [Worker(s.nextThreadId, false)])
                            && (|s.workers| >= s.maxThreads ==> r == s))
            && (i >= 0 && k == -1 ==> r == s)
            && (i >= 0 && k >= 0 ==>
                  var w := s.workers[i].threadId;
                  && r.queue == RemoveAt(s.queue, k)
                  && r.workers == s.workers[i := Worker(w, true)]
                  && r.listeners == s.listeners[w := [Assign(s.queue[k], s.models)]]
                  && r.posted == s.posted + [(w, MessageOf(Assign(s.queue[k], s.models)))]
                  && (s.queue[k].InferTask? ==>
                        s.queue[k].path in s.models
                        && Assign(s.queue[k], s.models).modelParams == Some(s.models[s.queue[k].path])))
  {
    var i := FirstIdle(s.workers);
    var k := FirstEligible(s.queue, s.models);
    if i >= 0 && k >= 0 {
      DispatchValid(s, i, k);
    }
  }

  /** Releasing a worker whose listener has just been removed keeps the invariant. */
  lemma ReleaseValid(s: PoolState, w: nat)
    requires Wf(s) && ListenersOf(s, w) == [] && forall k :: k in s.listeners ==> |s.listeners[k]| <= 1
    requires forall i :: 0 <= i < |s.workers| && s.workers[i].threadId != w ==> WorkerExclusive(s, s.workers[i])
    ensures Valid(Release(s, w))
  {
    var s' := s.(workers := SetStatus(s.workers, w, false));
    SetStatusUnique(s.workers, w, false);
    assert Ids(s'.workers) == Ids(s.workers);
    forall j | 0 <= j < |s'.workers| ensures WorkerExclusive(s', s'.workers[j]) {
    }
    RunNextValid(s');
  }

  /** The queue grows by the new task at its end, with a fresh pending promise,
      and the invariant is kept. */
  lemma QueueTaskValid(s: PoolState, req: TaskRequest)
    requires Valid(s)
    ensures var e := Enqueue(s, req);
            && |e.queue| == |s.queue| + 1 && e.queue[..|s.queue|] == s.queue
            && e.queue[|s.queue|].promise == s.nextPromise
            && e.promises == s.promises[s.nextPromise := Pending]
            && (req.LoadRequest? <==> e.queue[|s.queue|].LoadTask?)
    ensures Valid(QueueTaskSpec(s, req))
  {
    var e := Enqueue(s, req);
    assert Valid(e) by {
      forall j | 0 <= j < |e.workers| ensures WorkerExclusive(e, e.workers[j]) {
        assert WorkerExclusive(s, s.workers[j]);
      }
    }
    RunNextValid(e);
  }

  /** A reply whose worker waits for exactly one task: the handler returns
      the worker to idle and dispatches again. */
  lemma HandleReplyValid(s: PoolState, w: nat, t: PoolTask, reply: Reply)
    requires Wf(s) && ListenersOf(s, w) == [] && ParamsOf(t).Some?
    requires forall k :: k in s.listeners ==> |s.listeners[k]| <= 1
    requires forall i :: 0 <= i < |s.workers| && s.workers[i].threadId != w ==> WorkerExclusive(s, s.workers[i])
    ensures Valid(HandleReply(s, w, t, reply))
  {
    var s1 := if Truthy(reply.error) then s.(promises := Settle(s.promises, t.promise, Rejected(reply.error.value)))
              else s;
    var p := ParamsOf(t).value;
    var s2 := if reply.kind == Load
              then s1.(models := s1.models[p.path := p], promises := Settle(s1.promises, t.promise, Resolved(None)))
              else s1.(promises := Settle(s1.promises, t.promise, Resolved(reply.data)));
    assert HandleReply(s, w, t, reply) == Release(s2, w);
    assert forall i :: 0 <= i < |s2.workers| && s2.workers[i].threadId != w ==>
      WorkerExclusive(s2, s2.workers[i]) by {
      forall i | 0 <= i < |s2.workers| && s2.workers[i].threadId != w ensures WorkerExclusive(s2, s2.workers[i]) {
        assert WorkerExclusive(s, s.workers[i]);
      }
    }
    ReleaseValid(s2, w);
  }

  /** Every reply keeps the invariant. */
  lemma OnMessageValid(s: PoolState, w: nat, reply: Reply)
    requires Valid(s)
    ensures Valid(OnMessageSpec(s, w, reply))
  {
    if w in s.listeners {
      var ts := s.listeners[w];
      var s' := s.(listeners := s.listeners[w := []]);
      if ts == [] {
        assert s.listeners[w := []] == s.listeners;
      } else {
        assert |ts| == 1 && ts[1..] == [];
        forall j | 0 <= j < |s'.workers| && s'.workers[j].threadId != w
          ensures WorkerExclusive(s', s'.workers[j])
        {
          assert WorkerExclusive(s, s.workers[j]);
        }
        HandleReplyValid(s', w, ts[0], reply);
        assert OnMessageSpec(s, w, reply) == HandleAll(HandleReply(s', w, ts[0], reply), w, [], reply);
      }
    }
  }

  /** The corrected online event keeps the invariant. */
  lemma OnOnlineValid(s: PoolState, w: nat)
    requires Valid(s)
    ensures Valid(OnOnlineSpec(s, w))
  {
    if w in s.online {
      var s' := s.(online := s.online - {w});
      assert Valid(s') by {
        forall j | 0 <= j < |s'.workers| ensures WorkerExclusive(s', s'.workers[j]) {
          assert WorkerExclusive(s, s.workers[j]);
        }
      }
      RunNextValid(s');
    }
  }

  /** A load reply registers the model even when it carries an error; the
      task's promise is rejected when the reply has an error and resolved
      otherwise. */
  lemma LoadReplyRegisters(s: PoolState, w: nat, p: FullParams, h: nat, error: Option<string>)
    requires w in s.listeners && s.listeners[w] == [LoadTask(p, h)]
    requires h in s.promises && s.promises[h].Pending?
    ensures var r := OnMessageSpec(s, w, Reply(Load, error, None));
            && r.models == s.models[p.path := p]
            && r.promises == s.promises[h := if Truthy(error) then Rejected(error.value) else Resolved(None)]
  {
    var r := Reply(Load, error, None);
    var s' := s.(listeners := s.listeners[w := []]);
    var t := LoadTask(p, h);
    var s1 := if Truthy(error) then s'.(promises := Settle(s'.promises, h, Rejected(error.value))) else s';
    var s2 := s1.(models := s1.models[p.path := p], promises := Settle(s1.promises, h, Resolved(None)));
    assert HandleReply(s', w, t, r) == Release(s2, w);
    assert [t][1..] == [];
    assert OnMessageSpec(s, w, r) == HandleAll(HandleReply(s', w, t, r), w, [], r);
  }

  /** An inference reply resolves the task's promise with the logits, or
      rejects it, and leaves the registry alone. */
  lemma InferReplyResolves(s: PoolState, w: nat, t: PoolTask, error: Option<string>, data: Option<Logits>)
    requires w in s.listeners && s.listeners[w] == [t]
    requires t.promise in s.promises && s.promises[t.promise].Pending?
    ensures var r := OnMessageSpec(s, w, Reply(Infer, error, data));
            && r.models == s.models
            && r.promises == s.promises[t.promise := if Truthy(error) then Rejected(error.value) else Resolved(data)]
  {
    var r := Reply(Infer, error, data);
    var s' := s.(listeners := s.listeners[w := []]);
    var s1 := if Truthy(error) then s'.(promises := Settle(s'.promises, t.promise, Rejected(error.value))) else s';
    var s2 := s1.(promises := Settle(s1.promises, t.promise, Resolved(data)));
    assert HandleReply(s', w, t, r) == Release(s2, w);
    assert [t][1..] == [];
    assert OnMessageSpec(s, w, r) == HandleAll(HandleReply(s', w, t, r), w, [], r);
  }

  const W0Idle := Worker(0, false)
  const W0Busy := Worker(0, true)

  function Start(): PoolState {
    PoolState([W0Idle], [], map[], map[0 := []], {0}, map[], [], 1, 0, 1, 5)
  }

  lemma InitialDefaults()
    ensures Initial(None, None) == Start()
  {
    assert AddWorkers(Empty(1, 5), 1) == AddWorkerSpec(Empty(1, 5));
  }

  /** The first load of the scenarios below, queued on a fresh default pool:
      it goes to worker 0 at once. */
  function AfterFirstLoad(a: FullParams): PoolState {
    PoolState([W0Busy], [], map[], map[0 := [LoadTask(a, 0)]], {0}, map[0 := Pending],
              [(0, Message(Load, Some(a), None))], 1, 1, 1, 5)
  }

  lemma FirstLoadDispatched(a: FullParams)
    ensures QueueTaskSpec(Start(), LoadRequest(a)) == AfterFirstLoad(a)
  {
    var e := Enqueue(Start(), LoadRequest(a));
    assert e.queue == [LoadTask(a, 0)];
    assert FirstIdle(e.workers) == 0;
    assert FirstEligible(e.queue, e.models) == 0;
    assert SetStatus(e.workers, 0, true) == [W0Busy];
    assert RemoveAt(e.queue, 0) == [];
    assert ListenersOf(e, 0) + [LoadTask(a, 0)] == [LoadTask(a, 0)];
    assert e.listeners[0 := [LoadTask(a, 0)]] == map[0 := [LoadTask(a, 0)]];
  }

  /** As written, worker 0 coming online is marked idle though its load is running. */
  lemma OnlineAsWrittenFrees(a: FullParams)
    ensures OnOnlineAsWritten(AfterFirstLoad(a), 0) == AfterFirstLoad(a).(online := {}, workers := [W0Idle])
  {
    var u := AfterFirstLoad(a).(online := {}, workers := [W0Idle]);
    assert AfterFirstLoad(a).online - {0} == {};
    assert SetStatus([W0Busy], 0, false) == [W0Idle];
    assert FirstIdle(u.workers) == 0;
    assert FirstEligible(u.queue, u.models) == -1;
  }

  /** The second load is then handed to the same worker. */
  lemma SecondLoadDoubled(a: FullParams, b: FullParams)
    ensures var s3 := QueueTaskSpec(AfterFirstLoad(a).(online := {}, workers := [W0Idle]), LoadRequest(b));
            s3.workers == [W0Busy] && s3.listeners == map[0 := [LoadTask(a, 0), LoadTask(b, 1)]]
  {
    var e := Enqueue(AfterFirstLoad(a).(online := {}, workers := [W0Idle]), LoadRequest(b));
    assert e.queue == [LoadTask(b, 1)];
    assert FirstIdle(e.workers) == 0;
    assert FirstEligible(e.queue, e.models) == 0;
    assert SetStatus(e.workers, 0, true) == [W0Busy];
    assert ListenersOf(e, 0) + [LoadTask(b, 1)] == [LoadTask(a, 0), LoadTask(b, 1)];
    assert e.listeners[0 := [LoadTask(a, 0), LoadTask(b, 1)]] == map[0 := [LoadTask(a, 0), LoadTask(b, 1)]];
  }

  /** A successful load reply resolves the load's promise, if still pending. */
  lemma LoadReplyResolves(s: PoolState, w: nat, p: FullParams, h: nat)
    ensures HandleReply(s, w, LoadTask(p, h), Reply(Load, None, None)).promises
            == Settle(s.promises, h, Resolved(None))
  {
  }

  /** Two listeners are called one after the other. */
  lemma HandleAllTwo(s: PoolState, w: nat, x: PoolTask, y: PoolTask, reply: Reply)
    ensures HandleAll(s, w, [x, y], reply) == HandleReply(HandleReply(s, w, x, reply), w, y, reply)
  {
    var s1 := HandleReply(s, w, x, reply);
    var s2 := HandleReply(s1, w, y, reply);
    assert [x, y][1..] == [y] && [y][1..] == [];
    assert HandleAll(s1, w, [y], reply) == HandleAll(s2, w, [], reply) == s2;
  }

  /** Worker 0's reply to the first load settles the second load's promise too. */
  lemma ReplySettlesBoth(s: PoolState, a: FullParams, b: FullParams)
    requires s.listeners == map[0 := [LoadTask(a, 0), LoadTask(b, 1)]] && s.promises == map[0 := Pending, 1 := Pending]
    ensures OnMessageSpec(s, 0, Reply(Load, None, None)).promises == map[0 := Resolved(None), 1 := Resolved(None)]
  {
    var r := Reply(Load, None, None);
    var t0 := s.(listeners := s.listeners[0 := []]);
    var t1 := HandleReply(t0, 0, LoadTask(a, 0), r);
    assert OnMessageSpec(s, 0, r) == HandleAll(t0, 0, [LoadTask(a, 0), LoadTask(b, 1)], r);
    HandleAllTwo(t0, 0, LoadTask(a, 0), LoadTask(b, 1), r);
    LoadReplyResolves(t0, 0, a, 0);
    LoadReplyResolves(t1, 0, b, 1);
    BothResolved(s.promises);
  }

  /** Settling both pending handles resolves both. */
  lemma BothResolved(p: map<nat, Settlement>)
    requires p == map[0 := Pending, 1 := Pending]
    ensures Settle(Settle(p, 0, Resolved(None)), 1, Resolved(None)) == map[0 := Resolved(None), 1 := Resolved(None)]
  {
    assert Settle(p, 0, Resolved(None)) == p[0 := Resolved(None)];
  }

  /** Finding: the online handler as written marks a worker idle even when it
      was dispatched before coming online. With the defaults (one worker), a
      load queued at once goes to worker 0; its online event then frees it, and
      a second load is handed to the same busy worker, whose reply to the first
      load then settles both promises. */
  lemma OnlineAsWrittenDoubleDispatch(a: FullParams, b: FullParams)
    ensures var s1 := QueueTaskSpec(Initial(None, None), LoadRequest(a));
            var s2 := OnOnlineAsWritten(s1, 0);
            var s3 := QueueTaskSpec(s2, LoadRequest(b));
            && Valid(s1)
            && s3.listeners == map[0 := [LoadTask(a, 0), LoadTask(b, 1)]]
            && !Valid(s3)
            && OnMessageSpec(s3, 0, Reply(Load, None, None)).promises == map[0 := Resolved(None), 1 := Resolved(None)]
  {
    InitialDefaults();
    InitialValid(None, None);
    FirstLoadDispatched(a);
    QueueTaskValid(Start(), LoadRequest(a));
    OnlineAsWrittenFrees(a);
    SecondLoadDoubled(a, b);
    var s3 := QueueTaskSpec(AfterFirstLoad(a).(online := {}, workers := [W0Idle]), LoadRequest(b));
    assert s3.promises == map[0 := Pending, 1 := Pending];
    assert |s3.listeners[0]| == 2;
    ReplySettlesBoth(s3, a, b);
  }

  /** With the corrected online event, worker 0 stays busy; the dispatch
      attempt grows the pool by worker 1, which then takes the second load. */
  lemma OnlineFixedSeparatesTasks(a: FullParams, b: FullParams)
    ensures var s1 := QueueTaskSpec(Initial(None, None), LoadRequest(a));
            var s2 := OnOnlineSpec(s1, 0);
            var s3 := QueueTaskSpec(s2, LoadRequest(b));
            && Valid(s3) && s3.listeners == map[0 := [LoadTask(a, 0)], 1 := [LoadTask(b, 1)]]
  {
    InitialDefaults();
    InitialValid(None, None);
    FirstLoadDispatched(a);
    QueueTaskValid(Start(), LoadRequest(a));
    var s1 := AfterFirstLoad(a);
    OnOnlineValid(s1, 0);
    var s2 := AddWorkerSpec(s1.(online := {}));
    FixedOnlineGrows(a);
    QueueTaskValid(s2, LoadRequest(b));
    SecondLoadSeparate(a, b);
  }

  lemma FixedOnlineGrows(a: FullParams)
    ensures OnOnlineSpec(AfterFirstLoad(a), 0) == AddWorkerSpec(AfterFirstLoad(a).(online := {}))
  {
    var u := AfterFirstLoad(a).(online := {});
    assert AfterFirstLoad(a).online - {0} == {};
    assert FirstIdle(u.workers) == -1;
  }

  /** The grown pool hands the second load to the new worker 1. */
  lemma SecondLoadToNewWorker(a: FullParams, b: FullParams)
    ensures var e := Enqueue(AddWorkerSpec(AfterFirstLoad(a).(online := {})), LoadRequest(b));
            && e.listeners == AfterFirstLoad(a).listeners[1 := []]
            && RunNext(e).listeners == e.listeners[1 := [LoadTask(b, 1)]]
  {
    var e := Enqueue(AddWorkerSpec(AfterFirstLoad(a).(online := {})), LoadRequest(b));
    assert e.workers == [W0Busy, Worker(1, false)];
    assert e.queue == [LoadTask(b, 1)];
    assert FirstIdle(e.workers) == 1;
    assert FirstEligible(e.queue, e.models) == 0;
    assert RunNext(e) == Dispatch(e, 1, 0);
    assert ListenersOf(e, 1) + [LoadTask(b, 1)] == [LoadTask(b, 1)];
  }

  lemma SecondLoadSeparate(a: FullParams, b: FullParams)
    ensures QueueTaskSpec(AddWorkerSpec(AfterFirstLoad(a).(online := {})), LoadRequest(b)).listeners
            == map[0 := [LoadTask(a, 0)], 1 := [LoadTask(b, 1)]]
  {
    SecondLoadToNewWorker(a, b);
    Overwritten([LoadTask(a, 0)], [], [LoadTask(b, 1)]);
  }

  /** A key set twice keeps the second value. */
  lemma Overwritten<V>(x: V, y: V, z: V)
    ensures map[0 := x][1 := y][1 := z] == map[0 := x, 1 := z]
  {
  }

  // ---------------------------------------------------------------- the class

  class Pool {
    var workers: seq<Worker>
    var queue: seq<PoolTask>
    var models: map<string, FullParams>
    var listeners: map<nat, seq<PoolTask>>
    var online: set<nat>
    var promises: map<nat, Settlement>
    var posted: seq<(nat, Message)>
    var nextThreadId: nat
    var nextPromise: nat
    var minThreads: int
    var maxThreads: int

    function State(): PoolState
      reads this
    {
      PoolState(workers, queue, models, listeners, online, promises, posted,
                nextThreadId, nextPromise, minThreads, maxThreads)
    }

    constructor(minThreadsOpt: Option<int>, maxThreadsOpt: Option<int>)
      ensures State() == Initial(minThreadsOpt, maxThreadsOpt)
      ensures Valid(State())
    {
      workers, queue, models, listeners, online := [], [], map[], map[], {};
      promises, posted, nextThreadId, nextPromise := map[], [], 0, 0;
      minThreads, maxThreads := minThreadsOpt.GetOr(1), maxThreadsOpt.GetOr(5);
      new;
      var i := 0;
      while i < minThreads
        invariant 0 <= i <= Max(0, minThreads)
        invariant minThreads == minThreadsOpt.GetOr(1) && maxThreads == maxThreadsOpt.GetOr(5)
        invariant State() == AddWorkers(Empty(minThreads, maxThreads), i)
      {
        AddWorker();
        i := i + 1;
      }
      InitialValid(minThreadsOpt, maxThreadsOpt);
    }

    method AddWorker()
      modifies this
      ensures State() == AddWorkerSpec(old(State()))
    {
      workers := workers + [Worker(nextThreadId, false)];
      listeners := listeners[nextThreadId := []];
      online := online + {nextThreadId};
      nextThreadId := nextThreadId + 1;
    }

    method GetWorker() returns (worker: Option<nat>)
      modifies this
      ensures (State(), worker) == GetWorkerSpec(old(State()))
    {
      var i := 0;
      while i < |workers|
        invariant 0 <= i <= |workers|
        invariant forall j :: 0 <= j < i ==> workers[j].busy
      {
        if !workers[i].busy {
          return Some(workers[i].threadId);
        }
        i := i + 1;
      }
      if |workers| < maxThreads {
        AddWorker();
      }
      return None;
    }

    method ToggleWorkerStatus(id: nat, running: bool)
      modifies this
      ensures State() == old(State()).(workers := SetStatus(old(workers), id, running))
    {
      var index := 0;
      while index < |workers|
        invariant 0 <= index <= |workers|
        invariant forall j :: 0 <= j < index ==> workers[j].threadId != id
      {
        if workers[index].threadId == id {
          assert FirstWithId(workers, index, id);
          workers := workers[index := Worker(id, running)];
          return;
        }
        index := index + 1;
      }
    }

    method RunNextTask()
      modifies this
      ensures State() == RunNext(old(State()))
    {
      ghost var s := State();
      var worker := GetWorker();
      if worker.None? {
        return;
      }
      assert State() == s;
      var taskIndex := FirstEligible(queue, models);
      if taskIndex == -1 {
        return;
      }
      var w := worker.value;
      ToggleWorkerStatus(w, true);
      var task := Assign(queue[taskIndex], models);
      queue := RemoveAt(queue, taskIndex);
      listeners := listeners[w := ListenersOf(State(), w) + [task]];
      posted := posted + [(w, MessageOf(task))];
      assert State() == Dispatch(s, w, taskIndex);
    }

    /** `queueTask`: returns the handle of the task's promise. */
    method QueueTask(req: TaskRequest) returns (handle: nat)
      modifies this
      ensures handle == old(nextPromise) && handle in promises && promises[handle].Pending?
      ensures State() == QueueTaskSpec(old(State()), req)
      ensures old(Valid(State())) ==> Valid(State())
    {
      handle := nextPromise;
      var t := match req
        case LoadRequest(p) => LoadTask(p, handle)
        case InferRequest(path, inputs) => InferTask(path, inputs, None, handle);
      queue := queue + [t];
      promises := promises[handle := Pending];
      nextPromise := handle + 1;
      ghost var s := State();
      assert s == Enqueue(old(State()), req);
      RunNextTask();
      assert promises == State().promises == s.promises;
      if old(Valid(State())) {
        QueueTaskValid(old(State()), req);
      }
    }

    /** The "online" event of worker `w`, as corrected. */
    method OnOnline(w: nat)
      modifies this
      ensures State() == OnOnlineSpec(old(State()), w)
      ensures old(Valid(State())) ==> Valid(State())
    {
      if w !in online {
        return;
      }
      online := online - {w};
      RunNextTask();
      if old(Valid(State())) {
        OnOnlineValid(old(State()), w);
      }
    }

    /** One once-listener of `runNextTask` receiving `reply`. */
    method HandleTaskReply(w: nat, t: PoolTask, reply: Reply)
      modifies this
      ensures State() == HandleReply(old(State()), w, t, reply)
    {
      if Truthy(reply.error) {
        promises := Settle(promises, t.promise, Rejected(reply.error.value));
      }
      if reply.kind == Load {
        var p := ParamsOf(t);
        if p.None? {
          return;
        }
        models := models[p.value.path := p.value];
        promises := Settle(promises, t.promise, Resolved(None));
      } else {
        promises := Settle(promises, t.promise, Resolved(reply.data));
      }
      ToggleWorkerStatus(w, false);
      RunNextTask();
    }

    /** A "message" event on worker `w`: the registered once-listeners are
      removed and called in order. */
    method OnMessage(w: nat, reply: Reply)
      modifies this
      ensures State() == OnMessageSpec(old(State()), w, reply)
      ensures old(Valid(State())) ==> Valid(State())
    {
      if w !in listeners {
        return;
      }
      var snapshot := listeners[w];
      listeners := listeners[w := []];
      var k := 0;
      while k < |snapshot|
        invariant 0 <= k <= |snapshot|
        invariant HandleAll(State(), w, snapshot[k..], reply) == OnMessageSpec(old(State()), w, reply)
      {
        assert snapshot[k..][1..] == snapshot[k + 1..];
        HandleTaskReply(w, snapshot[k], reply);
        k := k + 1;
      }
      if old(Valid(State())) {
        OnMessageValid(old(State()), w, reply);
      }
    }
  }
}
