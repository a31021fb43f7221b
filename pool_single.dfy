/** The single-worker inference queue `SavedModelWorker` of pool-single.ts,
    seen from the main thread: tasks are queued with ids from a counter, at
    most one inference is in flight, a task runs only once its model has been
    reported loaded, and the in-flight task is matched to its reply by id.

    As for the pool, each handler of the class is specified by a function on a
    `WorkerState` value, and the lemmas about those functions carry the
    guarantees. */
module PoolSingle {
  import opened Js
  import opened Runtime

  datatype Task = Task(id: nat, model: string, inputs: Inputs)

  /** What is posted to the worker thread. */
  datatype Posted = InitMessage | LoadMessage(params: FullParams) | InferMessage(id: nat, inputs: Inputs, model: string)

  /** A reply on the inference port. */
  datatype InferenceReply = InferenceReply(id: nat, logits: Option<Logits>, error: Option<string>)

  datatype Settlement = Pending | Resolved(logits: Logits) | Rejected(error: Option<string>)

  /** The once-listeners on the init port's "close" event. */
  datatype CloseAction = MarkLoaded | PostLoad(params: FullParams)

  datatype WorkerState = WorkerState(
    queue: seq<Task>,
    models: seq<string>,                  // models the worker reported loaded, in order
    running: bool,
    taskId: nat,
    loaded: bool,
    inFlight: Option<(nat, Task)>,        // the reply listener: the task and its queue index
    promises: map<nat, Settlement>,       // by task id
    posted: seq<Posted>,
    awaitingOnline: bool,
    closeListeners: seq<CloseAction>,
    closed: bool)

  /** A worker just created: nothing queued, not loaded, waiting to come online. */
  function Initial(): WorkerState {
    WorkerState([], [], false, 0, false, None, map[], [], true, [], false)
  }

  /** The scan of `run`: the first queued task whose model is loaded, or -1. */
  function FirstRunnable(q: seq<Task>, models: seq<string>): (r: int)
    ensures -1 <= r < |q|
    ensures r == -1 <==> forall i :: 0 <= i < |q| ==> q[i].model !in models
    ensures r >= 0 ==> q[r].model in models && forall i :: 0 <= i < r ==> q[i].model !in models
  {
    if q == [] then -1
    else if q[0].model in models then 0
    else
      var k := FirstRunnable(q[1..], models);
      if k == -1 then -1 else k + 1
  }

  /** `run` */
  function RunSpec(s: WorkerState): WorkerState {
    if s.running then s
    else
      var k := FirstRunnable(s.queue, s.models);
      if k == -1 then s.(running := false)
      else
        var t := s.queue[k];
        s.(running := true, inFlight := Some((k, t)),
           posted := s.posted + [InferMessage(t.id, t.inputs, t.model)])
  }

  /** `queueInference`: the new task's id is `s.taskId`. */
  function QueueInferenceSpec(s: WorkerState, model: string, inputs: Inputs): WorkerState {
    var id := s.taskId;
    RunSpec(s.(taskId := id + 1, queue := s.queue + [Task(id, model, inputs)],
               promises := s.promises[id := Pending]))
  }

  function Settle(p: map<nat, Settlement>, h: nat, v: Settlement): map<nat, Settlement> {
    if h in p && p[h].Pending? then p[h := v] else p
  }

  /** `queue.splice(i, 1)`: nothing is removed past the end. */
  function SpliceOne(q: seq<Task>, i: nat): (r: seq<Task>)
    // exactly entry i leaves the queue
    ensures i < |q| ==> |r| == |q| - 1 && multiset(r) + multiset{q[i]} == multiset(q)
    ensures i >= |q| ==> r == q
  {
    if i < |q| then
      assert q == q[..i] + [q[i]] + q[i + 1..];
      q[..i] + q[i + 1..]
    else q
  }

  /** The reply listener registered by `run`. */
  function OnReplySpec(s: WorkerState, r: InferenceReply): WorkerState {
    match s.inFlight
    case None => s
    case Some((index, t)) =>
      if r.id != t.id then s
      else
        var settled := match r.logits
          case Some(l) => Settle(s.promises, t.id, Resolved(l))
          case None => Settle(s.promises, t.id, Rejected(r.error));
        var s1 := s.(inFlight := None, promises := settled, queue := SpliceOne(s.queue, index), running := false);
        if |s1.queue| > 0 then RunSpec(s1) else s1
  }

  /** The load port handler: the worker reports a model loaded. */
  function OnLoadedSpec(s: WorkerState, model: string): WorkerState {
    RunSpec(s.(models := s.models + [model]))
  }

  /** `loadModel` */
  function LoadModelSpec(s: WorkerState, params: FullParams): WorkerState {
    if s.loaded then s.(posted := s.posted + [LoadMessage(params)])
    else s.(closeListeners := s.closeListeners + [PostLoad(params)])
  }

  /** The "online" event: a close listener that marks the worker loaded, and
      the init message. */
  function OnOnlineSpec(s: WorkerState): WorkerState {
    if !s.awaitingOnline then s
    else s.(awaitingOnline := false, closeListeners := s.closeListeners + [MarkLoaded],
            posted := s.posted + [InitMessage])
  }

  function FireClose(s: WorkerState, acts: seq<CloseAction>): WorkerState
    decreases |acts|
  {
    if acts == [] then s
    else
      var s1 := match acts[0]
        case MarkLoaded => s.(loaded := true)
        case PostLoad(p) => s.(posted := s.posted + [LoadMessage(p)]);
      FireClose(s1, acts[1..])
  }

  /** The init port closing: its once-listeners run in registration order. */
  function OnInitCloseSpec(s: WorkerState): WorkerState {
    if s.closed then s else FireClose(s.(closed := true, closeListeners := []), s.closeListeners)
  }

  // ---------------------------------------------------------------- invariant

  predicate Increasing(q: seq<Task>) {
    forall i, j :: 0 <= i < j < |q| ==> q[i].id < q[j].id
  }

  /** The guarantees of the queue: `running` is set exactly while a reply
      listener waits, that listener's index still points at its task, task ids
      increase along the queue and come from the counter, and every queued
      task's promise is pending. */
  predicate Inv(s: WorkerState) {
    && (s.running <==> s.inFlight.Some?)
    && (s.inFlight.Some? ==>
          var (i, t) := s.inFlight.value;
          i < |s.queue| && s.queue[i] == t && t.model in s.models)
    && Increasing(s.queue)
    && (forall i :: 0 <= i < |s.queue| ==> s.queue[i].id < s.taskId)
    && (forall i :: 0 <= i < |s.queue| ==> s.queue[i].id in s.promises && s.promises[s.queue[i].id].Pending?)
  }

  lemma InitialInv()
    ensures Inv(Initial())
  {
  }

  /** `run` does nothing while an inference is in flight; otherwise it
      dispatches the first task whose model is loaded, or resets `running`
      and leaves the queue alone when there is none. */
  lemma RunCases(s: WorkerState)
    requires Inv(s)
    ensures s.running ==> RunSpec(s) == s
    ensures !s.running && FirstRunnable(s.queue, s.models) == -1 ==> RunSpec(s) == s
    ensures var k := FirstRunnable(s.queue, s.models);
            !s.running && k >= 0 ==>
              && RunSpec(s).inFlight == Some((k, s.queue[k]))
              && RunSpec(s).posted == s.posted + [InferMessage(s.queue[k].id, s.queue[k].inputs, s.queue[k].model)]
              && RunSpec(s).queue == s.queue
    ensures Inv(RunSpec(s))
  {
  }

  /** `run` changes neither the queue nor the promises. */
  lemma RunKeeps(s: WorkerState)
    ensures RunSpec(s).queue == s.queue && RunSpec(s).promises == s.promises
  {
  }

  /** Ids are unique: a queued task is the only one with its id. */
  lemma IdsUnique(s: WorkerState, i: nat, j: nat)
    requires Inv(s) && i < |s.queue| && j < |s.queue| && i != j
    ensures s.queue[i].id != s.queue[j].id
  {
    if i < j {
      assert s.queue[i].id < s.queue[j].id;
    } else {
      assert s.queue[j].id < s.queue[i].id;
    }
  }

  /** A queued inference gets the next id, which no queued task has, with a
      fresh pending promise; the invariant is kept. */
  lemma QueueInferenceInv(s: WorkerState, model: string, inputs: Inputs)
    requires Inv(s)
    ensures var r := QueueInferenceSpec(s, model, inputs);
            && Inv(r)
            && r.taskId == s.taskId + 1
            && r.queue == s.queue + [Task(s.taskId, model, inputs)]
            && (forall i :: 0 <= i < |s.queue| ==> s.queue[i].id != s.taskId)
            && r.promises == s.promises[s.taskId := Pending]
  {
    var s' := s.(taskId := s.taskId + 1, queue := s.queue + [Task(s.taskId, model, inputs)],
                 promises := s.promises[s.taskId := Pending]);
    assert Inv(s');
    RunCases(s');
  }

  lemma SpliceIncreasing(q: seq<Task>, i: nat)
    requires Increasing(q) && i < |q|
    ensures Increasing(SpliceOne(q, i))
  {
    var r := SpliceOne(q, i);
    forall a, b | 0 <= a < b < |r| ensures r[a].id < r[b].id {
      var a' := if a < i then a else a + 1;
      var b' := if b < i then b else b + 1;
      assert r[a] == q[a'] && r[b] == q[b'];
    }
  }

  /** The tasks left after the in-flight one is spliced out keep their
      increasing ids, below the counter, none of them the removed id, and
      still pending once that id is settled. */
  lemma SpliceKeepsPending(q: seq<Task>, i: nat, p: map<nat, Settlement>, v: Settlement, taskId: nat)
    requires Increasing(q) && i < |q|
    requires forall j :: 0 <= j < |q| ==> q[j].id < taskId && q[j].id in p && p[q[j].id].Pending?
    ensures var r := SpliceOne(q, i);
            && Increasing(r)
            && (forall j :: 0 <= j < |r| ==> r[j].id != q[i].id && r[j].id < taskId)
            && (forall j :: 0 <= j < |r| ==> r[j].id in p[q[i].id := v] && p[q[i].id := v][r[j].id].Pending?)
  {
    SpliceIncreasing(q, i);
    var r := SpliceOne(q, i);
    forall j | 0 <= j < |r| ensures r[j].id != q[i].id && r[j].id < taskId {
      var j' := if j < i then j else j + 1;
      assert r[j] == q[j'];
      if j' < i {
        assert q[j'].id < q[i].id;
      } else {
        assert q[i].id < q[j'].id;
      }
    }
  }

  /** The reply for the in-flight task, with `v` the settlement it carries. */
  lemma OnReplyMatchedInv(s: WorkerState, r: InferenceReply, v: Settlement)
    requires Inv(s) && s.inFlight.Some? && r.id == s.inFlight.value.1.id
    requires v == if r.logits.Some? then Resolved(r.logits.value) else Rejected(r.error)
    ensures var (i, t) := s.inFlight.value;
            var res := OnReplySpec(s, r);
            && res.queue == s.queue[..i] + s.queue[i + 1..]
            && res.promises == s.promises[t.id := v]
            && (forall j :: 0 <= j < |res.queue| ==> res.queue[j].id != t.id)
            && Inv(res)
  {
    var (i, t) := s.inFlight.value;
    var q := SpliceOne(s.queue, i);
    var s1 := s.(inFlight := None, promises := s.promises[t.id := v], queue := q, running := false);
    assert s.promises[t.id].Pending?;
    var res := OnReplySpec(s, r);
    assert res == if |q| > 0 then RunSpec(s1) else s1;
    SpliceKeepsPending(s.queue, i, s.promises, v, s.taskId);
    assert Inv(s1);
    RunCases(s1);
    RunKeeps(s1);
  }

  /** A reply for another id is ignored. The reply for the in-flight task
      settles its promise (resolved with the logits when present, rejected
      otherwise), removes exactly that task, and keeps the invariant. */
  lemma OnReplyInv(s: WorkerState, r: InferenceReply)
    requires Inv(s)
    ensures s.inFlight.None? || r.id != s.inFlight.value.1.id ==> OnReplySpec(s, r) == s
    ensures s.inFlight.Some? && r.id == s.inFlight.value.1.id ==>
              var (i, t) := s.inFlight.value;
              var res := OnReplySpec(s, r);
              && res.queue == s.queue[..i] + s.queue[i + 1..]
              && res.promises == s.promises[t.id := if r.logits.Some? then Resolved(r.logits.value)
                                                    else Rejected(r.error)]
              && (forall j :: 0 <= j < |res.queue| ==> res.queue[j].id != t.id)
    ensures Inv(OnReplySpec(s, r))
  {
    if s.inFlight.Some? && r.id == s.inFlight.value.1.id {
      OnReplyMatchedInv(s, r, if r.logits.Some? then Resolved(r.logits.value) else Rejected(r.error));
    }
  }

  /** A model reported loaded makes its queued tasks eligible: when nothing is
      in flight and a task for `model` is queued, an inference starts. */
  lemma OnLoadedStarts(s: WorkerState, model: string, j: nat)
    requires Inv(s) && !s.running && j < |s.queue| && s.queue[j].model == model
    ensures OnLoadedSpec(s, model).running
    ensures Inv(OnLoadedSpec(s, model))
  {
    var s' := s.(models := s.models + [model]);
    assert s.queue[j].model in s'.models;
    RunCases(s');
  }

  lemma OnLoadedInv(s: WorkerState, model: string)
    requires Inv(s)
    ensures Inv(OnLoadedSpec(s, model))
  {
    RunCases(s.(models := s.models + [model]));
  }

  function LoadsOf(acts: seq<CloseAction>): (ps: seq<Posted>)
    ensures |ps| <= |acts|
  {
    if acts == [] then []
    else (if acts[0].PostLoad? then [LoadMessage(acts[0].params)] else []) + LoadsOf(acts[1..])
  }

  /** The close listeners post the deferred loads in order, and set `loaded`
      when the online handler's listener is among them. */
  lemma {:induction false} FireCloseEffect(s: WorkerState, acts: seq<CloseAction>)
    ensures FireClose(s, acts).posted == s.posted + LoadsOf(acts)
    ensures FireClose(s, acts).loaded == (s.loaded || MarkLoaded in acts)
    ensures FireClose(s, acts).queue == s.queue && FireClose(s, acts).inFlight == s.inFlight
    ensures FireClose(s, acts).running == s.running && FireClose(s, acts).promises == s.promises
    ensures FireClose(s, acts).taskId == s.taskId && FireClose(s, acts).models == s.models
    decreases |acts|
  {
    if acts != [] {
      var s1 := match acts[0]
        case MarkLoaded => s.(loaded := true)
        case PostLoad(p) => s.(posted := s.posted + [LoadMessage(p)]);
      assert FireClose(s, acts) == FireClose(s1, acts[1..]);
      FireCloseEffect(s1, acts[1..]);
      assert acts == [acts[0]] + acts[1..];
      assert MarkLoaded in acts <==> acts[0] == MarkLoaded || MarkLoaded in acts[1..];
      if acts[0].PostLoad? {
        assert LoadsOf(acts) == [LoadMessage(acts[0].params)] + LoadsOf(acts[1..]);
        assert s1.posted + LoadsOf(acts[1..]) == s.posted + LoadsOf(acts);
      } else {
        assert LoadsOf(acts) == LoadsOf(acts[1..]);
      }
    }
  }

  /** `loadModel` posts the load at once exactly when the worker is loaded;
      otherwise the load waits for the init port to close. */
  lemma LoadModelPostsIffLoaded(s: WorkerState, p: FullParams)
    ensures var r := LoadModelSpec(s, p);
            (r.posted == s.posted + [LoadMessage(p)] && r.closeListeners == s.closeListeners) <==> s.loaded
    ensures var r := LoadModelSpec(s, p);
            !s.loaded ==> r.posted == s.posted && r.closeListeners == s.closeListeners + [PostLoad(p)]
  {
  }

  /** From creation: loads requested before the worker is loaded are posted,
      in order, when the init port closes, and the close also marks the worker
      loaded, so later loads are posted at once. */
  lemma DeferredLoadsFlushed(p: FullParams, q: FullParams)
    ensures var s1 := LoadModelSpec(OnOnlineSpec(LoadModelSpec(Initial(), p)), q);
            var s2 := OnInitCloseSpec(s1);
            && s1.posted == [InitMessage]
            && s2.loaded && s2.posted == [InitMessage, LoadMessage(p), LoadMessage(q)]
            && LoadModelSpec(s2, p).posted == s2.posted + [LoadMessage(p)]
  {
    var s1 := LoadModelSpec(OnOnlineSpec(LoadModelSpec(Initial(), p)), q);
    assert s1.closeListeners == [PostLoad(p), MarkLoaded, PostLoad(q)];
    var e := s1.(closed := true, closeListeners := []);
    FireCloseEffect(e, s1.closeListeners);
    assert LoadsOf(s1.closeListeners) == [LoadMessage(p), LoadMessage(q)] by {
      var acts := s1.closeListeners;
      assert acts[1..] == [MarkLoaded, PostLoad(q)] && acts[1..][1..] == [PostLoad(q)] && acts[1..][1..][1..] == [];
      assert LoadsOf(acts[1..][1..]) == [LoadMessage(q)];
      assert LoadsOf(acts[1..]) == [LoadMessage(q)];
    }
  }

  // ---------------------------------------------------------------- the class

  class SavedModelWorker {
    var queue: seq<Task>
    var models: seq<string>
    var running: bool
    var taskId: nat
    var loaded: bool
    var inFlight: Option<(nat, Task)>
    var promises: map<nat, Settlement>
    var posted: seq<Posted>
    var awaitingOnline: bool
    var closeListeners: seq<CloseAction>
    var closed: bool

    function State(): WorkerState
      reads this
    {
      WorkerState(queue, models, running, taskId, loaded, inFlight, promises, posted,
                  awaitingOnline, closeListeners, closed)
    }

    constructor()
      ensures State() == Initial() && Inv(State())
    {
      queue, models, running, taskId, loaded, inFlight := [], [], false, 0, false, None;
      promises, posted, awaitingOnline, closeListeners, closed := map[], [], true, [], false;
    }

    /** `run`, with its scan loop. */
    method Run()
      modifies this
      ensures State() == RunSpec(old(State()))
    {
      if running {
        return;
      }
      running := true;
      var queueLength := |queue|;
      var task: Option<Task> := None;
      var taskIndex := 0;
      while taskIndex < queueLength
        invariant 0 <= taskIndex <= queueLength
        invariant task.None? && forall i :: 0 <= i < taskIndex ==> queue[i].model !in models
      {
        var t := queue[taskIndex];
        if t.model in models {
          task := Some(t);
          break;
        }
        taskIndex := taskIndex + 1;
      }
      if task.Some? {
        var t := task.value;
        inFlight := Some((taskIndex, t));
        posted := posted + [InferMessage(t.id, t.inputs, t.model)];
      } else {
        running := false;
      }
    }

    /** `queueInference`: returns the id that keys the task's promise. */
    method QueueInference(model: string, inputs: Inputs) returns (id: nat)
      modifies this
      ensures id == old(taskId)
      ensures State() == QueueInferenceSpec(old(State()), model, inputs)
      ensures old(Inv(State())) ==> Inv(State())
    {
      id := taskId;
      taskId := taskId + 1;
      queue := queue + [Task(id, model, inputs)];
      promises := promises[id := Pending];
      Run();
      if old(Inv(State())) {
        QueueInferenceInv(old(State()), model, inputs);
      }
    }

    /** A message on the inference port. */
    method OnInferenceReply(r: InferenceReply)
      modifies this
      ensures State() == OnReplySpec(old(State()), r)
      ensures old(Inv(State())) ==> Inv(State())
    {
      ghost var s0 := State();
      if inFlight.None? {
        return;
      }
      var (index, t) := inFlight.value;
      if r.id != t.id {
        return;
      }
      SettleInFlight(index, t, r);
      assert OnReplySpec(s0, r) == if |queue| > 0 then RunSpec(State()) else State();
      if |queue| > 0 {
        Run();
      }
      if old(Inv(State())) {
        OnReplyInv(s0, r);
      }
    }

    /** The body of the reply listener before `run`: the in-flight task's
        promise is settled, the task is spliced out of the queue and the
        worker is idle. */
    method SettleInFlight(index: nat, t: Task, r: InferenceReply)
      modifies this
      ensures State() == old(State()).(inFlight := None, queue := SpliceOne(old(queue), index), running := false,
                                       promises := match r.logits
                                         case Some(l) => Settle(old(promises), t.id, Resolved(l))
                                         case None => Settle(old(promises), t.id, Rejected(r.error)))
    {
      inFlight := None;
      if r.logits.Some? {
        promises := Settle(promises, t.id, Resolved(r.logits.value));
      } else {
        promises := Settle(promises, t.id, Rejected(r.error));
      }
      queue := SpliceOne(queue, index);
      running := false;
    }

    /** A message on the load port. */
    method OnModelLoaded(model: string)
      modifies this
      ensures State() == OnLoadedSpec(old(State()), model)
      ensures old(Inv(State())) ==> Inv(State())
    {
      models := models + [model];
      Run();
      if old(Inv(State())) {
        OnLoadedInv(old(State()), model);
      }
    }

    method LoadModel(params: FullParams)
      modifies this
      ensures State() == LoadModelSpec(old(State()), params)
    {
      if loaded {
        posted := posted + [LoadMessage(params)];
      } else {
        closeListeners := closeListeners + [PostLoad(params)];
      }
    }

    method OnOnline()
      modifies this
      ensures State() == OnOnlineSpec(old(State()))
    {
      if !awaitingOnline {
        return;
      }
      awaitingOnline := false;
      closeListeners := closeListeners + [MarkLoaded];
      posted := posted + [InitMessage];
    }

    /** The init port's "close" event: the once-listeners run in order. */
    method OnInitPortClose()
      modifies this
      ensures State() == OnInitCloseSpec(old(State()))
    {
      if closed {
        return;
      }
      var acts := closeListeners;
      closed := true;
      closeListeners := [];
      var k := 0;
      while k < |acts|
        invariant 0 <= k <= |acts|
        invariant FireClose(State(), acts[k..]) == OnInitCloseSpec(old(State()))
      {
        assert acts[k..][1..] == acts[k + 1..];
        match acts[k] {
          case MarkLoaded => loaded := true;
          case PostLoad(p) => posted := posted + [LoadMessage(p)];
        }
        k := k + 1;
      }
    }
  }
}
