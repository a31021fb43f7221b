/** The older worker pool `Pool` of pool.ts. Every request goes to a worker
    chosen by outstanding counts: the first worker, in creation order, with
    none outstanding; otherwise, once the pool has `maxThreads` workers, the
    next one round-robin; otherwise a new worker. Each request gets an id from
    a counter, and the reply with that id on the chosen worker's port settles
    the request and decrements the worker's count.

    Workers are named by their creation index. As for the other pools, each
    handler is specified by a function on a `LegacyState` value and the class
    methods are proved to compute it. */
module PoolLegacy {
  import opened Js
  import opened Runtime

  /** What is posted to a worker thread. */
  datatype Posted = InitMessage(params: FullParams) | InferMessage(id: nat, inputs: Inputs) | KillMessage

  /** `watchesKill`: the worker was created by `chooseWorker`, which listens
      for a kill request on its port. */
  datatype WorkerInfo = WorkerInfo(watchesKill: bool, terminated: bool)

  /** A message on a worker's port. */
  datatype PortMessage = PortMessage(id: Option<nat>, error: Option<string>, logits: Option<Logits>, kill: bool)

  datatype Settlement = Pending | Resolved(logits: Option<Logits>) | Rejected(error: string)

  /** What an access through an `undefined` worker throws. */
  const TypeError := "TypeError"

  datatype LegacyState = LegacyState(
    workers: seq<WorkerInfo>,
    counts: seq<int>,                     // `tasks`, in creation order
    nextWorker: nat,
    lastId: nat,                          // `_id`
    outstanding: seq<(nat, nat)>,         // the reply listeners: (request id, worker)
    promises: map<nat, Settlement>,       // by request id
    posted: seq<(nat, Posted)>,
    params: FullParams,
    maxThreads: int)

  function Empty(params: FullParams, maxThreads: int): LegacyState {
    LegacyState([], [], 0, 0, [], map[], [], params, maxThreads)
  }

  /** `newWorker`: the worker is appended with a count of zero. */
  function NewWorkerSpec(s: LegacyState, watchesKill: bool): LegacyState {
    s.(workers := s.workers + [WorkerInfo(watchesKill, false)], counts := s.counts + [0],
       posted := s.posted + [(|s.workers|, InitMessage(s.params))])
  }

  function AddWorkers(s: LegacyState, n: nat): LegacyState {
    if n == 0 then s else NewWorkerSpec(AddWorkers(s, n - 1), false)
  }

  /** The constructor: `minThreads` (default 1) workers; `maxThreads` defaults to 5. */
  function Initial(params: FullParams, minThreads: Option<int>, maxThreads: Option<int>): LegacyState {
    AddWorkers(Empty(params, maxThreads.GetOr(5)), Max(0, minThreads.GetOr(1)))
  }

  function Max(a: int, b: int): int {
    if a < b then b else a
  }

  /** The scan of `chooseWorker` over `tasks`: the first zero count, or -1. */
  function FirstZero(c: seq<int>): (r: int)
    ensures -1 <= r < |c|
    ensures r == -1 <==> forall i :: 0 <= i < |c| ==> c[i] != 0
    ensures r >= 0 ==> c[r] == 0 && forall i :: 0 <= i < r ==> c[i] != 0
  {
    if c == [] then -1
    else if c[0] == 0 then 0
    else
      var k := FirstZero(c[1..]);
      if k == -1 then -1 else k + 1
  }

  /** `chooseWorker`: the new state and the chosen worker, `None` when the
      cursor lands past the end of `workers` (an `undefined` worker). */
  function ChooseSpec(s: LegacyState): (LegacyState, Option<nat>) {
    var k := FirstZero(s.counts);
    if k >= 0 then (s, Some(k))
    else if |s.workers| == s.maxThreads then
      if |s.workers| - 1 == s.nextWorker then (s.(nextWorker := 0), Some(0))
      else
        var n := s.nextWorker + 1;
        (s.(nextWorker := n), if n < |s.workers| then Some(n) else None)
    else (NewWorkerSpec(s, true), Some(|s.workers|))
  }

  function Increment(c: seq<int>, w: nat): seq<int> {
    if w < |c| then c[w := c[w] + 1] else c
  }

  function Decrement(c: seq<int>, w: nat, n: nat): seq<int> {
    if w < |c| then c[w := c[w] - n] else c
  }

  /** The request `id` recorded on worker `w`: its count goes up, a reply
      listener waits, the promise is pending and the request is posted. */
  function Issue(s: LegacyState, w: nat, id: nat, inputs: Inputs): LegacyState {
    s.(counts := Increment(s.counts, w), lastId := id, outstanding := s.outstanding + [(id, w)],
       promises := s.promises[id := Pending], posted := s.posted + [(w, InferMessage(id, inputs))])
  }

  /** `runInference`: the new state and the request's id. Without a worker the
      request is rejected by the `TypeError` of `worker.postMessage`. */
  function RunInferenceSpec(s: LegacyState, inputs: Inputs): (LegacyState, nat) {
    var c := ChooseSpec(s);
    var id := c.0.lastId + 1;
    match c.1
    case Some(w) => (Issue(c.0, w, id, inputs), id)
    case None => (c.0.(lastId := id, promises := c.0.promises[id := Rejected(TypeError)]), id)
  }

  /** What the reply listener settles a request with. */
  function Outcome(m: PortMessage): (o: Settlement)
    // every reply settles its request for good
    ensures !o.Pending?
  {
    if Truthy(m.error) then Rejected(m.error.value) else Resolved(m.logits)
  }

  /** `if (error)` tests truthiness: an empty error message resolves the
      request with whatever logits came along, a non-empty one rejects it
      with that message; once settled, a later reply for the same id leaves
      the outcome as it was. */
  lemma OutcomeTruthiness(m: PortMessage, later: PortMessage, p: map<nat, Settlement>, id: nat)
    requires id in p && p[id].Pending?
    ensures m.error == Some("") ==> Settle(p, id, Outcome(m))[id] == Resolved(m.logits)
    ensures m.error.Some? && m.error.value != "" ==> Settle(p, id, Outcome(m))[id] == Rejected(m.error.value)
    ensures m.error.None? ==> Settle(p, id, Outcome(m))[id] == Resolved(m.logits)
    ensures Settle(Settle(p, id, Outcome(m)), id, Outcome(later)) == Settle(p, id, Outcome(m))
  {
    assert !Outcome(m).Pending?;
  }

  function Settle(p: map<nat, Settlement>, h: nat, v: Settlement): map<nat, Settlement> {
    if h in p && p[h].Pending? then p[h := v] else p
  }

  /** How many reply listeners wait for `id` on worker `w`. */
  function Matches(out: seq<(nat, nat)>, id: nat, w: nat): nat
    decreases |out|
  {
    if out == [] then 0
    else Matches(out[..|out| - 1], id, w) + (if out[|out| - 1] == (id, w) then 1 else 0)
  }

  /** The listeners left once those for `id` on `w` have removed themselves. */
  function Remove(out: seq<(nat, nat)>, id: nat, w: nat): seq<(nat, nat)>
    decreases |out|
  {
    if out == [] then []
    else Remove(out[..|out| - 1], id, w) + (if out[|out| - 1] == (id, w) then [] else [out[|out| - 1]])
  }

  /** The number of requests outstanding on worker `w`. */
  function CountFor(out: seq<(nat, nat)>, w: nat): nat
    decreases |out|
  {
    if out == [] then 0
    else CountFor(out[..|out| - 1], w) + (if out[|out| - 1].1 == w then 1 else 0)
  }

  /** The kill listener of a worker made by `chooseWorker`. */
  function Kill(s: LegacyState, w: nat, m: PortMessage): LegacyState
    requires w < |s.workers|
  {
    if s.workers[w].watchesKill && m.kill
    then s.(workers := s.workers[w := s.workers[w].(terminated := true)],
            posted := s.posted + [(w, KillMessage)])
    else s
  }

  /** The reply listeners of worker `w` seeing a message with `_id` `id`: each
      one that waits for `id` removes itself, decrements the count and
      settles its request. */
  function Reply(s: LegacyState, w: nat, id: nat, m: PortMessage): LegacyState {
    var n := Matches(s.outstanding, id, w);
    s.(outstanding := Remove(s.outstanding, id, w), counts := Decrement(s.counts, w, n),
       promises := if n > 0 then Settle(s.promises, id, Outcome(m)) else s.promises)
  }

  /** A message on the port of worker `w`: first the kill listener, then
      every reply listener. */
  function OnPortMessageSpec(s: LegacyState, w: nat, m: PortMessage): LegacyState {
    if w >= |s.workers| then s
    else
      var s1 := Kill(s, w, m);
      match m.id
      case None => s1
      case Some(id) => Reply(s1, w, id, m)
  }

  // ---------------------------------------------------------------- invariant

  predicate Increasing(out: seq<(nat, nat)>) {
    forall i, j :: 0 <= i < j < |out| ==> out[i].0 < out[j].0
  }

  /** The guarantees of the pool: one count per worker, each equal to the
      requests outstanding on that worker; outstanding requests name existing
      workers, carry increasing ids issued by the counter, and are pending;
      and the round-robin cursor stays inside the pool. */
  predicate Valid(s: LegacyState) {
    && |s.counts| == |s.workers|
    && (forall i :: 0 <= i < |s.workers| ==> s.counts[i] == CountFor(s.outstanding, i))
    && (forall j :: 0 <= j < |s.outstanding| ==> s.outstanding[j].1 < |s.workers|)
    && Increasing(s.outstanding)
    && (forall j :: 0 <= j < |s.outstanding| ==>
          s.outstanding[j].0 in s.promises && s.promises[s.outstanding[j].0].Pending?)
    && (forall h :: h in s.promises ==> h <= s.lastId)
    && (|s.workers| > 0 ==> s.nextWorker < |s.workers|)
    && (|s.workers| == 0 && s.maxThreads != 0 ==> s.nextWorker == 0)
  }

  lemma {:induction false} CountForAbsent(out: seq<(nat, nat)>, v: nat)
    requires forall j :: 0 <= j < |out| ==> out[j].1 != v
    ensures CountFor(out, v) == 0
    decreases |out|
  {
    if out != [] {
      CountForAbsent(out[..|out| - 1], v);
    }
  }

  lemma CountForAppend(out: seq<(nat, nat)>, x: (nat, nat), v: nat)
    ensures CountFor(out + [x], v) == CountFor(out, v) + (if x.1 == v then 1 else 0)
  {
    assert (out + [x])[..|out|] == out;
  }

  /** The removal of the listeners for `id` on `w` keeps every other listener. */
  lemma {:induction false} RemoveMembers(out: seq<(nat, nat)>, id: nat, w: nat)
    ensures forall x :: x in Remove(out, id, w) <==> x in out && x != (id, w)
    ensures Matches(out, id, w) > 0 <==> (id, w) in out
    decreases |out|
  {
    if out != [] {
      var p := out[..|out| - 1];
      assert out == p + [out[|out| - 1]];
      RemoveMembers(p, id, w);
    }
  }

  /** Each removed listener takes one request off its worker's count. */
  lemma {:induction false} RemoveCount(out: seq<(nat, nat)>, id: nat, w: nat, v: nat)
    ensures CountFor(Remove(out, id, w), v) == CountFor(out, v) - (if v == w then Matches(out, id, w) else 0)
    decreases |out|
  {
    if out != [] {
      var p := out[..|out| - 1];
      var x := out[|out| - 1];
      RemoveCount(p, id, w, v);
      assert CountFor(out, v) == CountFor(p, v) + (if x.1 == v then 1 else 0);
      assert Matches(out, id, w) == Matches(p, id, w) + (if x == (id, w) then 1 else 0);
      if x != (id, w) {
        assert Remove(out, id, w) == Remove(p, id, w) + [x];
        CountForAppend(Remove(p, id, w), x, v);
      } else {
        assert Remove(out, id, w) == Remove(p, id, w);
      }
    }
  }

  /** Since ids increase, at most one listener is removed, and the rest still
      have increasing ids. */
  lemma {:induction false} RemoveIncreasing(out: seq<(nat, nat)>, id: nat, w: nat)
    requires Increasing(out)
    ensures Increasing(Remove(out, id, w)) && Matches(out, id, w) <= 1
    decreases |out|
  {
    if out != [] {
      var p := out[..|out| - 1];
      var x := out[|out| - 1];
      assert Increasing(p);
      RemoveIncreasing(p, id, w);
      RemoveMembers(p, id, w);
      var rp := Remove(p, id, w);
      forall y | y in p ensures y.0 < x.0 {
        var i :| 0 <= i < |p| && p[i] == y;
        assert out[i] == y;
      }
      if x != (id, w) {
        var r := rp + [x];
        assert Remove(out, id, w) == r;
        forall i, j | 0 <= i < j < |r| ensures r[i].0 < r[j].0 {
          if j == |rp| {
            assert r[i] in rp;
          } else {
            assert r[i] == rp[i] && r[j] == rp[j];
          }
        }
      } else {
        assert (id, w) !in p;
      }
    }
  }

  lemma {:induction false} AddWorkersShape(s: LegacyState, n: nat)
    ensures var r := AddWorkers(s, n);
            && |r.workers| == |s.workers| + n && |r.counts| == |s.counts| + n
            && r.workers[..|s.workers|] == s.workers && r.counts[..|s.counts|] == s.counts
            && (forall i :: |s.counts| <= i < |r.counts| ==> r.counts[i] == 0)
            && r.nextWorker == s.nextWorker && r.lastId == s.lastId
            && r.outstanding == s.outstanding && r.promises == s.promises
            && r.params == s.params && r.maxThreads == s.maxThreads
    decreases n
  {
    if n > 0 {
      AddWorkersShape(s, n - 1);
    }
  }

  /** A new worker joins with no request outstanding. */
  lemma NewWorkerValid(s: LegacyState, watchesKill: bool)
    requires Valid(s) && (|s.workers| > 0 || s.nextWorker == 0)
    ensures var r := NewWorkerSpec(s, watchesKill);
            Valid(r) && |r.workers| == |s.workers| + 1 && r.counts[|s.workers|] == 0
  {
    CountForAbsent(s.outstanding, |s.workers|);
  }

  lemma {:induction false} AddWorkersValid(s: LegacyState, n: nat)
    requires Valid(s) && s.nextWorker == 0
    ensures Valid(AddWorkers(s, n))
    decreases n
  {
    if n > 0 {
      AddWorkersValid(s, n - 1);
      AddWorkersShape(s, n - 1);
      NewWorkerValid(AddWorkers(s, n - 1), false);
    }
  }

  /** The constructor: `minThreads` idle workers, the cursor and the id
      counter at 0, and at most `maxThreads` workers when `minThreads` is
      not above it. */
  lemma InitialValid(params: FullParams, minThreads: Option<int>, maxThreads: Option<int>)
    ensures var s := Initial(params, minThreads, maxThreads);
            && Valid(s)
            && |s.workers| == Max(0, minThreads.GetOr(1))
            && (forall i :: 0 <= i < |s.counts| ==> s.counts[i] == 0)
            && s.lastId == 0 && s.nextWorker == 0 && s.maxThreads == maxThreads.GetOr(5)
            && (minThreads.GetOr(1) <= maxThreads.GetOr(5) && 0 <= maxThreads.GetOr(5) ==> |s.workers| <= s.maxThreads)
  {
    var e := Empty(params, maxThreads.GetOr(5));
    AddWorkersShape(e, Max(0, minThreads.GetOr(1)));
    AddWorkersValid(e, Max(0, minThreads.GetOr(1)));
  }

  /** `chooseWorker`: the first worker with no request outstanding; else, in
      a full pool, the next worker round-robin, wrapping to 0 after the last;
      else a new worker with a count of zero. A worker is found unless the
      pool is empty with `maxThreads` 0, and the pool size stays within
      `maxThreads` once it is. */
  lemma ChooseCases(s: LegacyState)
    requires Valid(s)
    ensures var (r, w) := ChooseSpec(s);
            (exists i :: 0 <= i < |s.counts| && s.counts[i] == 0) ==>
              r == s && w.Some? && w.value < |s.workers| && s.counts[w.value] == 0
              && forall j :: 0 <= j < w.value ==> s.counts[j] > 0
    ensures var (r, w) := ChooseSpec(s);
            (forall i :: 0 <= i < |s.counts| ==> s.counts[i] > 0) && |s.workers| == s.maxThreads ==>
              r == s.(nextWorker := if s.nextWorker == |s.workers| - 1 then 0 else s.nextWorker + 1)
              && (|s.workers| > 0 ==> w == Some(r.nextWorker))
    ensures var (r, w) := ChooseSpec(s);
            (forall i :: 0 <= i < |s.counts| ==> s.counts[i] > 0) && |s.workers| != s.maxThreads ==>
              r == NewWorkerSpec(s, true) && w == Some(|s.workers|) && r.counts[|s.workers|] == 0
    ensures var (r, w) := ChooseSpec(s);
            (w.Some? <==> |s.workers| > 0 || s.maxThreads != 0) && (w.Some? ==> w.value < |r.workers|)
    ensures Valid(ChooseSpec(s).0)
    ensures |s.workers| <= s.maxThreads ==> |ChooseSpec(s).0.workers| <= s.maxThreads
  {
    if FirstZero(s.counts) < 0 && |s.workers| != s.maxThreads {
      NewWorkerValid(s, true);
    }
  }

  /** What `runInference` needs of `chooseWorker`: the invariant, the id
      counter, the promises and the listeners are kept, a chosen worker
      exists, and the size bound is kept. */
  lemma ChooseKeeps(s: LegacyState)
    requires Valid(s)
    ensures var (r, w) := ChooseSpec(s);
            && Valid(r) && r.lastId == s.lastId && r.promises == s.promises && r.outstanding == s.outstanding
            && (w.Some? ==> w.value < |r.workers|)
            && (w.None? ==> r.workers == s.workers && r.posted == s.posted)
            && (|s.workers| <= s.maxThreads ==> |r.workers| <= s.maxThreads)
  {
    if FirstZero(s.counts) < 0 && |s.workers| != s.maxThreads {
      NewWorkerValid(s, true);
    }
  }

  lemma IssueValid(s: LegacyState, w: nat, inputs: Inputs)
    requires Valid(s) && w < |s.workers|
    ensures Valid(Issue(s, w, s.lastId + 1, inputs))
  {
    var id := s.lastId + 1;
    var r := Issue(s, w, id, inputs);
    forall v | 0 <= v < |r.workers| ensures r.counts[v] == CountFor(r.outstanding, v) {
      CountForAppend(s.outstanding, (id, w), v);
    }
    assert forall j :: 0 <= j < |s.outstanding| ==> s.outstanding[j].0 < id;
    assert Increasing(r.outstanding);
  }

  /** `runInference`: the request gets the next id, strictly above every
      earlier one, and a pending promise; the chosen worker's count goes up by
      one and the request is posted to it. Without a worker the request is
      rejected. The invariant and the size bound are kept. */
  lemma RunInferenceValid(s: LegacyState, inputs: Inputs)
    requires Valid(s)
    ensures var r := RunInferenceSpec(s, inputs);
            && r.1 == s.lastId + 1 && r.0.lastId == r.1 && r.1 !in s.promises
            && (forall j :: 0 <= j < |s.outstanding| ==> s.outstanding[j].0 < r.1)
    ensures var r := RunInferenceSpec(s, inputs);
            var c := ChooseSpec(s);
            c.1.Some? ==> && r.0.counts == c.0.counts[c.1.value := c.0.counts[c.1.value] + 1]
                          && r.0.outstanding == s.outstanding + [(r.1, c.1.value)]
                          && r.0.promises == s.promises[r.1 := Pending]
                          && r.0.posted == c.0.posted + [(c.1.value, InferMessage(r.1, inputs))]
    ensures var r := RunInferenceSpec(s, inputs);
            ChooseSpec(s).1.None? ==>
              r.0.promises == s.promises[r.1 := Rejected(TypeError)] && r.0.outstanding == s.outstanding
    ensures Valid(RunInferenceSpec(s, inputs).0)
    ensures |s.workers| <= s.maxThreads ==> |RunInferenceSpec(s, inputs).0.workers| <= s.maxThreads
  {
    ChooseKeeps(s);
    var c := ChooseSpec(s);
    var id := s.lastId + 1;
    if c.1.Some? {
      IssueValid(c.0, c.1.value, inputs);
      assert RunInferenceSpec(s, inputs) == (Issue(c.0, c.1.value, id, inputs), id);
    } else {
      assert RunInferenceSpec(s, inputs) == (c.0.(lastId := id, promises := s.promises[id := Rejected(TypeError)]), id);
    }
  }

  lemma KillValid(s: LegacyState, w: nat, m: PortMessage)
    requires Valid(s) && w < |s.workers|
    ensures var r := Kill(s, w, m);
            Valid(r) && r.counts == s.counts && r.outstanding == s.outstanding && r.promises == s.promises
  {
  }

  /** A reply for one of the worker's outstanding requests removes exactly
      that request, decrements the count by one and settles the promise once;
      any other reply changes nothing. */
  /** Removing the one listener for `id` on `w` leaves every other listener,
      none of them for `id`, in the same order. */
  lemma RemoveOne(out: seq<(nat, nat)>, id: nat, w: nat)
    requires Increasing(out) && (id, w) in out
    ensures var r := Remove(out, id, w);
            && Matches(out, id, w) == 1 && Increasing(r)
            && (forall x :: x in r <==> x in out && x != (id, w))
            && (forall j :: 0 <= j < |r| ==> r[j].0 != id && r[j] in out)
  {
    RemoveMembers(out, id, w);
    RemoveIncreasing(out, id, w);
    var r := Remove(out, id, w);
    var k :| 0 <= k < |out| && out[k] == (id, w);
    forall j | 0 <= j < |r| ensures r[j].0 != id && r[j] in out {
      assert r[j] in r;
      var i :| 0 <= i < |out| && out[i] == r[j];
      assert i != k;
    }
  }

  /** The listeners left after the removal still name existing workers and
      pending promises, once `id` is settled. */
  lemma RemoveKeepsPending(out: seq<(nat, nat)>, id: nat, w: nat, n: nat,
                           p: map<nat, Settlement>, v: Settlement)
    requires forall j :: 0 <= j < |out| ==> out[j].1 < n && out[j].0 in p && p[out[j].0].Pending?
    requires forall j :: 0 <= j < |Remove(out, id, w)| ==>
               Remove(out, id, w)[j].0 != id && Remove(out, id, w)[j] in out
    ensures var r := Remove(out, id, w);
            forall j :: 0 <= j < |r| ==> r[j].1 < n && r[j].0 in p[id := v] && p[id := v][r[j].0].Pending?
  {
    var r := Remove(out, id, w);
    forall j | 0 <= j < |r| ensures r[j].1 < n && r[j].0 in p[id := v] && p[id := v][r[j].0].Pending? {
      var i :| 0 <= i < |out| && out[i] == r[j];
    }
  }

  /** A reply to an outstanding request keeps the invariant. */
  lemma ReplyOutstandingValid(s: LegacyState, w: nat, id: nat, m: PortMessage)
    requires Valid(s) && w < |s.workers| && (id, w) in s.outstanding
    ensures var r := Reply(s, w, id, m);
            && r.counts == s.counts[w := s.counts[w] - 1]
            && r.promises == s.promises[id := Outcome(m)]
            && (forall x :: x in r.outstanding <==> x in s.outstanding && x != (id, w))
            && (forall j :: 0 <= j < |r.outstanding| ==> r.outstanding[j].0 != id)
            && Valid(r)
  {
    RemoveOne(s.outstanding, id, w);
    var k :| 0 <= k < |s.outstanding| && s.outstanding[k] == (id, w);
    assert s.promises[id].Pending?;
    var r := Reply(s, w, id, m);
    assert r == s.(outstanding := Remove(s.outstanding, id, w), counts := s.counts[w := s.counts[w] - 1],
                   promises := s.promises[id := Outcome(m)]);
    RemoveKeepsPending(s.outstanding, id, w, |s.workers|, s.promises, Outcome(m));
    forall v | 0 <= v < |r.workers| ensures r.counts[v] == CountFor(r.outstanding, v) {
      RemoveCount(s.outstanding, id, w, v);
    }
  }

  lemma ReplyValid(s: LegacyState, w: nat, id: nat, m: PortMessage)
    requires Valid(s) && w < |s.workers|
    ensures var r := Reply(s, w, id, m);
            (id, w) in s.outstanding ==>
              && r.counts == s.counts[w := s.counts[w] - 1]
              && r.promises == s.promises[id := Outcome(m)]
              && (forall x :: x in r.outstanding <==> x in s.outstanding && x != (id, w))
              && (forall j :: 0 <= j < |r.outstanding| ==> r.outstanding[j].0 != id)
    ensures (id, w) !in s.outstanding ==> Reply(s, w, id, m) == s
    ensures Valid(Reply(s, w, id, m))
  {
    if (id, w) in s.outstanding {
      ReplyOutstandingValid(s, w, id, m);
    } else {
      RemoveMembers(s.outstanding, id, w);
      RemoveSame(s.outstanding, id, w);
      assert Matches(s.outstanding, id, w) == 0;
      assert Decrement(s.counts, w, 0) == s.counts;
      assert Reply(s, w, id, m) == s;
    }
  }

  /** A reply on a worker's port for one of its outstanding requests removes
      that request, decrements the worker's count by exactly one and settles
      the promise once (rejected on an error, resolved with the logits
      otherwise); any other reply changes none of them. The invariant is kept. */
  lemma OnPortMessageValid(s: LegacyState, w: nat, m: PortMessage)
    requires Valid(s)
    ensures var r := OnPortMessageSpec(s, w, m);
            m.id.Some? && w < |s.workers| && (m.id.value, w) in s.outstanding ==>
              && r.counts == s.counts[w := s.counts[w] - 1]
              && r.promises == s.promises[m.id.value := Outcome(m)]
              && (forall x :: x in r.outstanding <==> x in s.outstanding && x != (m.id.value, w))
              && (forall j :: 0 <= j < |r.outstanding| ==> r.outstanding[j].0 != m.id.value)
    ensures var r := OnPortMessageSpec(s, w, m);
            !(m.id.Some? && w < |s.workers| && (m.id.value, w) in s.outstanding) ==>
              r.counts == s.counts && r.promises == s.promises && r.outstanding == s.outstanding
    ensures Valid(OnPortMessageSpec(s, w, m))
  {
    if w < |s.workers| {
      KillValid(s, w, m);
      if m.id.Some? {
        ReplyValid(Kill(s, w, m), w, m.id.value, m);
      }
    }
  }

  lemma {:induction false} RemoveSame(out: seq<(nat, nat)>, id: nat, w: nat)
    requires (id, w) !in out
    ensures Remove(out, id, w) == out
    decreases |out|
  {
    if out != [] {
      assert out == out[..|out| - 1] + [out[|out| - 1]];
      RemoveSame(out[..|out| - 1], id, w);
    }
  }

  /** A reply delivered twice is handled once: the second delivery finds no
      listener and changes no count and no promise. */
  lemma ReplyHandledOnce(s: LegacyState, w: nat, m: PortMessage)
    requires Valid(s) && m.id.Some? && w < |s.workers|
    ensures var r := OnPortMessageSpec(s, w, m);
            var r2 := OnPortMessageSpec(r, w, m);
            r2.counts == r.counts && r2.promises == r.promises && r2.outstanding == r.outstanding
  {
    var r := OnPortMessageSpec(s, w, m);
    OnPortMessageValid(s, w, m);
    OnPortMessageValid(r, w, m);
  }

  lemma DecrementStep(c: seq<int>, w: nat, n: nat)
    ensures Decrement(Decrement(c, w, n), w, 1) == Decrement(c, w, n + 1)
  {
  }

  /** Request ids come from `++_id`: the first is 1. */
  lemma FirstIdIsOne(params: FullParams, minThreads: Option<int>, maxThreads: Option<int>, inputs: Inputs)
    ensures RunInferenceSpec(Initial(params, minThreads, maxThreads), inputs).1 == 1
  {
    InitialValid(params, minThreads, maxThreads);
  }

  /** The size bound needs `minThreads` not above `maxThreads`: with 2 and 1,
      a third request for which no worker is free adds a third worker. */
  lemma MinAboveMaxGrows(params: FullParams, inputs: Inputs)
    ensures var s0 := Initial(params, Some(2), Some(1));
            var s3 := RunInferenceSpec(RunInferenceSpec(RunInferenceSpec(s0, inputs).0, inputs).0, inputs).0;
            |s0.workers| == 2 && |s3.workers| == 3 && s0.maxThreads == 1
  {
    var s0 := Initial(params, Some(2), Some(1));
    InitialValid(params, Some(2), Some(1));
    assert s0.counts == [0, 0];
    assert FirstZero(s0.counts) == 0;
    var s1 := RunInferenceSpec(s0, inputs).0;
    assert s1 == Issue(s0, 0, 1, inputs);
    assert s1.counts == [1, 0] && |s1.workers| == 2 && s1.maxThreads == 1;
    assert FirstZero(s1.counts) == 1;
    var s2 := RunInferenceSpec(s1, inputs).0;
    assert s2 == Issue(s1, 1, 2, inputs);
    assert s2.counts == [1, 1] && |s2.workers| == 2 && s2.maxThreads == 1;
    assert FirstZero(s2.counts) == -1;
    assert ChooseSpec(s2).0 == NewWorkerSpec(s2, true);
  }

  // ---------------------------------------------------------------- the class

  class Pool {
    var workers: seq<WorkerInfo>
    var counts: seq<int>
    var nextWorker: nat
    var lastId: nat
    var outstanding: seq<(nat, nat)>
    var promises: map<nat, Settlement>
    var posted: seq<(nat, Posted)>
    var workerParams: FullParams
    var maxThreads: int

    function State(): LegacyState
      reads this
    {
      LegacyState(workers, counts, nextWorker, lastId, outstanding, promises, posted, workerParams, maxThreads)
    }

    constructor(params: FullParams, minThreadsOpt: Option<int>, maxThreadsOpt: Option<int>)
      ensures State() == Initial(params, minThreadsOpt, maxThreadsOpt)
      ensures Valid(State())
      ensures minThreadsOpt.GetOr(1) <= maxThreadsOpt.GetOr(5) && 0 <= maxThreadsOpt.GetOr(5) ==>
                |workers| <= maxThreads
    {
      workers, counts, nextWorker, lastId, outstanding := [], [], 0, 0, [];
      promises, posted, workerParams, maxThreads := map[], [], params, maxThreadsOpt.GetOr(5);
      new;
      var minThreads := minThreadsOpt.GetOr(1);
      var i := 1;
      while i <= minThreads
        invariant 1 <= i <= Max(0, minThreads) + 1
        invariant State() == AddWorkers(Empty(params, maxThreadsOpt.GetOr(5)), i - 1)
        decreases minThreads + 1 - i
      {
        var _ := NewWorker(false);
        i := i + 1;
      }
      InitialValid(params, minThreadsOpt, maxThreadsOpt);
    }

    method NewWorker(watchesKill: bool) returns (w: nat)
      modifies this
      ensures w == old(|workers|)
      ensures State() == NewWorkerSpec(old(State()), watchesKill)
    {
      w := |workers|;
      posted := posted + [(w, InitMessage(workerParams))];
      workers := workers + [WorkerInfo(watchesKill, false)];
      counts := counts + [0];
    }

    method ChooseWorker() returns (worker: Option<nat>)
      modifies this
      ensures (State(), worker) == ChooseSpec(old(State()))
    {
      var i := 0;
      while i < |counts|
        invariant 0 <= i <= |counts|
        invariant forall j :: 0 <= j < i ==> counts[j] != 0
      {
        if counts[i] == 0 {
          return Some(i);
        }
        i := i + 1;
      }
      if |workers| == maxThreads {
        if |workers| - 1 == nextWorker {
          nextWorker := 0;
          return Some(0);
        }
        nextWorker := nextWorker + 1;
        if nextWorker < |workers| {
          return Some(nextWorker);
        }
        return None;
      }
      var w := NewWorker(true);
      return Some(w);
    }

    /** `runInference`: returns the id that keys the request's promise. */
    method RunInference(inputs: Inputs) returns (id: nat)
      modifies this
      ensures (State(), id) == RunInferenceSpec(old(State()), inputs)
      ensures old(Valid(State())) ==> Valid(State())
      ensures old(|workers| <= maxThreads) ==> |workers| <= maxThreads
    {
      var worker := ChooseWorker();
      id := lastId + 1;
      lastId := id;
      if worker.Some? {
        var w := worker.value;
        counts := Increment(counts, w);
        outstanding := outstanding + [(id, w)];
        promises := promises[id := Pending];
        posted := posted + [(w, InferMessage(id, inputs))];
      } else {
        promises := promises[id := Rejected(TypeError)];
      }
      if old(Valid(State())) {
        RunInferenceValid(old(State()), inputs);
      }
    }

    /** A message on the port of worker `w`, seen by its listeners in turn. */
    method OnPortMessage(w: nat, m: PortMessage)
      modifies this
      ensures State() == OnPortMessageSpec(old(State()), w, m)
      ensures old(Valid(State())) ==> Valid(State())
    {
      if w >= |workers| {
        return;
      }
      if workers[w].watchesKill && m.kill {
        posted := posted + [(w, KillMessage)];
        workers := workers[w := workers[w].(terminated := true)];
      }
      assert State() == Kill(old(State()), w, m);
      if m.id.Some? {
        FireReplyListeners(w, m.id.value, m);
      }
      if old(Valid(State())) {
        OnPortMessageValid(old(State()), w, m);
      }
    }

    /** The reply listeners of worker `w`, in registration order. */
    method FireReplyListeners(w: nat, id: nat, m: PortMessage)
      modifies this
      ensures State() == Reply(old(State()), w, id, m)
    {
      var snapshot := outstanding;
      var kept: seq<(nat, nat)> := [];
      var fired: nat := 0;
      var k := 0;
      while k < |snapshot|
        invariant 0 <= k <= |snapshot|
        invariant kept == Remove(snapshot[..k], id, w)
        invariant fired == Matches(snapshot[..k], id, w)
        invariant counts == Decrement(old(counts), w, fired)
        invariant promises == if fired > 0 then Settle(old(promises), id, Outcome(m)) else old(promises)
        invariant unchanged(`workers, `outstanding, `posted, `nextWorker, `lastId, `workerParams, `maxThreads)
      {
        assert snapshot[..k + 1][..k] == snapshot[..k];
        if snapshot[k] == (id, w) {
          DecrementStep(old(counts), w, fired);
          counts := Decrement(counts, w, 1);
          promises := Settle(promises, id, Outcome(m));
          fired := fired + 1;
        } else {
          kept := kept + [snapshot[k]];
        }
        k := k + 1;
      }
      assert snapshot[..k] == snapshot;
      outstanding := kept;
    }
  }
}
