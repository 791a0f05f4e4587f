/**
 * The broker's side of the coordination core (python/broker.py): the table
 * of per-worker call handles, the random-polling load balancer
 * `getWorkerIndex`, and the part of `run` that registers with the workers,
 * streams tasks to them and deregisters at the end.
 *
 * Remote calls are not executed: every call the broker makes on a worker
 * stub (or a channel close) is appended to an outbound call log, and the
 * handle of an asynchronous `Simulate` call is the position of that call
 * in the log. What the environment decides -- the permutations numpy draws
 * and which call handles report `done()` -- is passed in as a `Poll`.
 */
module Broker {
  import opened Base
  import opened Messages

  /** The future returned by `Simulate.future`: it names the call that created it. */
  datatype Handle = Handle(call: nat)

  /** The connection to the worker listening on `port`. */
  datatype WorkerStub = WorkerStub(port: int)

  /** A call the broker makes on one of its worker connections. */
  datatype WorkerCall =
    | RegisterBroker(worker: int, brokerPort: int)
    | Simulate(worker: int, request: BrokerSimParams)
    | DeregisterBroker(worker: int, brokerPort: int)
    | CloseChannel(worker: int)

  /**
   * What the environment does while the balancer looks for a slot: the
   * permutation `np.random.permutation` yields on each pass of the
   * `while True` loop, in order, and which handles report `done()`.
   * Running out of permutations stands for spinning on.
   */
  datatype Poll = Poll(perms: seq<seq<nat>>, done: Handle -> bool)

  /** The indices `0, 1, ..., n - 1`. */
  function Indices(n: nat): (r: seq<nat>)
  {
    seq(n, i requires 0 <= i => i as nat)
  }

  /** `p` is a permutation of `range(n)`. */
  predicate IsPermutation(p: seq<nat>, n: nat)
  {
    multiset(p) == multiset(Indices(n))
  }

  /** Every permutation the environment supplies for a table of `n` slots is one of `range(n)`. */
  predicate ValidPoll(poll: Poll, n: nat)
  {
    forall k :: 0 <= k < |poll.perms| ==> IsPermutation(poll.perms[k], n)
  }

  /** A slot may receive a task: it never had one, or its last call reports `done()`. */
  predicate Eligible(slot: Option<Handle>, done: Handle -> bool)
  {
    slot.None? || done(slot.value)
  }

  /** No slot of the table may receive a task. */
  predicate NoneEligible(futures: seq<Option<Handle>>, done: Handle -> bool)
  {
    forall i :: 0 <= i < |futures| ==> !Eligible(futures[i], done)
  }

  /** Slot `i` exists and may receive a task. */
  predicate EligibleAt(futures: seq<Option<Handle>>, i: nat, done: Handle -> bool)
  {
    i < |futures| && Eligible(futures[i], done)
  }

  /** `i` is the first slot in the scan order `perm` that may receive a task. */
  predicate FirstEligibleIn(futures: seq<Option<Handle>>, done: Handle -> bool, perm: seq<nat>, i: nat)
  {
    exists k :: 0 <= k < |perm| && perm[k] == i && EligibleAt(futures, i, done) &&
      forall j :: 0 <= j < k ==> !EligibleAt(futures, perm[j], done)
  }

  /** A permutation of `range(n)` holds exactly the indices below `n`. */
  lemma PermutationCoversSlots(p: seq<nat>, n: nat, i: nat)
    requires IsPermutation(p, n)
    ensures i in p <==> i < n
  {
    assert i < n ==> Indices(n)[i] == i;
    assert i in multiset(p) <==> i in multiset(Indices(n));
  }

  /**
   * `getWorkerIndex`: scan each pass's permutation in order and return the
   * first slot that is empty or whose call is done; `None` when every pass
   * the environment supplies finds nothing (the source keeps spinning).
   */
  method GetWorkerIndex(futures: seq<Option<Handle>>, poll: Poll) returns (r: Option<nat>)
    requires ValidPoll(poll, |futures|)
    ensures r.Some? ==> r.value < |futures| && Eligible(futures[r.value], poll.done)
    ensures r.Some? ==> |poll.perms| > 0 && FirstEligibleIn(futures, poll.done, poll.perms[0], r.value)
    ensures r.None? <==> |poll.perms| == 0 || NoneEligible(futures, poll.done)
  {
    var pass := 0;
    while pass < |poll.perms|
      invariant 0 <= pass <= |poll.perms|
      invariant pass > 0 ==> NoneEligible(futures, poll.done)
    {
      var perm := poll.perms[pass];
      var k := 0;
      while k < |perm|
        invariant 0 <= k <= |perm|
        invariant forall j :: 0 <= j < k ==> perm[j] < |futures| && !Eligible(futures[perm[j]], poll.done)
      {
        var i := perm[k];
        PermutationCoversSlots(perm, |futures|, i);
        if futures[i].None? || poll.done(futures[i].value) {
          return Some(i);
        }
        k := k + 1;
      }
      forall i | 0 <= i < |futures|
        ensures !Eligible(futures[i], poll.done)
      {
        PermutationCoversSlots(perm, |futures|, i);
        var j :| 0 <= j < |perm| && perm[j] == i;
      }
      pass := pass + 1;
    }
    return None;
  }

  /** The requests of the `Simulate` calls in `calls`, in order. */
  function Requests(calls: seq<WorkerCall>): seq<BrokerSimParams>
  {
    if calls == [] then []
    else
      var last := calls[|calls| - 1];
      Requests(calls[..|calls| - 1]) + if last.Simulate? then [last.request] else []
  }

  /** Splitting a call log splits its `Simulate` requests the same way. */
  lemma {:induction false} RequestsAppend(a: seq<WorkerCall>, b: seq<WorkerCall>)
    ensures Requests(a + b) == Requests(a) + Requests(b)
    decreases |b|
  {
    if b == [] {
      assert a + b == a;
    } else {
      var b' := b[..|b| - 1];
      assert (a + b)[..|a + b| - 1] == a + b';
      RequestsAppend(a, b');
    }
  }

  /** Each task of the stream wrapped as `BrokerSimParams(simparams=task, port=port)`. */
  function Tagged(stream: seq<SimParams>, port: int): (r: seq<BrokerSimParams>)
  {
    seq(|stream|, i requires 0 <= i < |stream| => BrokerSimParams(stream[i], port))
  }

  /** `c` is a `Simulate` call sent to `worker`. */
  predicate SimulatesTo(c: WorkerCall, worker: int)
  {
    c.Simulate? && c.worker == worker
  }

  /** The index of the last `Simulate` call to `worker` in `calls`, if any. */
  function LastSimulate(calls: seq<WorkerCall>, worker: int): (r: Option<nat>)
    ensures r.Some? ==> r.value < |calls| && SimulatesTo(calls[r.value], worker)
    ensures r.Some? ==> forall j :: r.value < j < |calls| ==> !SimulatesTo(calls[j], worker)
    ensures r.None? ==> forall j :: 0 <= j < |calls| ==> !SimulatesTo(calls[j], worker)
  {
    if calls == [] then None
    else
      var last := calls[|calls| - 1];
      if last.Simulate? && last.worker == worker then Some(|calls| - 1)
      else LastSimulate(calls[..|calls| - 1], worker)
  }

  /** Appending one call changes the last `Simulate` to `worker` only if it is one. */
  lemma LastSimulateAppend(calls: seq<WorkerCall>, c: WorkerCall, worker: int)
    ensures LastSimulate(calls + [c], worker) ==
      if c.Simulate? && c.worker == worker then Some(|calls|) else LastSimulate(calls, worker)
  {
    assert (calls + [c])[..|calls|] == calls;
  }

  /** The slot entry for `worker` that a log of calls implies: the handle of its last `Simulate`. */
  function SlotFor(calls: seq<WorkerCall>, worker: int): Option<Handle>
  {
    match LastSimulate(calls, worker)
    case None => None
    case Some(n) => Some(Handle(n))
  }

  /** `RegisterBroker(port)` sent to each of the `n` workers from `start` on, in port order. */
  function Registrations(start: int, n: nat, port: int): seq<WorkerCall>
  {
    seq(n, i requires 0 <= i => RegisterBroker(start + i, port))
  }

  /** The shutdown calls: for each worker in port order, `DeregisterBroker(port)` then closing its channel. */
  function Teardown(start: int, n: nat, port: int): seq<WorkerCall>
  {
    if n == 0 then []
    else Teardown(start, n - 1, port) + [DeregisterBroker(start + n - 1, port), CloseChannel(start + n - 1)]
  }

  /** How many `DeregisterBroker(port)` calls in `calls` go to `worker`. */
  function Deregistrations(calls: seq<WorkerCall>, worker: int, port: int): nat
  {
    if calls == [] then 0
    else
      Deregistrations(calls[..|calls| - 1], worker, port)
      + if calls[|calls| - 1] == DeregisterBroker(worker, port) then 1 else 0
  }

  lemma {:induction false} DeregistrationsAppend(a: seq<WorkerCall>, b: seq<WorkerCall>, worker: int, port: int)
    ensures Deregistrations(a + b, worker, port) == Deregistrations(a, worker, port) + Deregistrations(b, worker, port)
    decreases |b|
  {
    if b == [] {
      assert a + b == a;
    } else {
      var b' := b[..|b| - 1];
      assert (a + b)[..|a + b| - 1] == a + b';
      DeregistrationsAppend(a, b', worker, port);
    }
  }

  /**
   * At shutdown each of the `n` workers receives `DeregisterBroker(port)`
   * exactly once, no other port receives it, and the teardown makes no
   * `Simulate` call.
   */
  lemma {:induction false} TeardownDeregistersOnce(start: int, n: nat, port: int, worker: int)
    ensures Deregistrations(Teardown(start, n, port), worker, port) ==
      if start <= worker < start + n then 1 else 0
    ensures Requests(Teardown(start, n, port)) == []
  {
    if n > 0 {
      var w := start + n - 1;
      var tail := [DeregisterBroker(w, port), CloseChannel(w)];
      TeardownDeregistersOnce(start, n - 1, port, worker);
      DeregistrationsAppend(Teardown(start, n - 1, port), tail, worker, port);
      RequestsAppend(Teardown(start, n - 1, port), tail);
      var first := [DeregisterBroker(w, port)];
      assert tail[..1] == first && first[..0] == [];
      assert Deregistrations(first, worker, port) == if worker == w then 1 else 0;
      assert Deregistrations(tail, worker, port) == if worker == w then 1 else 0;
      assert Requests(first) == [] && Requests(tail) == [];
    }
  }

  /** Registration makes no `Simulate` call. */
  lemma {:induction false} RegistrationsRequestNothing(start: int, n: nat, port: int)
    ensures Requests(Registrations(start, n, port)) == []
  {
    if n > 0 {
      var regs := Registrations(start, n, port);
      assert regs[..n - 1] == Registrations(start, n - 1, port);
      RegistrationsRequestNothing(start, n - 1, port);
    }
  }

  /**
   * The broker's dispatch state inside `run`: its own port, the worker
   * stubs for ports `workerPortStart ..`, one call handle (or `None`) per
   * worker in `workerFutures`, and the log of calls made on the stubs.
   */
  class DispatchPool {
    const port: int
    const workerPortStart: int
    var workerStubs: seq<WorkerStub>
    var workerFutures: seq<Option<Handle>>
    var calls: seq<WorkerCall>

    /**
     * Slot `i` talks to worker `workerPortStart + i`, and its entry is the
     * handle of the last `Simulate` sent to that worker (`None` before the first).
     */
    ghost predicate Valid()
      reads this
    {
      && |workerFutures| == |workerStubs|
      && (forall i :: 0 <= i < |workerStubs| ==> workerStubs[i] == WorkerStub(workerPortStart + i))
      && (forall i :: 0 <= i < |workerFutures| ==> workerFutures[i] == SlotFor(calls, workerPortStart + i))
    }

    /**
     * The setup loop of `run`: connect to each worker port in
     * `[workerPortStart, workerPortStart + numWorkers)`, register this
     * broker's port with it, and start with an empty slot.
     */
    constructor (brokerPort: int, workerPortStart: int, numWorkers: nat)
      ensures Valid()
      ensures port == brokerPort && this.workerPortStart == workerPortStart
      ensures |workerFutures| == numWorkers
      ensures forall i :: 0 <= i < numWorkers ==> workerFutures[i].None?
      ensures calls == Registrations(workerPortStart, numWorkers, brokerPort)
    {
      port := brokerPort;
      this.workerPortStart := workerPortStart;
      var stubs: seq<WorkerStub> := [];
      var futures: seq<Option<Handle>> := [];
      var log: seq<WorkerCall> := [];
      var i := 0;
      while i < numWorkers
        invariant 0 <= i <= numWorkers
        invariant stubs == seq(i, k requires 0 <= k => WorkerStub(workerPortStart + k))
        invariant futures == seq(i, k requires 0 <= k => None)
        invariant log == Registrations(workerPortStart, i, brokerPort)
      {
        var stub := WorkerStub(workerPortStart + i);
        log := log + [RegisterBroker(stub.port, brokerPort)];
        stubs := stubs + [stub];
        futures := futures + [None];
        i := i + 1;
      }
      workerStubs, workerFutures, calls := stubs, futures, log;
      new;
      forall k | 0 <= k < |workerFutures|
        ensures workerFutures[k] == SlotFor(calls, workerPortStart + k)
      {
        LastSimulateNoneWithoutSimulate(calls, workerPortStart + k);
      }
    }

    /**
     * One iteration of the dispatch loop: pick a slot, tag the task with this
     * broker's port, send it to that slot's worker and keep the new handle in
     * that slot. `None` when the balancer is still spinning; nothing changes then.
     */
    method Dispatch(simparams: SimParams, poll: Poll) returns (idx: Option<nat>)
      requires Valid()
      requires ValidPoll(poll, |workerFutures|)
      modifies this
      ensures Valid() && workerStubs == old(workerStubs)
      ensures idx.None? <==> |poll.perms| == 0 || NoneEligible(old(workerFutures), poll.done)
      ensures idx.None? ==> calls == old(calls) && workerFutures == old(workerFutures)
      ensures idx.Some? ==>
        && idx.value < |workerFutures|
        && Eligible(old(workerFutures)[idx.value], poll.done)
        && calls == old(calls) + [Simulate(workerPortStart + idx.value, BrokerSimParams(simparams, port))]
        && workerFutures == old(workerFutures)[idx.value := Some(Handle(|old(calls)|))]
    {
      idx := GetWorkerIndex(workerFutures, poll);
      if idx.Some? {
        var i := idx.value;
        var brokerparams := BrokerSimParams(simparams, port);
        var call := Simulate(workerStubs[i].port, brokerparams);
        var updated := workerFutures[i := Some(Handle(|calls|))];
        forall k | 0 <= k < |updated|
          ensures updated[k] == SlotFor(calls + [call], workerPortStart + k)
        {
          LastSimulateAppend(calls, call, workerPortStart + k);
        }
        calls := calls + [call];
        workerFutures := updated;
      }
    }

    /**
     * The `for simparams in OpenSimStream(job)` loop: dispatch the stream in
     * order, one poll per task. Returns how many tasks were sent; fewer than
     * the stream holds means the balancer spins forever on the next one.
     */
    method DispatchStream(stream: seq<SimParams>, polls: seq<Poll>) returns (sent: nat)
      requires Valid()
      requires |polls| == |stream|
      requires forall k :: 0 <= k < |polls| ==> ValidPoll(polls[k], |workerFutures|)
      modifies this
      ensures Valid() && workerStubs == old(workerStubs)
      ensures sent <= |stream|
      ensures |calls| == |old(calls)| + sent
      ensures calls[..|old(calls)|] == old(calls)
      ensures Requests(calls) == Requests(old(calls)) + Tagged(stream[..sent], port)
      ensures sent < |stream| ==> |polls[sent].perms| == 0 || NoneEligible(workerFutures, polls[sent].done)
      ensures |workerFutures| == 0 ==> sent == 0
    {
      sent := 0;
      while sent < |stream|
        invariant Valid() && workerStubs == old(workerStubs)
        invariant 0 <= sent <= |stream|
        invariant |calls| == |old(calls)| + sent
        invariant calls[..|old(calls)|] == old(calls)
        invariant Requests(calls) == Requests(old(calls)) + Tagged(stream[..sent], port)
        invariant |workerFutures| == 0 ==> sent == 0
      {
        ghost var before := calls;
        var idx := Dispatch(stream[sent], polls[sent]);
        if idx.None? {
          return;
        }
        RequestsAppend(before, calls[|before|..]);
        assert calls == before + calls[|before|..];
        assert Tagged(stream[..sent + 1], port) == Tagged(stream[..sent], port) + [BrokerSimParams(stream[sent], port)];
        sent := sent + 1;
      }
    }

    /** The shutdown loop of `run`: deregister from every worker, then close its channel. */
    method Shutdown()
      requires Valid()
      modifies this
      ensures Valid() && workerStubs == old(workerStubs) && workerFutures == old(workerFutures)
      ensures calls == old(calls) + Teardown(workerPortStart, |workerStubs|, port)
    {
      var i := 0;
      while i < |workerStubs|
        invariant Valid() && workerStubs == old(workerStubs) && workerFutures == old(workerFutures)
        invariant 0 <= i <= |workerStubs|
        invariant calls == old(calls) + Teardown(workerPortStart, i, port)
      {
        var tail := [DeregisterBroker(workerStubs[i].port, port), CloseChannel(workerStubs[i].port)];
        forall k | 0 <= k < |workerFutures|
          ensures workerFutures[k] == SlotFor(calls + tail, workerPortStart + k)
        {
          LastSimulateAppend(calls, tail[0], workerPortStart + k);
          LastSimulateAppend(calls + [tail[0]], tail[1], workerPortStart + k);
          assert calls + tail == calls + [tail[0]] + [tail[1]];
        }
        calls := calls + tail;
        i := i + 1;
      }
    }
  }

  /** A log without `Simulate` calls leaves every slot empty. */
  lemma {:induction false} LastSimulateNoneWithoutSimulate(calls: seq<WorkerCall>, worker: int)
    requires forall k :: 0 <= k < |calls| ==> !calls[k].Simulate?
    ensures LastSimulate(calls, worker).None?
  {
    if calls != [] {
      LastSimulateNoneWithoutSimulate(calls[..|calls| - 1], worker);
    }
  }

  /**
   * The core of `run` between opening the search connection and printing the
   * results: set up the pool, dispatch the stream, and, once the whole stream
   * has been sent, deregister from every worker. The calls made are the
   * registrations, one `Simulate` per dispatched task in stream order tagged
   * with `brokerPort`, and, when the stream completes, the teardown.
   */
  method Run(brokerPort: int, workerPortStart: int, numWorkers: nat, stream: seq<SimParams>, polls: seq<Poll>)
    returns (pool: DispatchPool, sent: nat)
    requires |polls| == |stream|
    requires forall k :: 0 <= k < |polls| ==> ValidPoll(polls[k], numWorkers)
    ensures pool.Valid() && |pool.workerFutures| == numWorkers
    ensures sent <= |stream|
    ensures numWorkers == 0 ==> sent == 0
    ensures Requests(pool.calls) == Tagged(stream[..sent], brokerPort)
    ensures |pool.calls| >= numWorkers && pool.calls[..numWorkers] == Registrations(workerPortStart, numWorkers, brokerPort)
    ensures sent == |stream| ==>
      |pool.calls| == numWorkers + sent + 2 * numWorkers &&
      pool.calls[numWorkers + sent..] == Teardown(workerPortStart, numWorkers, brokerPort)
    ensures sent < |stream| ==> |polls[sent].perms| == 0 || NoneEligible(pool.workerFutures, polls[sent].done)
    ensures sent < |stream| ==> |pool.calls| == numWorkers + sent
  {
    pool := new DispatchPool(brokerPort, workerPortStart, numWorkers);
    RegistrationsRequestNothing(workerPortStart, numWorkers, brokerPort);
    ghost var setup := pool.calls;
    sent := pool.DispatchStream(stream, polls);
    if sent == |stream| {
      ghost var dispatched := pool.calls;
      pool.Shutdown();
      TeardownOrder(workerPortStart, numWorkers, brokerPort);
      assert pool.calls[..numWorkers] == dispatched[..numWorkers];
      RequestsAppend(dispatched, Teardown(workerPortStart, numWorkers, brokerPort));
      TeardownDeregistersOnce(workerPortStart, numWorkers, brokerPort, workerPortStart);
    }
  }

  /** Shutdown makes two calls per worker, in port order: `DeregisterBroker(port)`, then closing the channel. */
  lemma {:induction false} TeardownOrder(start: int, n: nat, port: int)
    ensures |Teardown(start, n, port)| == 2 * n
    ensures forall k :: 0 <= k < n ==>
      Teardown(start, n, port)[2 * k] == DeregisterBroker(start + k, port) &&
      Teardown(start, n, port)[2 * k + 1] == CloseChannel(start + k)
  {
    if n > 0 {
      TeardownOrder(start, n - 1, port);
      var prefix := Teardown(start, n - 1, port);
      forall k | 0 <= k < n
        ensures Teardown(start, n, port)[2 * k] == DeregisterBroker(start + k, port)
        ensures Teardown(start, n, port)[2 * k + 1] == CloseChannel(start + k)
      {
        if k < n - 1 {
          assert Teardown(start, n, port)[2 * k] == prefix[2 * k];
          assert Teardown(start, n, port)[2 * k + 1] == prefix[2 * k + 1];
        }
      }
    }
  }
}
