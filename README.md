# Broker/worker coordination core of trustworthysearch-demo, in Dafny

The demo splits simulation work between brokers and a pool of workers.
This project models the two pieces of that system that hold sequential
bookkeeping logic:

- **Broker side** (`python/broker.py`). `run` connects to workers on ports
  `WORKERPORTSTART .. WORKERPORTSTART + num_workers - 1` and registers the
  broker's port with each of them. It keeps one call handle per worker slot
  in `worker_futures`. For each task the search server streams, the
  load balancer `getWorkerIndex` picks a slot whose entry is `None` or whose
  last call is `done()`. The task is tagged with the broker's port, and the
  new asynchronous `Simulate` handle overwrites that one slot. At the end
  the broker deregisters from every worker.
- **Worker side** (`python/worker.py`). The `Worker` servicer keeps
  `brokerchannels` and `brokerstubs`, two dictionaries keyed by broker port.
  `RegisterBroker` and `DeregisterBroker` update them in place. `Simulate`
  takes the minimum of the parameters and pushes the result through the
  stub of the broker named in the request.

Files:

- `base.dfy` (module `Base`): `Option`, `Result`, `Outcome`, and the Python
  exceptions the code can raise (`KeyError`, `ValueError`).
- `messages.dfy` (module `Messages`): the protocol messages `SimParams`,
  `BrokerSimParams` and `SimResult`, plus `Amin` (`np.amin`).
- `broker.dfy` (module `Broker`): `GetWorkerIndex` and the class
  `DispatchPool`. The class has the per-worker stubs, the slot table and a
  log of every call made on a worker stub.
- `simulator.dfy` (modules `Simulator` and `SimulatorScenario`): the
  registry as a value (`Registry`, `Register`, `Deregister`, `Evaluate`) and
  the class `Worker`, whose methods are proved against those functions.

Modelling choices:

- Remote calls are not executed. Each call the broker makes on a worker
  stub (`RegisterBroker`, `Simulate`, `DeregisterBroker`) and each channel
  close is appended to the pool's `calls` log.
- The future returned by `Simulate.future` is a `Handle` holding the
  position of that call in the log. The pool's invariant `Valid()` states
  that slot `i` holds the handle of the last `Simulate` sent to worker
  `WORKERPORTSTART + i`, or `None` if no task has been sent to it.
- The environment's choices are inputs. A `Poll` carries the permutation
  `np.random.permutation` yields on each pass of the `while True` loop and
  which handles report `done()`. When the permutations run out, the
  broker is still spinning. `GetWorkerIndex` returns `None` for that, and
  `DispatchStream` then returns how many tasks it managed to send.
- On the worker, opening a channel gives a fresh `Channel(port, serial)`.
  Closed channels and pushed results are logged on the worker.
- Python floats are `real`. Ports, `jobid` and `simid` are `int`.

## Model

| member | source | states |
|---|---|---|
| `Messages.Amin` | python/worker.py:65-68 | `np.amin` fails exactly on an empty vector; otherwise the result is one of the parameters and at most every parameter |
| `Broker.PermutationCoversSlots` | python/broker.py:81 | a permutation of `range(n)` contains index `i` exactly when `i < n`, so one pass visits every slot |
| `Broker.GetWorkerIndex` | python/broker.py:79-84 | a returned index is in range and its slot is `None` or done; it is the first such slot in the first pass's permutation; nothing is returned exactly when there is no pass or no slot qualifies, so an empty table always spins and one pass is enough when some slot qualifies |
| `Broker.LastSimulate` | python/broker.py:140 | the slot's handle names the last `Simulate` call that went to that slot's worker: no later call went there; `None` exactly when no `Simulate` went there at all |
| `Broker.LastSimulateAppend` | python/broker.py:140 | a new call changes the latest `Simulate` handle of its own worker only |
| `Broker.LastSimulateNoneWithoutSimulate` | python/broker.py:111-117 | before any `Simulate` call, every slot is `None` |
| `Broker.RequestsAppend` | python/broker.py:136-140 | the `Simulate` requests of a log split along with the log, so each dispatch adds its request after the earlier ones |
| `Broker.RegistrationsRequestNothing` | python/broker.py:111-117 | setup sends no `Simulate` request |
| `Broker.TeardownDeregistersOnce` | python/broker.py:159-161 | at shutdown each worker in the range receives `DeregisterBroker(BROKER_PORT)` exactly once, no other port receives it, and no `Simulate` is sent |
| `Broker.TeardownOrder` | python/broker.py:159-161 | shutdown makes two calls per worker, in port order: `DeregisterBroker(BROKER_PORT)` to worker `WORKERPORTSTART + k`, then closing its channel |
| `Broker.DispatchPool.constructor` | python/broker.py:108-117 | after setup the table has `num_workers` entries, all `None`, and worker port `WORKERPORTSTART + i` has been sent `RegisterBroker(BROKER_PORT)`, in port order |
| `Broker.DispatchPool.Dispatch` | python/broker.py:137-140 | the chosen slot was eligible; one `Simulate` carrying the unmodified task and `port == BROKER_PORT` goes to that slot's worker; only that slot changes, to the new handle; while spinning nothing changes |
| `Broker.DispatchPool.DispatchStream` | python/broker.py:136-140 | the `Simulate` requests sent are exactly the stream's tasks tagged with `BROKER_PORT`, one per task and in stream order, up to the task on which the balancer spins; an empty table sends nothing |
| `Broker.DispatchPool.Shutdown` | python/broker.py:159-161 | appends the teardown calls and leaves the slot table unchanged |
| `Broker.Run` | python/broker.py:108-161 | the calls made are the registrations, then one tagged `Simulate` per dispatched task in order, then, if the whole stream was sent, the teardown; stopping early happens only when the balancer spins on the next task, and then no teardown follows |
| `Simulator.Register` | python/worker.py:76-80 | the port becomes a key of both dictionaries, holding the new channel and its stub; every other key and value is unchanged; the two dictionaries stay consistent |
| `Simulator.Deregister` | python/worker.py:83-87 | an unknown port is a `KeyError`; otherwise the port leaves both dictionaries, every other entry is unchanged, and consistency is kept |
| `Simulator.RegisterTwice` | python/worker.py:78-79 | registering a port twice is registering it once with the second channel, so the same key set results |
| `Simulator.DeregisterUndoesRegister` | python/worker.py:76-87 | deregistering a newly registered port restores the registry it was registered in |
| `Simulator.Evaluate` | python/worker.py:64-68 | the result keeps `jobid` and `simid`, and its objective is one of the parameters and at most each of them; an empty parameter list is a `ValueError` |
| `Simulator.Worker.constructor` | python/worker.py:57-59 | a new worker has empty `brokerchannels` and `brokerstubs` |
| `Simulator.Worker.RegisterBroker` | python/worker.py:76-80 | the new registry is `Register` of the old one with a freshly opened channel to the port |
| `Simulator.Worker.DeregisterBroker` | python/worker.py:83-87 | for an unknown port, a `KeyError` with nothing changed and nothing closed; otherwise the port's channel is closed and the registry becomes `Deregister` of the old one |
| `Simulator.Worker.Simulate` | python/worker.py:63-70 | an empty parameter list or an unregistered port fails with no push; otherwise exactly one push of the `Evaluate` result goes to the stub registered under `request.port`, which leads to that port |
| `SimulatorScenario.RoundTrip` | python/worker.py:57-87 | a task with parameters `[3.0, 1.0, 2.0]` yields objective `1.0`, pushed to the broker that registered; after it deregisters, the same task fails with `KeyError` |

## Left out

- gRPC channels, stubs, servers, futures and thread pools are left out. They are replaced by the call logs and handles described above.
- Concurrency is not modelled. Every operation runs to completion on its own, with no interleaving of RPC handlers or concurrent changes to the dictionaries.
- Broker.GetWorkerIndex: which handles report `done()` is fixed for the duration of one call, though in the source a call may complete between two checks. The endless spin is bounded by the number of permutations the environment supplies.
- The `PushResult` relay on the broker, `StartJob`, `OpenSimStream`, `GetJobResult` and result printing are left out. They are pass-through remote calls. The stream is an input sequence.
- Failures of remote calls are not modelled. This covers transport errors during a push or during registration.
- Progress telemetry on standard output is not modelled. It is float arithmetic with Python's `round`.
- Seeding numpy's generator is not modelled, and permutations are inputs instead of draws.
- Float semantics of `np.amin` are not modelled. This includes NaN and infinities.
- A negative `--num_workers` is not modelled: the worker count is a `nat`. In the source, `range` is then empty, so it behaves like 0 workers, which is modelled.
- Argument parsing, the job-type table, `run_multiple` and `python/job_killer.py` are not part of this model.
- Simulator.Worker.DeregisterBroker: the source's second `pop` would raise `KeyError` after the channel dictionary had already changed if the two dictionaries disagreed. `Valid()` rules that state out, so this path is not modelled.
