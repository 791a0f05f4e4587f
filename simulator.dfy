/**
 * The worker's side of the coordination core (python/worker.py): the
 * `Worker` servicer of the `Simulator` service, which keeps one channel and
 * one broker stub per registered broker port and routes each simulation
 * result to the broker named in the request.
 *
 * Opening a channel is modelled by a fresh `Channel` value (a serial number
 * tells successive channels to the same port apart); closing one and
 * pushing a result through a stub are recorded in logs on the worker.
 */
module Simulator {
  import opened Base
  import opened Messages

  /** A channel opened to `localhost:port`; `serial` counts the channels this worker opened before it. */
  datatype Channel = Channel(port: int, serial: nat)

  /** A `BrokerStub` built over a channel. */
  datatype BrokerStub = BrokerStub(channel: Channel)

  /** A `PushResult` call made through a broker stub. */
  datatype Push = Push(stub: BrokerStub, result: SimResult)

  /** The worker's two dictionaries, `brokerchannels` and `brokerstubs`. */
  datatype Registry = Registry(channels: map<int, Channel>, stubs: map<int, BrokerStub>)

  /**
   * Both dictionaries have the same keys; under each port the stub wraps
   * the channel, and that channel leads to that port.
   */
  predicate Consistent(r: Registry)
  {
    && r.channels.Keys == r.stubs.Keys
    && forall p :: p in r.channels ==> r.stubs[p] == BrokerStub(r.channels[p]) && r.channels[p].port == p
  }

  /** `RegisterBroker`: store a new channel under `port` in both dictionaries, replacing any earlier one. */
  function Register(r: Registry, port: int, ch: Channel): (r': Registry)
    requires ch.port == port
    ensures r'.channels.Keys == r.channels.Keys + {port} && r'.stubs.Keys == r.stubs.Keys + {port}
    ensures r'.channels[port] == ch && r'.stubs[port] == BrokerStub(ch)
    ensures forall p :: p in r.channels && p != port ==> r'.channels[p] == r.channels[p]
    ensures forall p :: p in r.stubs && p != port ==> r'.stubs[p] == r.stubs[p]
    ensures Consistent(r) ==> Consistent(r')
  {
    Registry(r.channels[port := ch], r.stubs[port := BrokerStub(ch)])
  }

  /**
   * `DeregisterBroker`: a `KeyError` when `port` has no channel; otherwise
   * `port` is removed from both dictionaries.
   */
  function Deregister(r: Registry, port: int): (res: Result<Registry>)
    ensures res.Err? <==> port !in r.channels
    ensures res.Err? ==> res.error == KeyError(port)
    ensures res.Ok? ==>
      && res.value.channels.Keys == r.channels.Keys - {port}
      && res.value.stubs.Keys == r.stubs.Keys - {port}
      && (forall p :: p in res.value.channels ==> res.value.channels[p] == r.channels[p])
      && (forall p :: p in res.value.stubs ==> res.value.stubs[p] == r.stubs[p])
    ensures res.Ok? && Consistent(r) ==> Consistent(res.value)
  {
    if port !in r.channels then Err(KeyError(port))
    else Ok(Registry(r.channels - {port}, r.stubs - {port}))
  }

  /** Registering a port twice leaves the keys of registering it once, with the second channel in place. */
  lemma RegisterTwice(r: Registry, port: int, first: Channel, second: Channel)
    requires first.port == port && second.port == port
    ensures Register(Register(r, port, first), port, second) == Register(r, port, second)
  {
  }

  /** Deregistering a port that was just registered restores the registry it was registered in, if the port was new. */
  lemma DeregisterUndoesRegister(r: Registry, port: int, ch: Channel)
    requires ch.port == port && port !in r.channels && port !in r.stubs
    ensures Deregister(Register(r, port, ch), port) == Ok(r)
  {
    assert r.channels[port := ch] - {port} == r.channels;
    assert r.stubs[port := BrokerStub(ch)] - {port} == r.stubs;
  }

  /**
   * The simulation itself: the result keeps the task's `jobid` and `simid`
   * and its objective is the minimum of the parameters (`np.amin`); an
   * empty parameter vector is numpy's `ValueError`.
   */
  function Evaluate(simparams: SimParams): (res: Result<SimResult>)
    ensures res.Err? <==> simparams.params == []
    ensures res.Err? ==> res.error == ValueError
    ensures res.Ok? ==>
      && res.value.jobid == simparams.jobid
      && res.value.simid == simparams.simid
      && res.value.objective in simparams.params
      && IsLowerBound(res.value.objective, simparams.params)
  {
    match Amin(simparams.params)
    case None => Err(ValueError)
    case Some(m) => Ok(SimResult(simparams.jobid, simparams.simid, m))
  }

  /** The `Worker` servicer with its broker dictionaries. */
  class Worker {
    var brokerchannels: map<int, Channel>
    var brokerstubs: map<int, BrokerStub>
    /** How many channels this worker has opened. */
    var channelsOpened: nat
    /** The channels this worker has closed, in order. */
    var closed: seq<Channel>
    /** The results pushed through broker stubs, in order. */
    var pushes: seq<Push>

    function State(): Registry
      reads this
    {
      Registry(brokerchannels, brokerstubs)
    }

    /** The dictionaries agree, and every stored channel was opened by this worker. */
    ghost predicate Valid()
      reads this
    {
      && Consistent(State())
      && forall p :: p in brokerchannels ==> brokerchannels[p].serial < channelsOpened
    }

    /** `__init__`: both dictionaries start empty (seeding numpy is not modelled). */
    constructor (seed: int)
      ensures Valid()
      ensures brokerchannels == map[] && brokerstubs == map[]
      ensures channelsOpened == 0 && closed == [] && pushes == []
    {
      brokerchannels, brokerstubs := map[], map[];
      channelsOpened, closed, pushes := 0, [], [];
    }

    /** `RegisterBroker`: open a channel to the broker's port and store it and its stub, overwriting any earlier entry. */
    method RegisterBroker(port: int)
      requires Valid()
      modifies this`brokerchannels, this`brokerstubs, this`channelsOpened
      ensures Valid()
      ensures channelsOpened == old(channelsOpened) + 1
      ensures State() == Register(old(State()), port, Channel(port, old(channelsOpened)))
    {
      var channel := Channel(port, channelsOpened);
      channelsOpened := channelsOpened + 1;
      brokerchannels := brokerchannels[port := channel];
      brokerstubs := brokerstubs[port := BrokerStub(channel)];
    }

    /**
     * `DeregisterBroker`: look up the broker's channel (a `KeyError`, with
     * nothing changed, when there is none), close it and remove the port
     * from both dictionaries.
     */
    method DeregisterBroker(port: int) returns (o: Outcome)
      requires Valid()
      modifies this`brokerchannels, this`brokerstubs, this`closed
      ensures Valid()
      ensures match Deregister(old(State()), port)
        case Err(e) => o == Fail(e) && State() == old(State()) && closed == old(closed)
        case Ok(r) => o == Pass && State() == r && closed == old(closed) + [old(brokerchannels)[port]]
    {
      if port !in brokerchannels {
        return Fail(KeyError(port));
      }
      closed := closed + [brokerchannels[port]];
      brokerchannels := brokerchannels - {port};
      brokerstubs := brokerstubs - {port};
      o := Pass;
    }

    /**
     * `Simulate`: compute the result, then push it through the stub
     * registered under the request's broker port. A failed computation or
     * an unknown port raises before anything is pushed.
     */
    method Simulate(request: BrokerSimParams) returns (o: Outcome)
      requires Valid()
      modifies this`pushes
      ensures match Evaluate(request.simparams)
        case Err(e) => o == Fail(e) && pushes == old(pushes)
        case Ok(result) =>
          if request.port in brokerstubs then
            o == Pass && pushes == old(pushes) + [Push(brokerstubs[request.port], result)]
          else
            o == Fail(KeyError(request.port)) && pushes == old(pushes)
      ensures |pushes| > |old(pushes)| ==> pushes[|pushes| - 1].stub.channel.port == request.port
    {
      var result := Evaluate(request.simparams);
      if result.Err? {
        return Fail(result.error);
      }
      if request.port !in brokerstubs {
        return Fail(KeyError(request.port));
      }
      pushes := pushes + [Push(brokerstubs[request.port], result.value)];
      o := Pass;
    }
  }
}

/**
 * One worker serving one broker on port 5000: the task
 * `{jobid: 1, simid: 0, params: [3.0, 1.0, 2.0]}` is answered with objective
 * 1.0 pushed to that broker, and after the broker deregisters the same task
 * fails at the stub lookup without a push.
 */
module SimulatorScenario {
  import opened Base
  import opened Messages
  import opened Simulator

  method RoundTrip() returns (first: Outcome, deregistered: Outcome, second: Outcome, pushed: seq<Push>)
    ensures first == Pass && deregistered == Pass && second == Fail(KeyError(5000))
    ensures pushed == [Push(BrokerStub(Channel(5000, 0)), SimResult(1, 0, 1.0))]
  {
    var worker := new Worker(6000);
    worker.RegisterBroker(5000);
    var request := BrokerSimParams(SimParams(1, 0, [3.0, 1.0, 2.0]), 5000);
    assert Amin([2.0]) == Some(2.0);
    assert Amin([1.0, 2.0]) == Some(1.0);
    first := worker.Simulate(request);
    deregistered := worker.DeregisterBroker(5000);
    second := worker.Simulate(request);
    pushed := worker.pushes;
  }
}
