/**
 * The shared producer of lib/kafka.js: one module-wide producer, created
 * lazily by the first caller and recreated after it disconnects.
 *
 * `getProducer` is split at its one suspension point. `Acquire` is the part
 * before the connect (return the held producer, tell the caller to wait, or
 * mark a connect as in flight) and `CompleteConnect` is the part after it
 * (store the producer or report the error). The window between the two is
 * where other callers run: they observe `connecting` and wait.
 */
module KafkaProducer {
  import opened Wrappers

  /** An opaque producer object. */
  datatype Handle = Handle(id: nat)

  /** What one pass through the top of `getProducer` decides. */
  datatype AcquireStep =
    | Ready(h: Handle)  // a producer is held: it is returned at once
    | MustWait          // another caller is connecting: sleep and start again from the top
    | StartedConnect    // nobody is: this caller marked a connect as in flight and runs it

  /** The three states the two variables encode. */
  datatype Phase = Disconnected | Connecting | Connected

  class ProducerLifecycle {
    /** `producerInstance`: the producer handed to callers, if one is held. */
    var instance: Option<Handle>
    /** `producerConnecting`: a connect is in flight. */
    var connecting: bool
    /** How many connects have been started so far. */
    ghost var connectAttempts: nat

    /** A producer is never held while a connect is in flight. */
    ghost predicate Valid()
      reads this
    {
      !(instance.Some? && connecting)
    }

    ghost function State(): Phase
      reads this
      requires Valid()
    {
      if instance.Some? then Connected else if connecting then Connecting else Disconnected
    }

    /** Module load: no producer, nothing connecting. */
    constructor ()
      ensures Valid() && State() == Disconnected
      ensures instance == None && !connecting && connectAttempts == 0
    {
      instance := None;
      connecting := false;
      connectAttempts := 0;
    }

    /** The top of `getProducer`, up to and including the start of a connect. */
    method Acquire() returns (step: AcquireStep)
      requires Valid()
      modifies this
      ensures Valid()
      // A held producer is returned as it is, and nothing starts.
      ensures old(instance).Some? ==> step == Ready(old(instance).value) && unchanged(this)
      // While a connect is in flight the caller waits, and nothing starts.
      ensures old(State()) == Connecting ==> step == MustWait && unchanged(this)
      // From the idle state exactly one connect starts and is marked in flight.
      ensures old(State()) == Disconnected ==>
        && step == StartedConnect
        && instance == None && connecting
        && connectAttempts == old(connectAttempts) + 1
    {
      if instance.Some? {
        return Ready(instance.value);
      }
      if connecting {
        return MustWait;
      }
      connecting := true;
      connectAttempts := connectAttempts + 1;
      step := StartedConnect;
    }

    /**
     * The end of a connect begun by `Acquire`: on success the new producer `h`
     * is stored and returned, on failure nothing is stored and the error is
     * returned (`None`); either way the connect is no longer in flight.
     */
    method CompleteConnect(ok: bool, h: Handle) returns (result: Option<Handle>)
      requires Valid()
      modifies this
      ensures Valid() && !connecting
      ensures connectAttempts == old(connectAttempts)
      ensures ok ==> instance == Some(h) && result == Some(h) && State() == Connected
      ensures !ok ==> instance == old(instance) && result == None
      ensures !ok && old(connecting) ==> State() == Disconnected
    {
      if ok {
        instance := Some(h);
        result := instance;
      } else {
        result := None;
      }
      connecting := false;
    }

    /** The `producer.disconnect` event handler: forget the producer and any connect in flight. */
    method OnDisconnectEvent()
      requires Valid()
      modifies this
      ensures Valid() && State() == Disconnected
      ensures instance == None && !connecting
      ensures connectAttempts == old(connectAttempts)
    {
      instance := None;
      connecting := false;
    }

    /**
     * `disconnectProducer`: with no producer held, nothing happens; otherwise
     * the producer is disconnected, and only when that succeeds (`ok`) is it
     * forgotten. A failed disconnect is swallowed.
     */
    method Release(ok: bool)
      requires Valid()
      modifies this
      ensures Valid()
      ensures connectAttempts == old(connectAttempts)
      ensures old(instance).None? ==> unchanged(this)
      ensures old(instance).Some? && ok ==> instance == None && !connecting && State() == Disconnected
      ensures old(instance).Some? && !ok ==> unchanged(this)
    {
      if instance.Some? {
        if ok {
          instance := None;
          connecting := false;
        }
      }
    }
  }

  /**
   * Several callers arriving at an idle producer: the first starts the one
   * connect, every later one is told to wait, and only one connect is started.
   */
  method FirstCallersShareOneConnect(p: ProducerLifecycle, callers: nat) returns (steps: seq<AcquireStep>)
    requires p.Valid() && p.State() == Disconnected
    modifies p
    ensures p.Valid() && p.State() == Connecting
    ensures |steps| == callers + 1
    ensures steps[0] == StartedConnect
    ensures forall k :: 1 <= k < |steps| ==> steps[k] == MustWait
    ensures p.connectAttempts == old(p.connectAttempts) + 1
  {
    var first := p.Acquire();
    steps := [first];
    var n := 0;
    while n < callers
      invariant 0 <= n <= callers
      invariant p.Valid() && p.State() == Connecting
      invariant p.connectAttempts == old(p.connectAttempts) + 1
      invariant |steps| == n + 1 && steps[0] == StartedConnect
      invariant forall k :: 1 <= k < |steps| ==> steps[k] == MustWait
    {
      var s := p.Acquire();
      steps := steps + [s];
      n := n + 1;
    }
  }

  /**
   * A waiting caller that starts again from the top after the connect it
   * waited for succeeded receives the producer that connect stored.
   */
  method WaiterSeesConnectedProducer(p: ProducerLifecycle, h: Handle) returns (step: AcquireStep)
    requires p.Valid() && p.State() == Connecting
    modifies p
    ensures step == Ready(h)
    ensures p.instance == Some(h) && !p.connecting
    ensures p.connectAttempts == old(p.connectAttempts)
  {
    var waited := p.Acquire();
    assert waited == MustWait;
    var got := p.CompleteConnect(true, h);
    step := p.Acquire();
  }

  /**
   * After a disconnect event the old producer is never returned again: the
   * next caller starts a fresh connect.
   */
  method DisconnectForcesReconnect(p: ProducerLifecycle) returns (step: AcquireStep)
    requires p.Valid() && p.State() == Connected
    modifies p
    ensures step == StartedConnect
    ensures p.connectAttempts == old(p.connectAttempts) + 1
    ensures p.instance == None && p.connecting
  {
    p.OnDisconnectEvent();
    step := p.Acquire();
  }

  /**
   * A failed connect leaves the producer idle, so the next caller retries
   * with a connect of its own.
   */
  method FailedConnectAllowsRetry(p: ProducerLifecycle, h: Handle) returns (error: Option<Handle>, retry: AcquireStep)
    requires p.Valid() && p.State() == Disconnected
    modifies p
    ensures error == None
    ensures retry == StartedConnect
    ensures p.connectAttempts == old(p.connectAttempts) + 2
  {
    var first := p.Acquire();
    error := p.CompleteConnect(false, h);
    retry := p.Acquire();
  }
}
