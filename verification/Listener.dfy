/** The accept loop of `ConnectionListener` and the connections that `ConnectionFactory` makes for it. */
module Listener {
  import opened RoundRobin

  class ConnectionFactory {
    const ioService: IOService

    constructor (ioService: IOService)
      ensures this.ioService == ioService
    {
      this.ioService := ioService;
    }

    /** Every connection takes the next context of the round robin; `number` tells connections apart. */
    method MakeConnection() returns (context: nat, ghost number: nat)
      requires ioService.Valid()
      modifies ioService
      ensures ioService.Valid() && number == old(ioService.calls) && ioService.calls == number + 1
      ensures context == Pick(number, ioService.modulus, ioService.poolSize)
    {
      number := ioService.calls;
      context := ioService.NextIO();
    }
  }

  /**
   * The listener, with the connections it has made, those it passed on to
   * `process`, those whose accept failed, and the one it is waiting for.
   */
  class ConnectionListener {
    const connectionFactory: ConnectionFactory
    ghost var made: seq<nat>
    ghost var processed: seq<nat>
    ghost var failed: seq<nat>
    ghost var awaited: seq<nat>

    /**
     * Every connection made is processed once, failed, or the single one being
     * awaited; a listener that has failed once waits for none, ever.
     */
    ghost predicate Valid()
      reads this, connectionFactory.ioService
    {
      && connectionFactory.ioService.Valid()
      && made == processed + failed + awaited
      && |failed| + |awaited| == 1
      && (forall i, j :: 0 <= i < j < |made| ==> made[i] < made[j])
      && (forall i :: 0 <= i < |made| ==> made[i] < connectionFactory.ioService.calls)
    }

    constructor (connectionFactory: ConnectionFactory)
      requires connectionFactory.ioService.Valid()
      modifies connectionFactory.ioService
      ensures Valid() && this.connectionFactory == connectionFactory && processed == [] && failed == []
    {
      this.connectionFactory := connectionFactory;
      made, processed, failed, awaited := [], [], [], [];
      new;
      WaitForConnection();
    }

    method WaitForConnection()
      requires connectionFactory.ioService.Valid()
      requires made == processed && failed == [] && awaited == []
      requires forall i, j :: 0 <= i < j < |made| ==> made[i] < made[j]
      requires forall i :: 0 <= i < |made| ==> made[i] < connectionFactory.ioService.calls
      modifies this, connectionFactory.ioService
      ensures Valid() && processed == old(processed) && failed == []
      ensures awaited == [old(connectionFactory.ioService.calls)]
    {
      ghost var number;
      var context;
      context, number := connectionFactory.MakeConnection();
      awaited := [number];
      made := made + [number];
    }

    /** The completion handler of the accept. */
    method OnConnected(error: bool)
      requires Valid() && awaited != []
      modifies this, connectionFactory.ioService
      ensures Valid()
      ensures error ==> failed == old(awaited) && awaited == [] && processed == old(processed) && made == old(made)
      ensures !error ==>
                && processed == old(processed + awaited) && failed == []
                && awaited == [old(connectionFactory.ioService.calls)]
    {
      if error {
        failed := awaited;
        awaited := [];
        return;
      }
      processed := processed + awaited;
      awaited := [];
      WaitForConnection();
    }
  }
}
