/**
 * The queue of request processors that a router launches for one request.
 *
 * `RequestProcessorQueue` is not among the sources. It is assumed that `stop`
 * raises a flag, and that `launch` clears it and runs the remaining processors
 * one after the other until the flag is raised again or the request is answered.
 * Here `launch` is counted; the processors it runs are steps of `Suspension`.
 */
module ProcessorQueue {

  class RequestProcessorQueue {
    var stopped: bool
    var launches: nat

    constructor ()
      ensures !stopped && launches == 0
    {
      stopped, launches := false, 0;
    }

    method Stop()
      modifies this`stopped
      ensures stopped
    {
      stopped := true;
    }

    method Launch()
      modifies this
      ensures !stopped && launches == old(launches) + 1
    {
      stopped := false;
      launches := launches + 1;
    }
  }
}
