/** The push channel as the live loaders see it: the calls they send to the
    server (`invoke`, and `autoInvoke` on the auto-reconnecting wrapper) and
    the names of the handlers they register with `on`. */
module Hubs {

  /** One argument of a hub call: a plain string or a parameter tuple. */
  datatype HubArgument<P> = Text(text: string) | Parameters(parameters: P)

  datatype HubCall<P> =
    | Invoked(methodName: string, arguments: seq<HubArgument<P>>)
    | AutoInvoked(methodName: string, arguments: seq<HubArgument<P>>)

  class HubConnection<P> {
    /** Every call sent, oldest first. */
    var calls: seq<HubCall<P>>
    /** The method names that have a handler, in registration order. */
    var handlers: seq<string>

    constructor ()
      ensures calls == [] && handlers == []
    {
      calls := [];
      handlers := [];
    }

    /** `invoke(methodName, ...arguments)`: fire and forget. */
    method Invoke(methodName: string, arguments: seq<HubArgument<P>>)
      modifies this
      ensures calls == old(calls) + [Invoked(methodName, arguments)]
      ensures handlers == old(handlers)
    {
      calls := calls + [Invoked(methodName, arguments)];
    }

    /** `autoInvoke(methodName, ...arguments)`: sent like `invoke`, and
        replayed by the connection after a reconnect. */
    method AutoInvoke(methodName: string, arguments: seq<HubArgument<P>>)
      modifies this
      ensures calls == old(calls) + [AutoInvoked(methodName, arguments)]
      ensures handlers == old(handlers)
    {
      calls := calls + [AutoInvoked(methodName, arguments)];
    }

    /** `on(methodName, handler)`: the handler itself is the loader method
        that the event is routed to. */
    method On(methodName: string)
      modifies this
      ensures handlers == old(handlers) + [methodName]
      ensures calls == old(calls)
    {
      handlers := handlers + [methodName];
    }
  }
}
