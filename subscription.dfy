/** The subscription bookkeeping of the live loaders: the wrapped loader
    function remembers the parameters of its previous call, and each call
    closes that subscription (when those parameters are truthy) before
    opening one for the new parameters. */
module Subscriptions {
  import opened Common
  import opened Hubs

  /** How a live loader names its subscription calls:
      `Close<identifier>(parameters)` / `Open<identifier>(parameters)` for the
      value loaders, `Close(identifier, parameters)` / `Open(identifier,
      parameters)` for the array loaders, whose older copy sends `Open`
      through `autoInvoke`. */
  datatype CallStyle = PerEntityNames | SharedNames(autoInvokeOpen: bool)

  function CloseCall<P>(style: CallStyle, identifier: string, parameters: P): HubCall<P>
  {
    match style
    case PerEntityNames => Invoked("Close" + identifier, [Parameters(parameters)])
    case SharedNames(_) => Invoked("Close", [Text(identifier), Parameters(parameters)])
  }

  function OpenCall<P>(style: CallStyle, identifier: string, parameters: P): HubCall<P>
  {
    match style
    case PerEntityNames => Invoked("Open" + identifier, [Parameters(parameters)])
    case SharedNames(auto) =>
      if auto then AutoInvoked("Open", [Text(identifier), Parameters(parameters)])
      else Invoked("Open", [Text(identifier), Parameters(parameters)])
  }

  /** Which parameters a call closes, if it is a close call of this style. */
  function ClosedBy<P>(style: CallStyle, identifier: string, call: HubCall<P>): (r: Option<P>)
    ensures r.Some? ==> call == CloseCall(style, identifier, r.value)
  {
    match style
    case PerEntityNames =>
      if call.Invoked? && call.methodName == "Close" + identifier && |call.arguments| == 1 && call.arguments[0].Parameters?
      then Some(call.arguments[0].parameters) else None
    case SharedNames(_) =>
      if call.Invoked? && call.methodName == "Close" && |call.arguments| == 2 && call.arguments[0] == Text(identifier) && call.arguments[1].Parameters?
      then Some(call.arguments[1].parameters) else None
  }

  /** An open call is never taken for a close call. */
  lemma OpenIsNotClose<P>(style: CallStyle, identifier: string, parameters: P)
    ensures ClosedBy(style, identifier, OpenCall(style, identifier, parameters)) == None
  {
    var open := OpenCall(style, identifier, parameters);
    if style.PerEntityNames? {
      assert open.methodName[..4] == "Open";
      assert ("Close" + identifier)[..4] == "Clos";
    }
  }

  class Subscription<P> {
    const connection: HubConnection<P>
    const identifier: string
    const style: CallStyle
    /** JavaScript truthiness of a parameter value: a tuple always is, a
        single parameter such as 0 or "" may not be. */
    const truthy: P -> bool
    /** `previousParameters`: the parameters of the last loader call. */
    var previousParameters: Option<P>
    /** The calls this subscription has sent, oldest first. */
    ghost var sent: seq<HubCall<P>>

    /** The last call sent opens the current parameters, and every close
        call comes right after the open call of the parameters it closes. */
    ghost predicate Valid()
      reads this
    {
      && (previousParameters.None? <==> sent == [])
      && (previousParameters.Some? ==> sent[|sent| - 1] == OpenCall(style, identifier, previousParameters.value))
      && (forall k :: 0 <= k < |sent| && ClosedBy(style, identifier, sent[k]).Some? ==>
            0 < k && sent[k - 1] == OpenCall(style, identifier, ClosedBy(style, identifier, sent[k]).value))
    }

    constructor (connection: HubConnection<P>, identifier: string, style: CallStyle, truthy: P -> bool)
      ensures Valid()
      ensures this.connection == connection && this.identifier == identifier
      ensures this.style == style && this.truthy == truthy
      ensures previousParameters == None
    {
      this.connection := connection;
      this.identifier := identifier;
      this.style := style;
      this.truthy := truthy;
      previousParameters := None;
      sent := [];
    }

    /** The calls sent when the loader function is called with `parameters`. */
    function SwitchCalls(parameters: P): seq<HubCall<P>>
      reads this
    {
      (if previousParameters.Some? && truthy(previousParameters.value)
       then [CloseCall(style, identifier, previousParameters.value)] else [])
      + [OpenCall(style, identifier, parameters)]
    }

    /** The body of the wrapped loader function up to the call of the real
        loader. */
    method Switch(parameters: P)
      requires Valid()
      modifies this, connection
      ensures Valid()
      ensures connection.calls == old(connection.calls) + old(SwitchCalls(parameters))
      ensures connection.handlers == old(connection.handlers)
      ensures sent == old(sent) + old(SwitchCalls(parameters))
      ensures previousParameters == Some(parameters)
    {
      ghost var calls := SwitchCalls(parameters);
      OpenIsNotClose(style, identifier, parameters);
      if previousParameters.Some? && truthy(previousParameters.value) {
        var close := CloseCall(style, identifier, previousParameters.value);
        connection.Invoke(close.methodName, close.arguments);
        sent := sent + [close];
      }
      previousParameters := Some(parameters);
      var open := OpenCall(style, identifier, parameters);
      if open.Invoked? {
        connection.Invoke(open.methodName, open.arguments);
      } else {
        connection.AutoInvoke(open.methodName, open.arguments);
      }
      sent := sent + [open];
    }
  }
}
