/**
 * The gateway through which the application manager sends RPC traffic to the
 * HMI. It forwards requests, responses and notifications to the attached
 * JSON RPC2 handler only once it has been told that the HMI is ready.
 */
module HmiGateway {

  /** The three kinds of RPC message exchanged with the HMI. */
  datatype MessageKind = Notification | Response | Request

  /** An RPC message; its method name is only ever logged, its body never inspected here. */
  datatype Rpc2Message = Rpc2Message(methodName: string, body: string)

  /** One message as the downstream handler received it. */
  datatype Forwarded = Forwarded(kind: MessageKind, message: Rpc2Message)

  /** The misuses the gateway reports to its logger. */
  datatype HmiError = ReadyWithoutHandler | NotReady | NullHandlerAssigned | HandlerNotAssigned

  /**
   * The downstream JSON RPC2 handler. Its encoding and transport are not
   * part of this model; it is seen only through the messages handed to it.
   */
  class JsonRpc2Handler {
    ghost var forwarded: seq<Forwarded>

    constructor ()
      ensures forwarded == []
    {
      forwarded := [];
    }

    method SendNotification(message: Rpc2Message)
      modifies this`forwarded
      ensures forwarded == old(forwarded) + [Forwarded(Notification, message)]
    {
      forwarded := forwarded + [Forwarded(Notification, message)];
    }

    method SendResponse(message: Rpc2Message)
      modifies this`forwarded
      ensures forwarded == old(forwarded) + [Forwarded(Response, message)]
    {
      forwarded := forwarded + [Forwarded(Response, message)];
    }

    method SendRequest(message: Rpc2Message)
      modifies this`forwarded
      ensures forwarded == old(forwarded) + [Forwarded(Request, message)]
    {
      forwarded := forwarded + [Forwarded(Request, message)];
    }
  }

  class HmiHandler {
    var jsonRpc2Handler: JsonRpc2Handler?
    var hmiReady: bool
    /** What the handler has reported to its logger, oldest first. */
    ghost var errors: seq<HmiError>

    /** The class invariant: the handler is only ever ready with a downstream handler attached. */
    ghost predicate Valid()
      reads this
    {
      hmiReady ==> jsonRpc2Handler != null
    }

    /** A new handler: not ready, no downstream handler. */
    constructor ()
      ensures Valid()
      ensures jsonRpc2Handler == null && !hmiReady && errors == []
    {
      jsonRpc2Handler := null;
      hmiReady := false;
      errors := [];
    }

    /** The copy constructor ignores its source: the copy is a fresh, unready handler. */
    constructor Copy(other: HmiHandler)
      ensures Valid()
      ensures jsonRpc2Handler == null && !hmiReady && errors == []
    {
      jsonRpc2Handler := null;
      hmiReady := false;
      errors := [];
    }

    /** Sets readiness when a downstream handler is attached; otherwise reports and changes nothing. */
    method SetReadyState(ready: bool)
      requires Valid()
      modifies this`hmiReady, this`errors
      ensures Valid()
      ensures old(jsonRpc2Handler) != null ==> hmiReady == ready && errors == old(errors)
      ensures old(jsonRpc2Handler) == null ==> hmiReady == old(hmiReady) && errors == old(errors) + [ReadyWithoutHandler]
    {
      if jsonRpc2Handler != null {
        hmiReady := ready;
      } else {
        errors := errors + [ReadyWithoutHandler];
      }
    }

    /** Forwards a notification when ready; otherwise reports and drops it. */
    method SendNotification(command: Rpc2Message)
      requires Valid()
      modifies this`errors, jsonRpc2Handler
      ensures Valid()
      ensures hmiReady ==> jsonRpc2Handler.forwarded == old(jsonRpc2Handler.forwarded) + [Forwarded(Notification, command)]
      ensures hmiReady ==> errors == old(errors)
      ensures !hmiReady && jsonRpc2Handler != null ==> jsonRpc2Handler.forwarded == old(jsonRpc2Handler.forwarded)
      ensures !hmiReady ==> errors == old(errors) + [NotReady]
    {
      if hmiReady {
        if jsonRpc2Handler != null {
          jsonRpc2Handler.SendNotification(command);
        }
      } else {
        errors := errors + [NotReady];
      }
    }

    /** Forwards a response when ready; otherwise reports and drops it. */
    method SendResponse(command: Rpc2Message)
      requires Valid()
      modifies this`errors, jsonRpc2Handler
      ensures Valid()
      ensures hmiReady ==> jsonRpc2Handler.forwarded == old(jsonRpc2Handler.forwarded) + [Forwarded(Response, command)]
      ensures hmiReady ==> errors == old(errors)
      ensures !hmiReady && jsonRpc2Handler != null ==> jsonRpc2Handler.forwarded == old(jsonRpc2Handler.forwarded)
      ensures !hmiReady ==> errors == old(errors) + [NotReady]
    {
      if hmiReady {
        if jsonRpc2Handler != null {
          jsonRpc2Handler.SendResponse(command);
        }
      } else {
        errors := errors + [NotReady];
      }
    }

    /** Forwards a request when ready; otherwise reports and drops it. */
    method SendRequest(command: Rpc2Message)
      requires Valid()
      modifies this`errors, jsonRpc2Handler
      ensures Valid()
      ensures hmiReady ==> jsonRpc2Handler.forwarded == old(jsonRpc2Handler.forwarded) + [Forwarded(Request, command)]
      ensures hmiReady ==> errors == old(errors)
      ensures !hmiReady && jsonRpc2Handler != null ==> jsonRpc2Handler.forwarded == old(jsonRpc2Handler.forwarded)
      ensures !hmiReady ==> errors == old(errors) + [NotReady]
    {
      if hmiReady {
        if jsonRpc2Handler != null {
          jsonRpc2Handler.SendRequest(command);
        }
      } else {
        errors := errors + [NotReady];
      }
    }

    /** Attaches a downstream handler; a null one is reported and ignored. Readiness is untouched. */
    method SetJsonRpc2Handler(handler: JsonRpc2Handler?)
      requires Valid()
      modifies this`jsonRpc2Handler, this`errors
      ensures Valid()
      ensures handler == null ==> jsonRpc2Handler == old(jsonRpc2Handler) && errors == old(errors) + [NullHandlerAssigned]
      ensures handler != null ==> jsonRpc2Handler == handler && errors == old(errors)
    {
      if handler == null {
        errors := errors + [NullHandlerAssigned];
        return;
      }
      jsonRpc2Handler := handler;
    }

    /** The attached downstream handler, possibly null; asking while none is attached is reported. */
    method GetJsonRpc2Handler() returns (handler: JsonRpc2Handler?)
      requires Valid()
      modifies this`errors
      ensures Valid()
      ensures handler == jsonRpc2Handler
      ensures handler == null ==> errors == old(errors) + [HandlerNotAssigned]
      ensures handler != null ==> errors == old(errors)
    {
      if jsonRpc2Handler == null {
        errors := errors + [HandlerNotAssigned];
      }
      handler := jsonRpc2Handler;
    }
  }

  /**
   * A client of the gateway: a notification sent before the HMI is ready is
   * dropped and reported; once a handler is attached and readiness is set,
   * the next notification reaches the handler exactly once and unchanged.
   */
  method NotificationGating(n: Rpc2Message)
  {
    var gateway := new HmiHandler();
    var channel := new JsonRpc2Handler();
    gateway.SendNotification(n);
    assert gateway.errors == [NotReady];
    gateway.SetReadyState(true);
    assert !gateway.hmiReady;
    gateway.SetJsonRpc2Handler(channel);
    assert channel.forwarded == [];
    gateway.SetReadyState(true);
    gateway.SendNotification(n);
    assert channel.forwarded == [Forwarded(Notification, n)];
  }
}
