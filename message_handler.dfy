/**
 * The message-handler base that RPC nodes and remote links embed as `super`
 * (cxa_rpc_messageHandler.h and .c). The two callbacks are C function pointers;
 * here a callback is its identity, and a dispatch yields the call it makes.
 */
module MessageHandlers {
  import opened Wrappers
  import opened RpcMessages

  /** A cb_upstream function pointer, identified by name. */
  datatype UpstreamCb = UpstreamCb(name: string)

  /** A cb_downstream function pointer, identified by name. */
  datatype DownstreamCb = DownstreamCb(name: string)

  /** A call made through a handler's callback. */
  datatype Call =
    | UpstreamCall(up: UpstreamCb, msg: Message)
    | DownstreamCall(down: DownstreamCb, msg: Message)

  class MessageHandler {
    var cbUpstream: Option<UpstreamCb>
    var cbDownstream: Option<DownstreamCb>
    /** Non-owning back-reference to the handler above this one. */
    var parent: MessageHandler?

    /** Zeroed storage, before cxa_rpc_messageHandler_init. */
    constructor ()
      ensures cbUpstream == None && cbDownstream == None && parent == null
    {
      cbUpstream := None;
      cbDownstream := None;
      parent := null;
    }

    /**
     * cxa_rpc_messageHandler_init: both callbacks are required (non-NULL) and
     * installed, and the handler is detached from any parent.
     */
    method Init(up: UpstreamCb, down: DownstreamCb)
      modifies this
      ensures cbUpstream == Some(up)
      ensures cbDownstream == Some(down)
      ensures parent == null
    {
      cbUpstream := Some(up);
      cbDownstream := Some(down);
      parent := null;
    }
  }

  /**
   * cxa_rpc_messageHandler_handleUpstream: the call made through cb_upstream, or
   * none at all when that callback is NULL.
   */
  function HandleUpstream(h: MessageHandler, msg: Message): (r: Option<Call>)
    reads h
    ensures r.None? <==> h.cbUpstream.None?
    ensures r.Some? ==> r.value.UpstreamCall? && r.value.up == h.cbUpstream.value && r.value.msg == msg
  {
    if h.cbUpstream.Some? then Some(UpstreamCall(h.cbUpstream.value, msg)) else None
  }

  /**
   * cxa_rpc_messageHandler_handleDownstream: the callback's own answer ("handled"),
   * or false when cb_downstream is NULL. `run` stands for the callee, whose code
   * is not part of this model.
   */
  function HandleDownstream(h: MessageHandler, msg: Message, run: (DownstreamCb, Message) -> bool): (handled: bool)
    reads h
    ensures h.cbDownstream.None? ==> !handled
    ensures h.cbDownstream.Some? ==> handled == run(h.cbDownstream.value, msg)
  {
    h.cbDownstream.Some? && run(h.cbDownstream.value, msg)
  }

  /** The call that cxa_rpc_messageHandler_handleDownstream makes, if any. */
  function DownstreamInvocation(h: MessageHandler, msg: Message): (r: Option<Call>)
    reads h
    ensures r.None? <==> h.cbDownstream.None?
    ensures r.Some? ==> r.value.DownstreamCall? && r.value.down == h.cbDownstream.value && r.value.msg == msg
  {
    if h.cbDownstream.Some? then Some(DownstreamCall(h.cbDownstream.value, msg)) else None
  }
}
