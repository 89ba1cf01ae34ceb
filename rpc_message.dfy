/**
 * An RPC message as the link sees it through the accessors of cxa_rpc_message
 * (whose bodies are not part of this model). Each accessor that may return NULL
 * gives an Option here.
 */
module RpcMessages {
  import opened Wrappers

  datatype MessageType = Request | Response | Notification

  datatype Message = Message(
    dest: Option<string>,           // cxa_rpc_message_getDestination
    kind: MessageType,              // cxa_rpc_message_getType
    methodName: Option<string>,     // cxa_rpc_message_getMethod
    id: nat,                        // cxa_rpc_message_getId
    source: seq<string>,            // node names prepended to the source path
    params: Option<seq<string>>,    // cxa_rpc_message_getParams, one string per field
    returnValue: nat)               // cxa_rpc_message_getReturnValue, a method return code
}
