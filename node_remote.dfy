/**
 * A remote link of the RPC tree (cxa_rpc_nodeRemote.c). A link joins a local
 * tree to a peer over a byte stream. It is *upstream* when it owns no subnode (it
 * stands for the remote parent; its `super` hangs below a local node) and
 * *downstream* when it owns a local subnode (it stands for a remote parent of
 * that subnode). A downstream link asks the far side for provisioning with a
 * `_getName` request until a matching response arrives; the upstream side
 * answers such requests. Messages addressed to `_linkMan` are consumed by the
 * link; everything else is relayed across it.
 *
 * The frame parser, the timer and the message factory are not part of this
 * model: a stream write is an append to `written` that may fail (`writeOk`), the
 * recurring timer is the input `timerElapsed`, message initialisation is the
 * input `initOk`, and the pool is a MessagePool. Calls made into other handlers
 * and into link listeners are recorded in `relayed` and `notified`.
 */
module NodeRemote {
  import opened Wrappers
  import opened RpcMessages
  import opened MessageHandlers
  import opened MessagePools
  import opened BoundedArrays

  const PROTO_VERSION: nat := 2
  const PROVISION_TIMEOUT_MS: nat := 5000
  const LINK_MANAGEMENT_DEST: string := "_linkMan"
  const LINK_MANAGEMENT_METHOD_PROVISION: string := "_getName"
  const LINK_MANAGEMENT_ID_PROVISION: nat := 1234

  /** The link's own handler callbacks, installed by both init functions. */
  const LINK_UPSTREAM_CB := UpstreamCb("handleMessage_upstream")
  const LINK_DOWNSTREAM_CB := DownstreamCb("handleMessage_downstream")

  /** A cb_linkEstablished function pointer, identified by name. */
  datatype ListenerCb = ListenerCb(name: string)

  /** cxa_rpc_nodeRemote_linkListener_t: a callback and its user variable. */
  datatype Listener = Listener(cb: ListenerCb, userVar: nat)

  /** What a response received on the downstream side does to the link. */
  datatype ProvisionEffect =
    | Granted    // a matching response whose return value is non-zero
    | Denied     // a matching response whose return value is zero
    | NotForUs   // a well-formed response naming another node
    | Invalid    // not a provisioning response at all

  /** The part of an RPC node that a link touches (cxa_rpc_node_t). */
  class RpcNode {
    const name: string
    const super: MessageHandler
    const isGlobalRoot: bool
    var isLocalRoot: bool

    constructor (name: string, super: MessageHandler, isGlobalRoot: bool)
      ensures this.name == name && this.super == super && this.isGlobalRoot == isGlobalRoot
      ensures !isLocalRoot
    {
      this.name := name;
      this.super := super;
      this.isGlobalRoot := isGlobalRoot;
      isLocalRoot := false;
    }
  }

  /** A message addressed to the link itself (dest `_linkMan`). */
  predicate IsLinkManagement(msg: Message)
  {
    msg.dest == Some(LINK_MANAGEMENT_DEST)
  }

  /**
   * The request a downstream link builds in cxa_rpc_nodeRemote_update: addressed
   * to `_linkMan`, method `_getName`, id 1234, source `_linkMan`, and the name of
   * the owned subnode as the only parameter.
   */
  function ProvisionRequest(subNodeName: string): (req: Message)
    ensures IsLinkManagement(req) && req.kind == Request
    ensures req.methodName == Some(LINK_MANAGEMENT_METHOD_PROVISION)
    ensures req.id == LINK_MANAGEMENT_ID_PROVISION
    ensures req.params == Some([subNodeName])
  {
    Message(Some(LINK_MANAGEMENT_DEST), Request, Some(LINK_MANAGEMENT_METHOD_PROVISION),
            LINK_MANAGEMENT_ID_PROVISION, [LINK_MANAGEMENT_DEST], Some([subNodeName]), 0)
  }

  /**
   * The answer of the upstream side to a link-management message: a `_getName`
   * request whose first parameter is a non-empty name gets a response carrying
   * the return code `success` (CXA_RPC_METHOD_RETVAL_SUCCESS, whose value is
   * defined outside the modelled files) that echoes the request id and the name;
   * anything else gets no answer.
   */
  function ProvisionReply(msg: Message, success: nat): (r: Option<Message>)
    ensures r.Some? <==>
      msg.kind == Request && msg.methodName == Some(LINK_MANAGEMENT_METHOD_PROVISION) &&
      msg.params.Some? && |msg.params.value| > 0 && msg.params.value[0] != ""
    ensures r.Some? ==>
      IsLinkManagement(r.value) && r.value.kind == Response && r.value.id == msg.id &&
      r.value.returnValue == success && r.value.params == Some([msg.params.value[0]])
  {
    if msg.kind == Request && msg.methodName == Some(LINK_MANAGEMENT_METHOD_PROVISION) then
      if msg.params.None? || |msg.params.value| == 0 || msg.params.value[0] == "" then None
      else Some(Message(Some(LINK_MANAGEMENT_DEST), Response, None, msg.id,
                        [LINK_MANAGEMENT_DEST], Some([msg.params.value[0]]), success))
    else None
  }

  /**
   * How the downstream side classifies a link-management message, for a link
   * whose subnode is called `localName`: only a response with id 1234 and a first
   * parameter is a provisioning response, and only one naming `localName` counts.
   * The return value is tested as a C truth value: zero denies.
   */
  function ProvisionEffectOf(msg: Message, localName: string): (e: ProvisionEffect)
    ensures e == Granted <==>
      msg.kind == Response && msg.id == LINK_MANAGEMENT_ID_PROVISION && msg.params.Some? &&
      |msg.params.value| > 0 && msg.params.value[0] == localName && msg.returnValue != 0
    ensures e == Denied <==>
      msg.kind == Response && msg.id == LINK_MANAGEMENT_ID_PROVISION && msg.params.Some? &&
      |msg.params.value| > 0 && msg.params.value[0] == localName && msg.returnValue == 0
    ensures e == NotForUs ==> msg.params.Some? && |msg.params.value| > 0 && msg.params.value[0] != localName
  {
    if msg.kind == Response && msg.id == LINK_MANAGEMENT_ID_PROVISION &&
       msg.params.Some? && |msg.params.value| > 0 then
      if msg.params.value[0] != localName then NotForUs
      else if msg.returnValue == 0 then Denied
      else Granted
    else Invalid
  }

  /** isProvisioned once the downstream side has handled a message of effect `e`. */
  function ProvisionedAfter(wasProvisioned: bool, e: ProvisionEffect): (p: bool)
    ensures e == Granted ==> p
    ensures e == Denied ==> !p
    ensures (e == NotForUs || e == Invalid) ==> p == wasProvisioned
  {
    match e
    case Granted => true
    case Denied => false
    case NotForUs => wasProvisioned
    case Invalid => wasProvisioned
  }

  /** isProvisioned after a run of link-management messages, handled in order. */
  function ProvisionedAfterAll(wasProvisioned: bool, es: seq<ProvisionEffect>): bool
    decreases |es|
  {
    if es == [] then wasProvisioned else ProvisionedAfterAll(ProvisionedAfter(wasProvisioned, es[0]), es[1..])
  }

  /** A response that decides (grants or denies) provisioning. */
  predicate Decisive(e: ProvisionEffect)
  {
    e == Granted || e == Denied
  }

  /**
   * The last deciding response wins: after a run whose element k grants or
   * denies and is followed only by responses for other nodes or invalid
   * messages, the link is provisioned exactly when element k granted.
   */
  lemma {:induction false} LastDecisionWins(wasProvisioned: bool, es: seq<ProvisionEffect>, k: nat)
    requires k < |es| && Decisive(es[k])
    requires forall i :: k < i < |es| ==> !Decisive(es[i])
    ensures ProvisionedAfterAll(wasProvisioned, es) == (es[k] == Granted)
    decreases k
  {
    if k == 0 {
      NothingDecisiveKeepsState(ProvisionedAfter(wasProvisioned, es[0]), es[1..]);
    } else {
      LastDecisionWins(ProvisionedAfter(wasProvisioned, es[0]), es[1..], k - 1);
    }
  }

  /** Messages that neither grant nor deny leave isProvisioned as it was. */
  lemma {:induction false} NothingDecisiveKeepsState(wasProvisioned: bool, es: seq<ProvisionEffect>)
    requires forall i :: 0 <= i < |es| ==> !Decisive(es[i])
    ensures ProvisionedAfterAll(wasProvisioned, es) == wasProvisioned
    decreases |es|
  {
    if es != [] {
      assert !Decisive(es[0]);
      NothingDecisiveKeepsState(wasProvisioned, es[1..]);
    }
  }

  /**
   * The provisioning handshake: the upstream side answers the request a
   * downstream link sends for a named subnode, and that answer reaches the
   * downstream side as a response for its subnode. It grants provisioning
   * exactly when the success code the upstream side writes is non-zero, and
   * denies it otherwise, since the downstream side tests the return value as a
   * C truth value.
   */
  lemma {:induction false} HandshakeProvisions(subNodeName: string, success: nat)
    requires subNodeName != ""
    ensures ProvisionReply(ProvisionRequest(subNodeName), success).Some?
    ensures ProvisionEffectOf(ProvisionReply(ProvisionRequest(subNodeName), success).value, subNodeName) ==
      if success != 0 then Granted else Denied
  {
  }

  /** A request for an unnamed subnode is never answered. */
  lemma {:induction false} UnnamedRequestUnanswered(success: nat)
    ensures ProvisionReply(ProvisionRequest(""), success).None?
  {
  }

  /** An answer meant for one subnode does not provision a link owning another. */
  lemma {:induction false} ForeignAnswerIgnored(subNodeName: string, localName: string, success: nat)
    requires subNodeName != "" && subNodeName != localName
    ensures ProvisionEffectOf(ProvisionReply(ProvisionRequest(subNodeName), success).value, localName) == NotForUs
  {
  }

  /**
   * Provisioning traffic stays on the link: both the request and its reply are
   * link management, so neither is ever relayed into the tree.
   */
  lemma {:induction false} ProvisioningTrafficIsLocal(subNodeName: string, msg: Message, success: nat)
    ensures IsLinkManagement(ProvisionRequest(subNodeName))
    ensures ProvisionReply(msg, success).Some? ==> IsLinkManagement(ProvisionReply(msg, success).value)
  {
  }

  /**
   * cxa_rpc_nodeRemote_t. The link's storage is allocated by its owner; one of
   * the two init methods sets it up.
   */
  class Link {
    const super: MessageHandler
    const pool: MessagePool
    /** CXA_RPC_METHOD_RETVAL_SUCCESS, the code the upstream side answers with. */
    const retvalSuccess: nat
    const linkListeners: BoundedArray<Listener>
    var downstreamSubNode: RpcNode?
    var isProvisioned: bool
    /** Messages written to the byte stream, in order. */
    var written: seq<Message>
    /** Calls made into the parent's or the subnode's handler, in order. */
    var relayed: seq<Call>
    /** Link listeners called back, in order. */
    var notified: seq<Listener>

    ghost predicate Valid()
      reads this, linkListeners, pool, downstreamSubNode
    {
      linkListeners.Valid() && pool.Valid() &&
      (downstreamSubNode != null ==> downstreamSubNode.super != super)
    }

    /** cxa_rpc_nodeRemote_isUpstream: a link is upstream exactly when it owns no subnode. */
    predicate IsUpstream()
      reads this
    {
      downstreamSubNode == null
    }

    /** Storage for a link whose listener array (linkListeners_raw) holds `maxListeners` entries. */
    constructor (pool: MessagePool, maxListeners: nat, retvalSuccess: nat)
      requires pool.Valid()
      ensures Valid() && this.pool == pool && this.retvalSuccess == retvalSuccess && IsUpstream()
      ensures linkListeners.buffer.Length == maxListeners && linkListeners.Elements() == []
      ensures written == [] && relayed == [] && notified == []
      ensures fresh(super) && fresh(linkListeners) && fresh(linkListeners.buffer)
    {
      super := new MessageHandler();
      this.pool := pool;
      this.retvalSuccess := retvalSuccess;
      var raw := new Listener[maxListeners];
      linkListeners := new BoundedArray.Init(raw);
      downstreamSubNode := null;
      isProvisioned := false;
      written := [];
      relayed := [];
      notified := [];
    }

    /**
     * cxa_rpc_nodeRemote_init_upstream: installs the link's callbacks, owns no
     * subnode, is unprovisioned and has no listeners.
     */
    method InitUpstream()
      requires Valid()
      modifies this, super, linkListeners
      ensures Valid() && IsUpstream() && !isProvisioned
      ensures super.cbUpstream == Some(LINK_UPSTREAM_CB) && super.cbDownstream == Some(LINK_DOWNSTREAM_CB)
      ensures super.parent == null
      ensures linkListeners.Elements() == []
      ensures written == old(written) && relayed == old(relayed) && notified == old(notified)
    {
      super.Init(LINK_UPSTREAM_CB, LINK_DOWNSTREAM_CB);
      downstreamSubNode := null;
      isProvisioned := false;
      linkListeners.Clear();
    }

    /**
     * cxa_rpc_nodeRemote_init_downstream: the link records the subnode (before
     * its checks, so even on failure) and adopts it only when the subnode has no
     * parent yet and is not the global root; adopting makes the link the
     * subnode's parent and the subnode a local root.
     */
    method InitDownstream(subNode: RpcNode) returns (ok: bool)
      requires Valid() && subNode.super != super
      modifies this, super, linkListeners, subNode, subNode.super
      ensures Valid() && downstreamSubNode == subNode && !IsUpstream() && !isProvisioned
      ensures super.cbUpstream == Some(LINK_UPSTREAM_CB) && super.cbDownstream == Some(LINK_DOWNSTREAM_CB)
      ensures super.parent == null
      ensures linkListeners.Elements() == []
      ensures ok == (old(subNode.super.parent) == null && !subNode.isGlobalRoot)
      ensures ok ==> subNode.super.parent == super && subNode.isLocalRoot
      ensures !ok ==> subNode.super.parent == old(subNode.super.parent) && subNode.isLocalRoot == old(subNode.isLocalRoot)
      ensures subNode.super.cbUpstream == old(subNode.super.cbUpstream)
      ensures subNode.super.cbDownstream == old(subNode.super.cbDownstream)
      ensures written == old(written) && relayed == old(relayed) && notified == old(notified)
    {
      super.Init(LINK_UPSTREAM_CB, LINK_DOWNSTREAM_CB);
      downstreamSubNode := subNode;
      isProvisioned := false;
      linkListeners.Clear();
      if subNode.super.parent != null {
        return false;
      }
      if subNode.isGlobalRoot {
        return false;
      }
      subNode.super.parent := super;
      subNode.isLocalRoot := true;
      ok := true;
    }

    /** cxa_rpc_nodeRemote_addLinkListener: appends, failing when the listener array is full. */
    method AddLinkListener(cb: ListenerCb, userVar: nat) returns (ok: bool)
      requires Valid()
      modifies linkListeners, linkListeners.buffer
      ensures Valid()
      ensures ok == (old(linkListeners.Size()) < linkListeners.MaxSize())
      ensures linkListeners.Elements() ==
        if ok then old(linkListeners.Elements()) + [Listener(cb, userVar)] else old(linkListeners.Elements())
    {
      ok := linkListeners.Append(Listener(cb, userVar));
    }

    /** Calls every link listener once, in registration order. */
    method NotifyListeners()
      requires Valid()
      modifies this
      ensures Valid()
      ensures notified == old(notified) + linkListeners.Elements()
      ensures written == old(written) && relayed == old(relayed)
      ensures isProvisioned == old(isProvisioned) && downstreamSubNode == old(downstreamSubNode)
    {
      var i := 0;
      while i < linkListeners.Size()
        invariant Valid()
        invariant i <= linkListeners.Size()
        invariant notified == old(notified) + linkListeners.Elements()[..i]
        invariant written == old(written) && relayed == old(relayed)
        invariant isProvisioned == old(isProvisioned) && downstreamSubNode == old(downstreamSubNode)
      {
        var l := linkListeners.Get(i);
        notified := notified + [l.value];
        i := i + 1;
      }
    }

    /**
     * The provisioning step of cxa_rpc_nodeRemote_update: an unprovisioned
     * downstream link whose 5000 ms timer has elapsed takes a message from the
     * pool and writes a provisioning request; the message goes back to the pool
     * on every path that obtained one. The parser update that follows is not
     * part of this model.
     */
    method Update(timerElapsed: bool, initOk: bool, writeOk: bool)
      requires Valid()
      modifies this, pool
      ensures Valid()
      ensures pool.inUse == old(pool.inUse)
      ensures written == old(written) +
        if !IsUpstream() && !isProvisioned && timerElapsed && old(pool.inUse) < pool.capacity && initOk && writeOk
        then [ProvisionRequest(downstreamSubNode.name)] else []
      ensures downstreamSubNode == old(downstreamSubNode) && isProvisioned == old(isProvisioned)
      ensures relayed == old(relayed) && notified == old(notified)
    {
      if !IsUpstream() && !isProvisioned && timerElapsed && downstreamSubNode != null {
        var acquired := pool.Acquire();
        if !acquired || !initOk {
          if acquired {
            pool.Release();
          }
          return;
        }
        if !writeOk {
          pool.Release();
          return;
        }
        written := written + [ProvisionRequest(downstreamSubNode.name)];
        pool.Release();
      }
    }

    /**
     * handleMessage_upstream, the link's cb_upstream: on a downstream link the
     * message is written to the stream; a NULL message, a call on an upstream
     * link and a failed write drop it.
     */
    method HandleMessageUpstream(msg: Option<Message>, writeOk: bool)
      modifies this
      ensures written == old(written) + if msg.Some? && !IsUpstream() && writeOk then [msg.value] else []
      ensures downstreamSubNode == old(downstreamSubNode) && isProvisioned == old(isProvisioned)
      ensures relayed == old(relayed) && notified == old(notified)
    {
      if msg.None? {
        return;
      }
      if IsUpstream() {
        return;
      }
      if writeOk {
        written := written + [msg.value];
      }
    }

    /**
     * handleMessage_downstream, the link's cb_downstream: handled exactly when a
     * message is given, the link is upstream and the write succeeds.
     */
    method HandleMessageDownstream(msg: Option<Message>, writeOk: bool) returns (handled: bool)
      modifies this
      ensures handled == (msg.Some? && IsUpstream() && writeOk)
      ensures written == old(written) + if handled then [msg.value] else []
      ensures downstreamSubNode == old(downstreamSubNode) && isProvisioned == old(isProvisioned)
      ensures relayed == old(relayed) && notified == old(notified)
    {
      if msg.None? {
        return false;
      }
      if !IsUpstream() {
        return false;
      }
      if !writeOk {
        return false;
      }
      written := written + [msg.value];
      handled := true;
    }

    /**
     * handleLinkManagement_upstream: answers a provisioning request and, once
     * the answer is written, calls every link listener. The response message
     * goes back to the pool on every path that obtained one.
     */
    method HandleLinkManagementUpstream(msg: Message, initOk: bool, writeOk: bool)
      requires Valid()
      modifies this, pool
      ensures Valid()
      ensures pool.inUse == old(pool.inUse)
      ensures var sent := ProvisionReply(msg, retvalSuccess).Some? && old(pool.inUse) < pool.capacity && initOk && writeOk;
        written == old(written) + (if sent then [ProvisionReply(msg, retvalSuccess).value] else []) &&
        notified == old(notified) + (if sent then linkListeners.Elements() else [])
      ensures downstreamSubNode == old(downstreamSubNode) && isProvisioned == old(isProvisioned)
      ensures relayed == old(relayed)
    {
      var reply := ProvisionReply(msg, retvalSuccess);
      if reply.None? {
        return;
      }
      var acquired := pool.Acquire();
      if !acquired || !initOk {
        if acquired {
          pool.Release();
        }
        return;
      }
      if !writeOk {
        pool.Release();
        return;
      }
      written := written + [reply.value];
      pool.Release();
      NotifyListeners();
    }

    /**
     * handleLinkManagement_downstream: a provisioning response for the owned
     * subnode sets or clears isProvisioned; a grant also calls every link
     * listener, every time one arrives. Anything else changes nothing.
     */
    method HandleLinkManagementDownstream(msg: Message)
      requires Valid() && !IsUpstream()
      modifies this
      ensures Valid() && downstreamSubNode == old(downstreamSubNode)
      ensures var e := ProvisionEffectOf(msg, downstreamSubNode.name);
        isProvisioned == ProvisionedAfter(old(isProvisioned), e) &&
        notified == old(notified) + (if e == Granted then linkListeners.Elements() else [])
      ensures written == old(written) && relayed == old(relayed)
    {
      var e := ProvisionEffectOf(msg, downstreamSubNode.name);
      match e {
        case Granted =>
          isProvisioned := true;
          NotifyListeners();
        case Denied =>
          isProvisioned := false;
        case NotForUs =>
        case Invalid =>
      }
    }

    /**
     * messageReceived_cb, called by the parser for every received message:
     * link-management messages are handled by the link's own side and consumed;
     * any other message goes up to the parent's handler on an upstream link and
     * down to the subnode's handler on a downstream link. An upstream link must
     * have been attached below a parent before messages arrive (the C code
     * dereferences the parent).
     */
    method MessageReceived(msg: Message, initOk: bool, writeOk: bool)
      requires Valid()
      requires IsUpstream() && !IsLinkManagement(msg) ==> super.parent != null
      modifies this, pool
      ensures Valid()
      ensures pool.inUse == old(pool.inUse)
      ensures downstreamSubNode == old(downstreamSubNode)
      ensures IsLinkManagement(msg) ==> relayed == old(relayed)
      ensures IsLinkManagement(msg) && old(IsUpstream()) ==>
        var sent := ProvisionReply(msg, retvalSuccess).Some? && old(pool.inUse) < pool.capacity && initOk && writeOk;
        written == old(written) + (if sent then [ProvisionReply(msg, retvalSuccess).value] else []) &&
        notified == old(notified) + (if sent then linkListeners.Elements() else []) &&
        isProvisioned == old(isProvisioned)
      ensures IsLinkManagement(msg) && !old(IsUpstream()) ==>
        var e := ProvisionEffectOf(msg, downstreamSubNode.name);
        isProvisioned == ProvisionedAfter(old(isProvisioned), e) &&
        notified == old(notified) + (if e == Granted then linkListeners.Elements() else []) &&
        written == old(written)
      ensures !IsLinkManagement(msg) ==>
        written == old(written) && notified == old(notified) && isProvisioned == old(isProvisioned) &&
        relayed == old(relayed) + Relay(msg)
    {
      if IsLinkManagement(msg) {
        if IsUpstream() {
          HandleLinkManagementUpstream(msg, initOk, writeOk);
        } else {
          HandleLinkManagementDownstream(msg);
        }
        return;
      }
      var call: Option<Call>;
      if IsUpstream() {
        call := HandleUpstream(super.parent, msg);
      } else {
        call := DownstreamInvocation(downstreamSubNode.super, msg);
      }
      if call.Some? {
        relayed := relayed + [call.value];
      }
    }

    /**
     * The call through which a non-management message leaves the link: the
     * parent's upstream callback on an upstream link, the subnode's downstream
     * callback on a downstream link (none when that callback is NULL).
     */
    function Relay(msg: Message): (calls: seq<Call>)
      reads this, super, super.parent, downstreamSubNode, if downstreamSubNode != null then {downstreamSubNode.super} else {}
      requires IsUpstream() ==> super.parent != null
      ensures |calls| <= 1
      ensures calls == [] <==>
        (if IsUpstream() then super.parent.cbUpstream.None? else downstreamSubNode.super.cbDownstream.None?)
      ensures IsUpstream() && calls != [] ==> calls[0] == UpstreamCall(super.parent.cbUpstream.value, msg)
      ensures !IsUpstream() && calls != [] ==> calls[0] == DownstreamCall(downstreamSubNode.super.cbDownstream.value, msg)
    {
      var call := if IsUpstream() then HandleUpstream(super.parent, msg)
                  else DownstreamInvocation(downstreamSubNode.super, msg);
      if call.Some? then [call.value] else []
    }
  }
}
