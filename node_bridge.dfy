/**
 * The MQTT bridge node (cxa_mqtt_rpc_node_bridge.c): the server side of an MQTT
 * link. It answers CONNECT with CONNACK after asking an authentication callback
 * and answers PINGREQ with PINGRESP; SUBSCRIBE and PUBLISH are only logged.
 *
 * The frame parser and the typed message accessors are not part of this model:
 * a received packet arrives as an MqttMessage whose CONNECT fields are already
 * read (or marked unreadable), replies are appended to `sent` when the pool has
 * a message, the message initialises (`initOk`) and the write succeeds
 * (`writeOk`).
 */
module MqttBridge {
  import opened Wrappers
  import opened MessagePools

  /** The MQTT control packet types (section 2.2.1 of MQTT Version 3.1.1). */
  datatype PacketType =
    | Connect | ConnAck | Publish | PubAck | PubRec | PubRel | PubComp
    | Subscribe | SubAck | Unsubscribe | UnsubAck | PingReq | PingResp | Disconnect

  /** CONNACK return codes (section 3.2.2.3 of MQTT Version 3.1.1). */
  datatype ConnAckCode =
    | Accepted                  // 0
    | UnacceptableProtocol      // 1
    | IdentifierRejected        // 2
    | ServerUnavailable         // 3
    | BadUserNameOrPassword     // 4
    | NotAuthorized             // 5

  /** An optional CONNECT field: absent (flag clear), present, or not readable. */
  datatype Field<T> = Absent | Present(value: T) | Unreadable

  /** The CONNECT fields the bridge reads; a client id of None could not be read. */
  datatype ConnectFields = ConnectFields(
    clientId: Option<string>,
    username: Field<string>,
    password: Field<seq<bv8>>)

  /** A received packet wrapped as a pool message. */
  datatype MqttMessage = MqttMessage(kind: PacketType, connect: ConnectFields)

  /** A packet the bridge writes. */
  datatype Reply =
    | ConnAckReply(sessionPresent: bool, code: ConnAckCode)
    | PingRespReply

  /**
   * cxa_mqtt_rpc_node_bridge_cb_authenticateClient_t: given the client id, the
   * user name and password (None when absent) and the user variable, a mapped
   * node name, or None (NULL) to refuse the client.
   */
  type AuthFn = (string, Option<string>, Option<seq<bv8>>, nat) -> Option<string>

  /** Every CONNECT field that is flagged present could be read. */
  predicate Readable(c: ConnectFields)
  {
    c.clientId.Some? && !c.username.Unreadable? && !c.password.Unreadable?
  }

  function FieldValue<T>(f: Field<T>): Option<T>
  {
    if f.Present? then Some(f.value) else None
  }

  /** What handleMessage_connect does: the CONNACK it sends, if any, and whether it asks the callback. */
  datatype ConnectOutcome = ConnectOutcome(reply: Option<ConnAckCode>, authCalled: bool)

  /**
   * The CONNECT decision: without an authentication callback, or with a field
   * that cannot be read, nothing is sent; a client id of `clientIdMaxLen` bytes
   * or more is refused with "identifier rejected" without asking the callback;
   * otherwise the callback decides between "accepted" and "bad user name or
   * password".
   */
  function ConnectDecision(cbAuth: Option<AuthFn>, userVar: nat, c: ConnectFields, clientIdMaxLen: nat): (o: ConnectOutcome)
    ensures o.authCalled <==> cbAuth.Some? && Readable(c) && |c.clientId.value| < clientIdMaxLen
    ensures o.reply.None? <==> cbAuth.None? || !Readable(c)
    ensures o.reply == Some(IdentifierRejected) <==>
      cbAuth.Some? && Readable(c) && |c.clientId.value| >= clientIdMaxLen
    ensures o.reply == Some(Accepted) <==>
      o.authCalled && cbAuth.value(c.clientId.value, FieldValue(c.username), FieldValue(c.password), userVar).Some?
    ensures o.reply == Some(BadUserNameOrPassword) <==>
      o.authCalled && cbAuth.value(c.clientId.value, FieldValue(c.username), FieldValue(c.password), userVar).None?
  {
    if cbAuth.None? then ConnectOutcome(None, false)
    else if !Readable(c) then ConnectOutcome(None, false)
    else if |c.clientId.value| >= clientIdMaxLen then ConnectOutcome(Some(IdentifierRejected), false)
    else
      var mapped := cbAuth.value(c.clientId.value, FieldValue(c.username), FieldValue(c.password), userVar);
      if mapped.None? then ConnectOutcome(Some(BadUserNameOrPassword), true)
      else ConnectOutcome(Some(Accepted), true)
  }

  /**
   * The reply a received packet calls for: a CONNACK (never with the session
   * present flag) as decided above, a PINGRESP for PINGREQ, and nothing for any
   * other packet or for a buffer that is not a pool message.
   */
  function ReplyTo(cbAuth: Option<AuthFn>, userVar: nat, msg: Option<MqttMessage>, clientIdMaxLen: nat): (r: Option<Reply>)
    ensures r.Some? ==> msg.Some? && (msg.value.kind == Connect || msg.value.kind == PingReq)
    ensures r == Some(PingRespReply) <==> msg.Some? && msg.value.kind == PingReq
    ensures r.Some? && r.value.ConnAckReply? ==> !r.value.sessionPresent
    ensures msg.Some? && msg.value.kind == Connect ==>
      r == (var d := ConnectDecision(cbAuth, userVar, msg.value.connect, clientIdMaxLen);
            if d.reply.Some? then Some(ConnAckReply(false, d.reply.value)) else None)
  {
    if msg.None? then None
    else match msg.value.kind
      case Connect =>
        var d := ConnectDecision(cbAuth, userVar, msg.value.connect, clientIdMaxLen);
        if d.reply.Some? then Some(ConnAckReply(false, d.reply.value)) else None
      case PingReq => Some(PingRespReply)
      case _ => None
  }

  /** The callback never sees a client id that is too long for the bridge. */
  lemma AuthOnlySeesShortIds(cbAuth: Option<AuthFn>, userVar: nat, c: ConnectFields, clientIdMaxLen: nat)
    requires ConnectDecision(cbAuth, userVar, c, clientIdMaxLen).authCalled
    ensures |c.clientId.value| < clientIdMaxLen
  {
  }

  /** A CONNECT is answered only with one of the three codes the bridge uses. */
  lemma ConnectCodes(cbAuth: Option<AuthFn>, userVar: nat, c: ConnectFields, clientIdMaxLen: nat)
    ensures var r := ConnectDecision(cbAuth, userVar, c, clientIdMaxLen).reply;
      r.Some? ==> r.value in {Accepted, IdentifierRejected, BadUserNameOrPassword}
  {
  }

  /** cxa_mqtt_rpc_node_bridge_t */
  class Bridge {
    const pool: MessagePool
    /** CXA_MQTT_RPC_NODE_BRIDGE_CLIENTID_MAXLEN_BYTES */
    const clientIdMaxLen: nat
    var isSingle: bool
    var cbAuth: Option<AuthFn>
    var userVarAuth: nat
    /** Packets written to the stream, in order. */
    var sent: seq<Reply>

    ghost predicate Valid()
      reads this, pool
    {
      pool.Valid()
    }

    /**
     * cxa_mqtt_rpc_node_bridge_vinit: records the (required) callback and marks
     * the bridge single; it keeps one pool message as the parser's buffer, and
     * asserts that the pool had one.
     */
    constructor VInit(pool: MessagePool, clientIdMaxLen: nat, cbAuth: AuthFn, userVarAuth: nat)
      requires pool.Valid() && pool.inUse < pool.capacity
      modifies pool
      ensures Valid() && this.pool == pool && this.clientIdMaxLen == clientIdMaxLen
      ensures isSingle && this.cbAuth == Some(cbAuth) && this.userVarAuth == userVarAuth
      ensures sent == []
      ensures pool.inUse == old(pool.inUse) + 1
    {
      this.pool := pool;
      this.clientIdMaxLen := clientIdMaxLen;
      isSingle := true;
      this.cbAuth := Some(cbAuth);
      this.userVarAuth := userVarAuth;
      sent := [];
      new;
      var ok := pool.Acquire();
    }

    /** cxa_mqtt_rpc_node_bridge_setAuthenticationCb: replaces the callback, which may be None (NULL). */
    method SetAuthenticationCb(cb: Option<AuthFn>, userVar: nat)
      modifies this
      ensures cbAuth == cb && userVarAuth == userVar
      ensures sent == old(sent) && isSingle == old(isSingle)
    {
      cbAuth := cb;
      userVarAuth := userVar;
    }

    /**
     * Sends one reply through a message from the pool (sendMessage_connack and
     * handleMessage_pingReq): the message is released on every path that
     * obtained one, and the reply is written only when every step succeeds.
     */
    method SendReply(reply: Reply, initOk: bool, writeOk: bool)
      requires Valid()
      modifies this, pool
      ensures Valid()
      ensures pool.inUse == old(pool.inUse)
      ensures sent == old(sent) + if old(pool.inUse) < pool.capacity && initOk && writeOk then [reply] else []
      ensures cbAuth == old(cbAuth) && userVarAuth == old(userVarAuth) && isSingle == old(isSingle)
    {
      var acquired := pool.Acquire();
      if acquired && initOk && writeOk {
        sent := sent + [reply];
      }
      if acquired {
        pool.Release();
      }
    }

    /** handleMessage_connect: sends the CONNACK the decision calls for, if any. */
    method HandleConnect(c: ConnectFields, initOk: bool, writeOk: bool)
      requires Valid()
      modifies this, pool
      ensures Valid()
      ensures pool.inUse == old(pool.inUse)
      ensures var d := ConnectDecision(cbAuth, userVarAuth, c, clientIdMaxLen);
        sent == old(sent) +
          if d.reply.Some? && old(pool.inUse) < pool.capacity && initOk && writeOk
          then [ConnAckReply(false, d.reply.value)] else []
      ensures cbAuth == old(cbAuth) && userVarAuth == old(userVarAuth) && isSingle == old(isSingle)
    {
      var d := ConnectDecision(cbAuth, userVarAuth, c, clientIdMaxLen);
      if d.reply.Some? {
        SendReply(ConnAckReply(false, d.reply.value), initOk, writeOk);
      }
    }

    /**
     * protoParseCb_onPacketReceived: a buffer that is not a pool message is
     * ignored; CONNECT and PINGREQ are answered; SUBSCRIBE and PUBLISH (whose
     * handlers only log) and every other type get no reply.
     */
    method OnPacketReceived(msg: Option<MqttMessage>, initOk: bool, writeOk: bool)
      requires Valid()
      modifies this, pool
      ensures Valid()
      ensures pool.inUse == old(pool.inUse)
      ensures var r := ReplyTo(cbAuth, userVarAuth, msg, clientIdMaxLen);
        sent == old(sent) + if r.Some? && old(pool.inUse) < pool.capacity && initOk && writeOk then [r.value] else []
      ensures cbAuth == old(cbAuth) && userVarAuth == old(userVarAuth) && isSingle == old(isSingle)
    {
      if msg.None? {
        return;
      }
      match msg.value.kind {
        case Connect =>
          HandleConnect(msg.value.connect, initOk, writeOk);
        case PingReq =>
          SendReply(PingRespReply, initOk, writeOk);
        case Subscribe =>
        case Publish =>
        case _ =>
      }
    }
  }
}
