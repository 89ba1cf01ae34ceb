# common-c: RPC links, MQTT bridge, console, logger and supporting collections in Dafny

This project models the core of the `common-c` embedded C library:

- **Bounded array** (`cxa_array`). A fixed-capacity array over caller storage with an insertion index. It supports append, insert, remove, overwrite, get and clear.
- **Number utilities** (`cxa_numberUtils`). The MAX/MIN and CLAMP macros.
- **RPC message handler** (`cxa_rpc_messageHandler`). The base that every RPC node embeds. Messages go up through `cb_upstream` and down through `cb_downstream`.
- **Remote RPC link** (`cxa_rpc_nodeRemote`). The serial link that joins two RPC trees.
  - Its downstream side owns a subnode. It periodically sends a `_getName` provisioning request to `_linkMan`.
  - Its upstream side answers that request and calls the link listeners.
  - All other messages are relayed to the parent (upstream side) or to the subnode (downstream side).
- **MQTT bridge node** (`cxa_mqtt_rpc_node_bridge`).
  - It answers CONNECT with CONNACK, after a client-id length check and an authentication callback.
  - It answers PINGREQ with PINGRESP.
- **ESP8266 network factory**. Tables of TCP client and server slots, handed out first-free.
- **Serial console**. A byte-at-a-time line editor, and a table of prefix-matched commands that always starts with `clear` and `help`.
- **Logger**.
  - Global state: the stream, the system logger and the name-field width.
  - Fixed-width header fields, cut with `...` when too long.
  - Log lines, and the step-debug and memory-dump lines.

How the model is built:

- **Classes.** Entities that the C code updates in place are classes. This covers the array, the link, the bridge, the factory tables, the console state, the logger context and the message pool.
- **Methods and loops.** Methods carry `modifies` clauses, and loops carry invariants.
- **Specification functions.** The pure decisions are functions. Examples: the provisioning request and reply, the CONNACK decision, the console's line editing and command lookup, and header fields and dumps. Each method is proved against such a function.
- **Unseen code becomes inputs and traces.** Code that is not part of the model is represented in two ways:
  - Function pointers are identity tags.
  - Writes to a stream, calls into handlers and callbacks are appended to trace fields: `written`, `relayed`, `notified`, `sent`, `executed` and `output`.
  - Success or failure of unseen calls is a boolean input (`writeOk`, `initOk`, `timerElapsed`).
- **Message factory.** The message factory is a `MessagePool` with a capacity and an in-use count. Every handler is proved to give back each message it takes.

## Model

| member | source | states |
|---|---|---|
| NumberUtils.Max | include/misc/cxa_numberUtils.h:35 | the result is one of the two arguments and at least both |
| NumberUtils.Min | include/misc/cxa_numberUtils.h:36 | the result is one of the two arguments and at most both |
| NumberUtils.ClampHigh | include/misc/cxa_numberUtils.h:38 | the result never exceeds `max`; a value within bound is kept, a larger one becomes `max` |
| NumberUtils.ClampLow | include/misc/cxa_numberUtils.h:39 | the result is at least `min`; a value within bound is kept, a smaller one becomes `min` |
| NumberUtils.ClampLowHigh | include/misc/cxa_numberUtils.h:40 | with min <= max the result lies in [min, max] and a value already inside is kept; with min > max the upper clamp wins |
| NumberUtils.ClampHighIdempotent | include/misc/cxa_numberUtils.h:38 | clamping twice to the same bound equals clamping once |
| NumberUtils.ClampLowIdempotent | include/misc/cxa_numberUtils.h:39 | clamping twice to the same bound equals clamping once |
| NumberUtils.ClampLowHighIdempotent | include/misc/cxa_numberUtils.h:40 | clamping twice to the same range equals clamping once |
| BoundedArrays.BoundedArray.Init | include/collections/cxa_array.h:138-150 | the array uses the given storage and starts empty |
| BoundedArrays.BoundedArray.InitInPlace | include/collections/cxa_array.h:153-167 | the array adopts the first `currNumElems` elements already in the storage |
| BoundedArrays.BoundedArray.Size | include/collections/cxa_array.h:295-303 | the number of elements held |
| BoundedArrays.BoundedArray.MaxSize | include/collections/cxa_array.h:306-314 | the capacity, which bounds the number of elements |
| BoundedArrays.BoundedArray.FreeSize | include/collections/cxa_array.h:317-325 | size plus free size is the capacity |
| BoundedArrays.BoundedArray.IsFull | include/collections/cxa_array.h:328-336 | full exactly when no free slot is left |
| BoundedArrays.BoundedArray.IsEmpty | include/collections/cxa_array.h:339-347 | empty exactly when no element is held |
| BoundedArrays.BoundedArray.Get | include/collections/cxa_array.h:232-242 | element `index` when it is below the size, otherwise none (NULL) |
| BoundedArrays.BoundedArray.GetNoBoundsCheck | include/collections/cxa_array.h:245-258 | any slot below the capacity can be read; below the size it agrees with Get |
| BoundedArrays.BoundedArray.Append | include/collections/cxa_array.h:170-182 | succeeds exactly when not full; the item goes last and nothing else changes |
| BoundedArrays.BoundedArray.AppendEmpty | include/collections/cxa_array.h:185-200 | when not full, hands out the next slot and counts it as an element; fails (NULL) when full |
| BoundedArrays.BoundedArray.RemoveAtIndex | include/collections/cxa_array.h:203-214 | succeeds exactly for an index below the size; the elements after it move down one place, order kept |
| BoundedArrays.BoundedArray.Remove | include/collections/cxa_array.h:217-229 | removing an element identified by its slot, as RemoveAtIndex; a slot outside the elements fails |
| BoundedArrays.BoundedArray.Overwrite | include/collections/cxa_array.h:261-274 | replaces element `index` in place, leaving all others |
| BoundedArrays.BoundedArray.Insert | include/collections/cxa_array.h:277-292 | inserts before `index` (index <= size), shifting later elements up; fails when full |
| BoundedArrays.BoundedArray.Clear | include/collections/cxa_array.h:350-358 | no elements remain; the storage itself is untouched |
| BoundedArrays.BoundedArray.Visit | include/collections/cxa_array.h:86-114 | the iterate loop visits exactly the elements, in order |
| MessageHandlers.MessageHandler.Init | src/rpc/cxa_rpc_messageHandler.c:46-56 | both callbacks installed, parent cleared |
| MessageHandlers.HandleUpstream | include/rpc/cxa_rpc_messageHandler.h:39 | a call is made exactly when cb_upstream is set, through that callback with the same message |
| MessageHandlers.HandleDownstream | include/rpc/cxa_rpc_messageHandler.h:40 | false when cb_downstream is NULL, otherwise the callback's own answer |
| MessageHandlers.DownstreamInvocation | include/rpc/cxa_rpc_messageHandler.h:40 | a call is made exactly when cb_downstream is set, through that callback with the same message |
| NodeRemote.ProvisionRequest | src/rpc/cxa_rpc_nodeRemote.c:145-154 | the request is link management to `_linkMan`, method `_getName`, id 1234, with the subnode's name as its only parameter |
| NodeRemote.ProvisionReply | src/rpc/cxa_rpc_nodeRemote.c:268-302 | answered exactly for a `_getName` request whose first parameter is a non-empty name; the answer is a link-management response that carries the success return code and echoes the id and the name |
| NodeRemote.ProvisionEffectOf | src/rpc/cxa_rpc_nodeRemote.c:331-359 | a response with id 1234 naming the local subnode grants exactly when its return code is non-zero and denies exactly when it is zero; a response for another name is ignored |
| NodeRemote.ProvisionedAfter | src/rpc/cxa_rpc_nodeRemote.c:343-369 | a grant sets isProvisioned, a denial clears it, anything else keeps it |
| NodeRemote.LastDecisionWins | src/rpc/cxa_rpc_nodeRemote.c:331-372 | over any run of messages, the last grant or denial decides isProvisioned |
| NodeRemote.NothingDecisiveKeepsState | src/rpc/cxa_rpc_nodeRemote.c:331-372 | messages that neither grant nor deny leave isProvisioned unchanged |
| NodeRemote.HandshakeProvisions | src/rpc/cxa_rpc_nodeRemote.c:145-154 | the upstream side answers a downstream request for a named subnode; that answer grants the downstream side exactly when the success code is non-zero, and denies it otherwise |
| NodeRemote.UnnamedRequestUnanswered | src/rpc/cxa_rpc_nodeRemote.c:279-287 | a request carrying an empty name gets no answer |
| NodeRemote.ForeignAnswerIgnored | src/rpc/cxa_rpc_nodeRemote.c:343-350 | an answer for another subnode does not provision this link |
| NodeRemote.ProvisioningTrafficIsLocal | src/rpc/cxa_rpc_nodeRemote.c:238-251 | the provisioning request and its reply are both link management, so they are consumed and never relayed |
| NodeRemote.Link.IsUpstream | src/rpc/cxa_rpc_nodeRemote.c:177-182 | a link is upstream exactly when it owns no subnode |
| NodeRemote.Link.constructor | src/rpc/cxa_rpc_nodeRemote.c:63-82 | fresh link storage: no subnode, no listeners, empty traces, and the success code the link answers with |
| NodeRemote.Link.InitUpstream | src/rpc/cxa_rpc_nodeRemote.c:63-82 | callbacks installed, no subnode, unprovisioned, no listeners |
| NodeRemote.Link.InitDownstream | src/rpc/cxa_rpc_nodeRemote.c:85-127 | always records the subnode; succeeds exactly when the subnode has no parent and is not the global root, and then becomes its parent and makes it a local root |
| NodeRemote.Link.AddLinkListener | src/rpc/cxa_rpc_nodeRemote.c:130-137 | appends the listener, failing exactly when the listener array is full |
| NodeRemote.Link.NotifyListeners | src/rpc/cxa_rpc_nodeRemote.c:321-325 | every listener is called once, in registration order |
| NodeRemote.Link.Update | src/rpc/cxa_rpc_nodeRemote.c:140-173 | an unprovisioned downstream link whose timer elapsed writes exactly one provisioning request when a message is available and initialises and writes; the pool balance is restored on every path |
| NodeRemote.Link.HandleMessageUpstream | src/rpc/cxa_rpc_nodeRemote.c:185-204 | writes the message exactly when one is given, the link is downstream and the write succeeds |
| NodeRemote.Link.HandleMessageDownstream | src/rpc/cxa_rpc_nodeRemote.c:207-228 | handled (and written) exactly when a message is given, the link is upstream and the write succeeds |
| NodeRemote.Link.HandleLinkManagementUpstream | src/rpc/cxa_rpc_nodeRemote.c:268-328 | writes ProvisionReply when there is one and every step succeeds, then notifies all listeners; the pool balance is restored |
| NodeRemote.Link.HandleLinkManagementDownstream | src/rpc/cxa_rpc_nodeRemote.c:331-372 | isProvisioned becomes ProvisionedAfter of the message's effect; every grant notifies all listeners, with no guard against repeats |
| NodeRemote.Link.MessageReceived | src/rpc/cxa_rpc_nodeRemote.c:231-265 | link-management messages are never relayed: on an upstream link they write ProvisionReply and notify as HandleLinkManagementUpstream does, on a downstream link they update isProvisioned and notify as HandleLinkManagementDownstream does; all other messages are relayed as Relay says and change nothing else |
| NodeRemote.Link.Relay | src/rpc/cxa_rpc_nodeRemote.c:254-264 | an upstream link calls the parent's cb_upstream and a downstream link the subnode's cb_downstream, at most one call, none when that callback is NULL |
| MqttBridge.ConnectDecision | src/mqtt/rpc/cxa_mqtt_rpc_node_bridge.c:138-187 | no reply without a callback or with an unreadable field; an over-long client id is rejected without asking the callback; otherwise accepted exactly when the callback maps the client, else bad user name or password |
| MqttBridge.ReplyTo | src/mqtt/rpc/cxa_mqtt_rpc_node_bridge.c:104-135 | CONNECT gets the decided CONNACK with session-present clear, PINGREQ gets PINGRESP, nothing else gets a reply |
| MqttBridge.AuthOnlySeesShortIds | src/mqtt/rpc/cxa_mqtt_rpc_node_bridge.c:165-177 | the callback is only ever asked about client ids shorter than the maximum |
| MqttBridge.ConnectCodes | src/mqtt/rpc/cxa_mqtt_rpc_node_bridge.c:165-186 | a CONNECT is only answered with accepted, identifier rejected or bad user name or password |
| MqttBridge.Bridge.VInit | src/mqtt/rpc/cxa_mqtt_rpc_node_bridge.c:56-83 | the callback is recorded, the bridge is single, and one pool message is kept as the parser buffer |
| MqttBridge.Bridge.SetAuthenticationCb | src/mqtt/rpc/cxa_mqtt_rpc_node_bridge.c:86-92 | replaces the callback and its user variable |
| MqttBridge.Bridge.SendReply | src/mqtt/rpc/cxa_mqtt_rpc_node_bridge.c:221-233 | a reply is written exactly when a message is available and initialises and the write succeeds; the message always goes back to the pool |
| MqttBridge.Bridge.HandleConnect | src/mqtt/rpc/cxa_mqtt_rpc_node_bridge.c:138-187 | sends the CONNACK that ConnectDecision calls for |
| MqttBridge.Bridge.OnPacketReceived | src/mqtt/rpc/cxa_mqtt_rpc_node_bridge.c:104-135 | sends what ReplyTo calls for; the pool balance is kept |
| NetworkFactory.FirstFree | src/arch-esp8266/cxa_esp8266_network_factory.c:132-155 | the first unused slot, every slot before it used; none only when all are used |
| NetworkFactory.UsedCountBounded | src/arch-esp8266/cxa_esp8266_network_factory.c:41-54 | no more slots are used than the table holds |
| NetworkFactory.ReserveSucceedsIffRoom | src/arch-esp8266/cxa_esp8266_network_factory.c:132-155 | a reserve succeeds exactly when fewer slots than the table holds are used |
| NetworkFactory.UsedCountUpdate | src/arch-esp8266/cxa_esp8266_network_factory.c:158-177 | setting one flag changes the used count by exactly that slot's change |
| NetworkFactory.UsedSlotsCount | src/arch-esp8266/cxa_esp8266_network_factory.c:106-129 | update visits as many slots as are used |
| NetworkFactory.UsedSlotsSound | src/arch-esp8266/cxa_esp8266_network_factory.c:106-129 | update visits only used slots, in table order |
| NetworkFactory.UsedSlotsComplete | src/arch-esp8266/cxa_esp8266_network_factory.c:106-129 | update visits every used slot |
| NetworkFactory.FreeThenReserve | src/arch-esp8266/cxa_esp8266_network_factory.c:132-177 | in a full table, freeing a slot lets the next reserve get exactly that slot, and the one after fails again |
| NetworkFactory.FirstFreeIsFirstUnused | src/arch-esp8266/cxa_esp8266_network_factory.c:132-155 | the first unused slot is the one handed out |
| NetworkFactory.Factory.constructor | src/arch-esp8266/cxa_esp8266_network_factory.c:41-72 | two separate slot tables of the configured sizes, not yet initialised |
| NetworkFactory.Factory.Init | src/arch-esp8266/cxa_esp8266_network_factory.c:75-103 | initialised, every client and server slot unused |
| NetworkFactory.Factory.Update | src/arch-esp8266/cxa_esp8266_network_factory.c:106-129 | the used client and server slots, as UsedSlots lists them |
| NetworkFactory.Factory.ReserveTcpClient | src/arch-esp8266/cxa_esp8266_network_factory.c:132-155 | hands out FirstFree and marks it used; otherwise nothing changes and none (NULL) is returned |
| NetworkFactory.Factory.FreeTcpClient | src/arch-esp8266/cxa_esp8266_network_factory.c:158-177 | marks the given slot unused; an unknown client changes nothing |
| NetworkFactory.Factory.ReserveTcpServer | src/arch-esp8266/cxa_esp8266_network_factory.c:180-203 | hands out FirstFree and marks it used; otherwise nothing changes and none (NULL) is returned |
| NetworkFactory.Factory.FreeTcpServer | src/arch-esp8266/cxa_esp8266_network_factory.c:206-224 | marks the given slot unused; an unknown server changes nothing |
| NetworkFactory.ClearAll | src/arch-esp8266/cxa_esp8266_network_factory.c:79-101 | every slot of a table unused |
| NetworkFactory.UsedIn | src/arch-esp8266/cxa_esp8266_network_factory.c:110-127 | the loop over a table collects exactly UsedSlots |
| NetworkFactory.Reserve | src/arch-esp8266/cxa_esp8266_network_factory.c:136-154 | the loop takes exactly FirstFree and marks only that slot |
| NetworkFactory.Free | src/arch-esp8266/cxa_esp8266_network_factory.c:162-176 | the loop clears exactly the matching slot and nothing else |
| Console.Lookup | src/console/cxa_console.c:147-152 | the first registered command whose name is a prefix of the line; none exactly when no name is |
| Console.LookupIsFirstMatch | src/console/cxa_console.c:147-152 | the first matching entry is the one that runs |
| Console.BuiltinsShadow | src/console/cxa_console.c:85-88 | with `clear` and `help` registered first, a user command whose name starts with either never runs |
| Console.LineAfter | src/console/cxa_console.c:138-232 | a line end empties the buffer; an erase drops the last byte; another byte is appended, or empties a full buffer; the buffer never exceeds its capacity |
| Console.RunsAfter | src/console/cxa_console.c:141-202 | at most one command runs, exactly when a non-empty line ends and some command matches it, and it is the first match |
| Console.EraseUndoesAppend | src/console/cxa_console.c:207-232 | typing a byte into a buffer with room and erasing it restores the line |
| Console.OverflowEmpties | src/console/cxa_console.c:222-228 | a full buffer is emptied by one more ordinary byte |
| Console.RunsAfterAsWritten | src/console/cxa_console.c:152 | as written, the match runs on the buffer storage, so its prefix test sees bytes beyond the typed line |
| Console.StaleBytesRunHelp | src/console/cxa_console.c:152 | after `help` ran, typing `he` runs `help` again as written, while the corrected step runs nothing |
| Console.BlockLinePadding | src/console/cxa_console.c:276-299 | the padding and the text together fill 36 columns, and the left pad is at most one less than the right |
| Console.BlockLine | src/console/cxa_console.c:276-299 | a 40-column line framed by `* ` and ` *` with the fitting text centred |
| Console.ConsoleState.Init | src/console/cxa_console.c:77-95 | empty buffer, not executing, and the table holds `clear` then `help` |
| Console.ConsoleState.AddCommand | src/console/cxa_console.c:98-110 | the entry is added last |
| Console.ConsoleState.FindCommand | src/console/cxa_console.c:147-152 | the matching loop finds exactly Lookup of the typed line |
| Console.ConsoleState.OnRunLoopUpdate | src/console/cxa_console.c:135-234 | the buffer changes as LineAfter says, the command RunsAfter names runs, and a completed command or an overflow leaves isExecutingCommand clear |
| Logger.LevelText | src/logger/cxa_logger.c:326-348 | between 4 and 5 bytes; "UNKN" exactly for an unknown level |
| Logger.LevelTextInjective | src/logger/cxa_logger.c:326-348 | different levels read differently |
| Logger.Field | src/logger/cxa_logger.c:301-318 | exactly `width` bytes: a fitting string padded with spaces, a longer one cut and ending in "..." |
| Logger.FieldKeepsFittingText | src/logger/cxa_logger.c:311-317 | a fitting string is the field minus its padding |
| Logger.LevelFieldNeverCut | src/logger/cxa_logger.c:370 | every level text fits its five-byte field |
| Logger.LastIndexOf | src/logger/cxa_logger.c:198 | the last occurrence of a character, or none when it does not occur |
| Logger.ShortFileName | src/logger/cxa_logger.c:197-203 | the suffix after the last '/', else after the last '\', else the whole name |
| Logger.LastIndexOfIs | src/logger/cxa_logger.c:198 | the last occurrence is the one found |
| Logger.ShortFileNameOfPath | src/logger/cxa_logger.c:197-203 | a path shortens to its last component |
| Logger.HexDigit | src/logger/cxa_logger.c:269-275 | an uppercase hexadecimal digit |
| Logger.HexValue | src/logger/cxa_logger.c:269-275 | a digit's value is below 16 |
| Logger.HexByte | src/logger/cxa_logger.c:272 | "%02X": two uppercase hexadecimal digits |
| Logger.HexByteRoundTrip | src/logger/cxa_logger.c:272 | the two digits give the byte back |
| Logger.DumpItemsLength | src/logger/cxa_logger.c:269-275 | a dump of n > 0 bytes is 4n - 2 characters |
| Logger.DumpItemsAt | src/logger/cxa_logger.c:269-275 | byte k sits at offset 4k, followed by ", " unless it is the last |
| Logger.DumpBytes | src/logger/cxa_logger.c:269-275 | the dump loop produces exactly DumpItems |
| Logger.LogContext.constructor | src/logger/cxa_logger.c:48-56 | no stream, no system logger yet, zero name width |
| Logger.LogContext.StoredName | src/logger/cxa_logger.c:78-79 | the stored name is the longest prefix that fits the name buffer |
| Logger.LogContext.WidthAfterSysLog | src/logger/cxa_logger.c:290-298 | the name-field width never shrinks and covers `sysLog` once that logger is set up |
| Logger.LogContext.SetGlobalIoStream | src/logger/cxa_logger.c:59-68 | the system logger is set up, then the stream is recorded |
| Logger.LogContext.Init | src/logger/cxa_logger.c:71-100 | the name is stored truncated; the field width grows to fit it and never shrinks |
| Logger.LogContext.CheckSysLogInit | src/logger/cxa_logger.c:290-298 | the system logger is set up exactly once, named `sysLog` |
| Logger.LogContext.WriteField | src/logger/cxa_logger.c:301-318 | writes exactly Field of the string |
| Logger.LogContext.Header | src/logger/cxa_logger.c:321-372 | the name padded to the widest name (never cut), then the level text in its field, then a space |
| Logger.LogContext.WriteHeader | src/logger/cxa_logger.c:321-372 | writes exactly Header |
| Logger.LogContext.LogUntermString | src/logger/cxa_logger.c:109-146 | nothing without a stream; otherwise header, prefix, text, postfix and line ending |
| Logger.LogContext.LogFormattedString | src/logger/cxa_logger.c:149-187 | nothing without a stream; otherwise header, formatted text and line ending |
| Logger.LogContext.StepDebug | src/logger/cxa_logger.c:190-235 | nothing without a stream; otherwise a system-logger debug header, the short file location, " - " and the message when present, and the line ending |
| Logger.LogContext.StepDebugMemDump | src/logger/cxa_logger.c:238-286 | nothing without a stream; otherwise header, location, message, and the bytes as `{` DumpItems `}` |

## Left out

- The message factory and the message encoding (`cxa_rpc_message`, `cxa_rpc_messageFactory`) are not part of this model.
  - A message is a record of the fields the link reads.
  - The factory is a pool with a capacity and an in-use count.
  - Message reference counts beyond take and give back are not modelled.
- Protocol parsers, CRC and byte streams are not modelled. That covers `cxa_rpc_protocolParser`, `cxa_protocolParser_mqtt` and `cxa_ioStream`.
  - Whether a read, an initialisation or a write succeeds is an input.
  - What is written is appended to a trace.
- Several parts are reduced to an input or to a record of the call:
  - The provisioning timer (`cxa_timeDiff`) is a `timerElapsed` input.
  - Critical sections and the console's prelog/postlog hooks are not modelled.
  - Callbacks into application code are recorded as calls, not run.
- The bridge's superclass set-up (`cxa_mqtt_rpc_node_vinit`, the node name format) and the parser set-up are not modelled; the bridge keeps its own pool of MQTT messages.
- Link listeners and console commands always carry a callback, so the C code's NULL-callback checks never apply in the model.
- Configuration constants defined outside the modelled files become constructor parameters. These are name lengths, the number of console commands, the client-id maximum and the number of link listeners.
- Several operations are not modelled:
  - `cxa_array_writeToFile_asciiHexRep` (file I/O).
  - `cxa_mqtt_rpc_node_bridge_update` (it only runs the parser).
  - The SUBSCRIBE and PUBLISH handlers (they only log).
  - The TCP client and server driver init and update that the network factory calls.
- Console: these parts write to the terminal and are left out:
  - splitting a command line into `argc`/`argv`;
  - echo, escape codes, prompt and error text;
  - the boot header.
  Two further simplifications: a command callback is always present, and `printCommandLine` is taken to clear `isExecutingCommand`.
- Logger:
  - The time and logger-address header fields and `vsnprintf` formatting are left out. Callers pass in the formatted text, and a `location` function stands in for the `"%s::%d"` formatting.
  - `setGlobalIoStream` is reduced to whether a stream is present. The banner lines it writes are not modelled.
- Logger.Field: requires a field of at least three bytes whenever the string is longer than the field. In C, `maxFieldLenIn - strlen("...")` would wrap around below three.
- Logger.LogContext.LogUntermString: requires a known level, which the C code asserts. It requires the logger's name to fit the current name width, which holds for every logger initialised through this context.
- Logger.LogContext.LogFormattedString: the same two requirements as LogUntermString.
- NodeRemote.Link.MessageReceived: requires a parent on an upstream link for messages that are not link management. Without one, the C code dereferences a NULL parent.
- NodeRemote.ProvisionEffectOf: the return value is modelled as a return code that the downstream side tests as a C truth value (zero denies). How `cxa_rpc_message` stores and returns it is not part of this model.
- NodeRemote.HandshakeProvisions: the value of `CXA_RPC_METHOD_RETVAL_SUCCESS` is defined outside the modelled files, so it is a parameter (`Link.retvalSuccess`). The lemma proves both cases. A non-zero value grants. A zero value denies, and then no link is ever provisioned. The only return-code enum in the modelled files (`CXA_MQTT_RPC_METHODRETVAL_SUCCESS=0` in `include/mqtt/rpc/cxa_mqtt_rpc_node.h`) belongs to the MQTT RPC layer, not to this one.
- BoundedArrays.BoundedArray.Overwrite: an index that is not below the size returns false. The header only says such an index must not be passed.
- BoundedArrays.BoundedArray.Insert: an index beyond the size returns false. The header only says it must not be passed.
- Console.BlockLinePadding: `printBlockLine` subtracts in unsigned `size_t` and then converts to `int`. The model computes the same clamp in signed arithmetic.
- NumberUtils.ClampLowHigh: `CXA_CLAMP_LOW_HIGH` assigns to the result of an assignment, which C does not accept as an lvalue. The model is the evident composition: clamp low, then high.
- NodeRemote.Link.HandleLinkManagementDownstream: listeners are notified on every grant. The code has no guard against repeats, and the contract states this for any earlier `isProvisioned`.
- NodeRemote.Link.InitDownstream: the code stores the subnode before its checks, so a failed adoption still leaves the link downstream. The model follows the code.

## Findings

| source | as written | input that shows it | evidently intended | confidence | as-written member | corrected member |
|---|---|---|---|---|---|---|
| src/console/cxa_console.c:152 | `cxa_stringUtils_startsWith` is given the command buffer's raw storage. That storage is not NUL-terminated at the typed line's end, so bytes left over from an earlier line take part in the prefix test. | Type `help` and a line end, then `he` and a line end. The storage reads `help` followed by zeros, so `help` runs again. | Match only the typed bytes: `he` matches no command and prints "Unknown command". | medium, not executed (the body of `cxa_stringUtils_startsWith` is defined outside the modelled files) | Console.RunsAfterAsWritten, Console.StaleBytesRunHelp | Console.RunsAfter, Console.ConsoleState.OnRunLoopUpdate |
