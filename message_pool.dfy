/**
 * The message factories (cxa_rpc_messageFactory, cxa_mqtt_messageFactory) are
 * not part of this model; what the core relies on is their accounting: a fixed
 * number of message slots, acquisition fails immediately when all are live, and
 * dropping the last reference returns a slot.
 */
module MessagePools {

  class MessagePool {
    const capacity: nat
    /** Messages currently acquired and not yet released. */
    var inUse: nat

    ghost predicate Valid()
      reads this
    {
      inUse <= capacity
    }

    constructor (capacity: nat)
      ensures Valid() && this.capacity == capacity && inUse == 0
    {
      this.capacity := capacity;
      inUse := 0;
    }

    /** getFreeMessage_empty: fails (NULL) exactly when every slot is live. */
    method Acquire() returns (ok: bool)
      requires Valid()
      modifies this
      ensures Valid()
      ensures ok == (old(inUse) < capacity)
      ensures inUse == if ok then old(inUse) + 1 else old(inUse)
    {
      ok := inUse < capacity;
      if ok {
        inUse := inUse + 1;
      }
    }

    /** decrementMessageRefCount on a message with a single reference. */
    method Release()
      requires Valid() && inUse > 0
      modifies this
      ensures Valid()
      ensures inUse == old(inUse) - 1
    {
      inUse := inUse - 1;
    }
  }
}
