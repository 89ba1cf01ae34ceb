/**
 * The ESP8266 network factory (cxa_esp8266_network_factory.c): fixed tables of
 * TCP client and TCP server slots, each with an `isUsed` flag. Reserving takes
 * the first unused slot and fails (NULL) when there is none; freeing releases
 * the slot by identity. A handed-out client or server is identified here by its
 * slot index. The per-slot driver objects (their init and update) are not part
 * of this model.
 */
module NetworkFactory {
  import opened Wrappers

  /** CXA_ESP8266_NETWORKFACTORY_MAXNUM_CLIENTS and _SERVERS when not configured. */
  const DEFAULT_MAXNUM_CLIENTS: nat := 2
  const DEFAULT_MAXNUM_SERVERS: nat := 2

  /** The first unused slot of a table, if any. */
  function FirstFree(used: seq<bool>): (r: Option<nat>)
    ensures r.Some? ==> r.value < |used| && !used[r.value] && forall j :: 0 <= j < r.value ==> used[j]
    ensures r.None? ==> forall j :: 0 <= j < |used| ==> used[j]
  {
    if used == [] then None
    else
      var r := FirstFree(used[..|used| - 1]);
      if r.Some? then r
      else if !used[|used| - 1] then Some(|used| - 1)
      else None
  }

  /** The number of slots in use. */
  function UsedCount(used: seq<bool>): nat
  {
    if used == [] then 0 else UsedCount(used[..|used| - 1]) + (if used[|used| - 1] then 1 else 0)
  }

  /** The indices of the slots in use, in table order. */
  function UsedSlots(used: seq<bool>): seq<nat>
  {
    if used == [] then [] else UsedSlots(used[..|used| - 1]) + (if used[|used| - 1] then [|used| - 1] else [])
  }

  /** The number of used slots never exceeds the size of the table. */
  lemma {:induction false} UsedCountBounded(used: seq<bool>)
    ensures UsedCount(used) <= |used|
  {
    if used != [] {
      UsedCountBounded(used[..|used| - 1]);
    }
  }

  /** A reserve succeeds exactly when fewer slots than the table holds are in use. */
  lemma {:induction false} ReserveSucceedsIffRoom(used: seq<bool>)
    ensures FirstFree(used).Some? <==> UsedCount(used) < |used|
  {
    if used != [] {
      UsedCountBounded(used[..|used| - 1]);
      ReserveSucceedsIffRoom(used[..|used| - 1]);
    }
  }

  /** Setting one flag changes the count by exactly that slot's change. */
  lemma {:induction false} UsedCountUpdate(used: seq<bool>, i: nat, b: bool)
    requires i < |used|
    ensures UsedCount(used[i := b]) == UsedCount(used) - (if used[i] then 1 else 0) + (if b then 1 else 0)
  {
    var n := |used| - 1;
    if i == n {
      assert used[i := b][..n] == used[..n];
    } else {
      assert used[i := b][..n] == used[..n][i := b];
      UsedCountUpdate(used[..n], i, b);
    }
  }

  /** As many slots are listed as are in use. */
  lemma {:induction false} UsedSlotsCount(used: seq<bool>)
    ensures |UsedSlots(used)| == UsedCount(used)
  {
    if used != [] {
      UsedSlotsCount(used[..|used| - 1]);
    }
  }

  /** Every listed slot is in use, and the list is strictly increasing. */
  lemma {:induction false} UsedSlotsSound(used: seq<bool>)
    ensures forall k :: 0 <= k < |UsedSlots(used)| ==> UsedSlots(used)[k] < |used| && used[UsedSlots(used)[k]]
    ensures forall k, l :: 0 <= k < l < |UsedSlots(used)| ==> UsedSlots(used)[k] < UsedSlots(used)[l]
  {
    if used != [] {
      var init := used[..|used| - 1];
      UsedSlotsSound(init);
      assert forall j :: 0 <= j < |init| ==> init[j] == used[j];
    }
  }

  /** Every slot in use is listed. */
  lemma {:induction false} UsedSlotsComplete(used: seq<bool>, j: nat)
    requires j < |used| && used[j]
    ensures j in UsedSlots(used)
  {
    var init := used[..|used| - 1];
    if j < |init| {
      assert init[j] == used[j];
      UsedSlotsComplete(init, j);
    }
  }

  /**
   * With every slot in use, freeing one lets exactly one more reserve succeed:
   * the next reserve gets that slot back and the one after it fails again.
   */
  lemma {:induction false} FreeThenReserve(used: seq<bool>, i: nat)
    requires i < |used| && forall j :: 0 <= j < |used| ==> used[j]
    ensures FirstFree(used[i := false]) == Some(i)
    ensures FirstFree(used[i := false][i := true]).None?
  {
    FirstFreeIsFirstUnused(used[i := false], i);
    assert used[i := false][i := true] == used;
  }

  /** The factory's static state: the init flag and the two slot tables. */
  class Factory {
    var isInit: bool
    /** isUsed of each clients_raw entry. */
    const clientUsed: array<bool>
    /** isUsed of each servers_raw entry. */
    const serverUsed: array<bool>

    /** Static storage before cxa_esp8266_network_factory_init. */
    constructor (maxClients: nat, maxServers: nat)
      ensures !isInit && clientUsed.Length == maxClients && serverUsed.Length == maxServers
      ensures fresh(clientUsed) && fresh(serverUsed) && clientUsed != serverUsed
    {
      isInit := false;
      clientUsed := new bool[maxClients];
      serverUsed := new bool[maxServers];
    }

    /** cxa_esp8266_network_factory_init: every client and server slot is unused. */
    method Init()
      requires clientUsed != serverUsed
      modifies this, clientUsed, serverUsed
      ensures isInit
      ensures forall i :: 0 <= i < clientUsed.Length ==> !clientUsed[i]
      ensures forall i :: 0 <= i < serverUsed.Length ==> !serverUsed[i]
    {
      ClearAll(clientUsed);
      ClearAll(serverUsed);
      isInit := true;
    }

    /**
     * cxa_esp8266_network_factory_update: the client slots and then the server
     * slots whose drivers are updated, which are exactly the used ones, in order.
     */
    method Update() returns (clients: seq<nat>, servers: seq<nat>)
      requires isInit
      ensures clients == UsedSlots(clientUsed[..])
      ensures servers == UsedSlots(serverUsed[..])
    {
      clients := UsedIn(clientUsed);
      servers := UsedIn(serverUsed);
    }

    /** cxa_network_factory_reserveTcpClient */
    method ReserveTcpClient() returns (slot: Option<nat>)
      requires isInit && clientUsed.Length > 0
      modifies clientUsed
      ensures slot == FirstFree(old(clientUsed[..]))
      ensures clientUsed[..] == if slot.Some? then old(clientUsed[..])[slot.value := true] else old(clientUsed[..])
    {
      slot := Reserve(clientUsed);
    }

    /** cxa_network_factory_freeTcpClient: a slot that is not in the table changes nothing. */
    method FreeTcpClient(slot: int)
      requires isInit && clientUsed.Length > 0
      modifies clientUsed
      ensures clientUsed[..] == if 0 <= slot < clientUsed.Length then old(clientUsed[..])[slot := false] else old(clientUsed[..])
    {
      Free(clientUsed, slot);
    }

    /** cxa_network_factory_reserveTcpServer */
    method ReserveTcpServer() returns (slot: Option<nat>)
      requires isInit && serverUsed.Length > 0
      modifies serverUsed
      ensures slot == FirstFree(old(serverUsed[..]))
      ensures serverUsed[..] == if slot.Some? then old(serverUsed[..])[slot.value := true] else old(serverUsed[..])
    {
      slot := Reserve(serverUsed);
    }

    /** cxa_network_factory_freeTcpServer */
    method FreeTcpServer(slot: int)
      requires isInit && serverUsed.Length > 0
      modifies serverUsed
      ensures serverUsed[..] == if 0 <= slot < serverUsed.Length then old(serverUsed[..])[slot := false] else old(serverUsed[..])
    {
      Free(serverUsed, slot);
    }
  }

  /** The init loop: marks every entry of a table unused. */
  method ClearAll(used: array<bool>)
    modifies used
    ensures forall i :: 0 <= i < used.Length ==> !used[i]
  {
    var i := 0;
    while i < used.Length
      invariant i <= used.Length
      invariant forall k :: 0 <= k < i ==> !used[k]
    {
      used[i] := false;
      i := i + 1;
    }
  }

  /** The update loop: collects the used entries of a table, in order. */
  method UsedIn(used: array<bool>) returns (slots: seq<nat>)
    ensures slots == UsedSlots(used[..])
  {
    slots := [];
    var i := 0;
    while i < used.Length
      invariant i <= used.Length
      invariant slots == UsedSlots(used[..i])
    {
      assert used[..i + 1][..i] == used[..i];
      if used[i] {
        slots := slots + [i];
      }
      i := i + 1;
    }
    assert used[..used.Length] == used[..];
  }

  /** The reserve loop: takes the first unused entry. */
  method Reserve(used: array<bool>) returns (slot: Option<nat>)
    modifies used
    ensures slot == FirstFree(old(used[..]))
    ensures used[..] == if slot.Some? then old(used[..])[slot.value := true] else old(used[..])
  {
    var i := 0;
    while i < used.Length
      invariant i <= used.Length
      invariant forall k :: 0 <= k < i ==> used[k]
      invariant used[..] == old(used[..])
    {
      if !used[i] {
        FirstFreeIsFirstUnused(used[..], i);
        used[i] := true;
        return Some(i);
      }
      i := i + 1;
    }
    slot := None;
  }

  /** The first unused slot is the one FirstFree names. */
  lemma FirstFreeIsFirstUnused(used: seq<bool>, i: nat)
    requires i < |used| && !used[i] && forall k :: 0 <= k < i ==> used[k]
    ensures FirstFree(used) == Some(i)
  {
  }

  /** The free loop: clears the entry whose identity matches. */
  method Free(used: array<bool>, slot: int)
    modifies used
    ensures used[..] == if 0 <= slot < used.Length then old(used[..])[slot := false] else old(used[..])
  {
    var i := 0;
    while i < used.Length
      invariant i <= used.Length
      invariant used[..] == old(used[..])
      invariant !(0 <= slot < i)
    {
      if i == slot {
        used[i] := false;
        return;
      }
      i := i + 1;
    }
  }
}
