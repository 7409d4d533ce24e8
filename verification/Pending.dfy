/** One-slot channels and the pending tables that hold them
    (pkg/holonrpc/client.go and server.go; the same shape in pkg/transport/wsweb.go). */
module Pending {
  import opened Wrappers

  /** A channel of capacity one after a non-blocking send. */
  function AfterSend<T>(content: Option<T>, msg: T): Option<T> {
    if content.Some? then content else Some(msg)
  }

  /** A channel after an answer, if there is one, was offered to it. */
  function AfterAnswer<T>(content: Option<T>, answer: Option<T>): Option<T> {
    if answer.Some? then AfterSend(content, answer.value) else content
  }

  class OneSlot<T> {
    var content: Option<T>
    /** The table the channel was made for. */
    ghost const table: PendingTable<T>

    constructor (ghost table: PendingTable<T>)
      ensures content == None && this.table == table
    {
      content := None;
      this.table := table;
    }

    /** Never blocks: a message that does not fit is dropped. */
    method TrySend(msg: T)
      modifies this
      ensures content == AfterSend(old(content), msg)
    {
      if content.None? {
        content := Some(msg);
      }
    }
  }

  class PendingTable<T> {
    var entries: map<string, OneSlot<T>>
    /** The end that the table belongs to. */
    ghost const holder: string

    /** Different calls have different channels, which no other table has. */
    ghost predicate Valid()
      reads this
    {
      && (forall k, k' :: k in entries && k' in entries && k != k' ==> entries[k] != entries[k'])
      && (forall k :: k in entries ==> entries[k].table == this)
    }

    constructor (ghost holder: string)
      ensures Valid() && entries == map[] && this.holder == holder
    {
      entries := map[];
      this.holder := holder;
    }

    method Register(key: string) returns (slot: OneSlot<T>)
      requires Valid()
      modifies this
      ensures Valid() && fresh(slot) && slot.content == None
      ensures entries == old(entries)[key := slot]
    {
      slot := new OneSlot<T>(this);
      entries := entries[key := slot];
    }

    /** The deferred delete. */
    method Remove(key: string)
      requires Valid()
      modifies this
      ensures Valid() && entries == old(entries) - {key}
    {
      entries := entries - {key};
    }

    /** Offers a message to the call registered under a key, if there is one. */
    method Deliver(key: Option<string>, msg: T)
      requires Valid()
      modifies entries.Values
      ensures Valid() && entries == old(entries)
      ensures forall k :: k in entries ==>
        entries[k].content == if key == Some(k) then AfterSend(old(entries[k].content), msg) else old(entries[k].content)
    {
      if key.Some? && key.value in entries {
        entries[key.value].TrySend(msg);
      }
    }

    /** Swaps the table for an empty one, then offers the message to every
        channel of the old one: no call that was pending waits any longer. */
    method FailAll(msg: T)
      requires Valid()
      modifies this, entries.Values
      ensures Valid() && entries == map[]
      ensures forall k :: k in old(entries) ==>
        old(entries)[k].content == AfterSend(old(entries[k].content), msg) && old(entries)[k].content.Some?
    {
      var pending := entries;
      entries := map[];
      var left := pending.Keys;
      while left != {}
        invariant left <= pending.Keys && entries == map[]
        invariant forall k :: k in pending ==>
          pending[k].content == if k in left then old(entries[k].content) else AfterSend(old(entries[k].content), msg)
        decreases left
      {
        var k :| k in left;
        pending[k].TrySend(msg);
        left := left - {k};
      }
    }
  }
}
