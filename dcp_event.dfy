/**
 * The change event: a pre-allocated slot of the dispatch ring buffer that
 * carries the current message of the change stream. The producer overwrites
 * the message in place each time it reuses the slot.
 */
module DcpEvents {
  import opened Wrappers

  /** The messages of the change stream. */
  datatype CouchbaseMessage =
    | MutationMessage(partition: nat, key: string, content: seq<bv8>)
    | RemoveMessage(partition: nat, key: string)
      /** Expirations, snapshot markers, stream ends and other control messages. */
    | OtherMessage(kind: string)

  class DcpEvent {
    /** The current payload; None until the slot is first filled (Java null). */
    var message: Option<CouchbaseMessage>

    constructor ()
      ensures message == None
    {
      message := None;
    }

    /** Overwrites the payload; returns this same slot for chaining. */
    method SetMessage(m: Option<CouchbaseMessage>) returns (r: DcpEvent)
      modifies this
      ensures r == this
      ensures message == m
    {
      message := m;
      r := this;
    }

    function Message(): Option<CouchbaseMessage>
      reads this
    {
      message
    }

    /**
     * The key of a mutation; absent for any other payload, removals and an
     * unset slot included. Reading it changes nothing, so repeated calls
     * agree until the next `SetMessage`.
     */
    function Key(): (k: Option<string>)
      reads this
      ensures k.Some? <==> message.Some? && message.value.MutationMessage?
      ensures k.Some? ==> k.value == message.value.key
    {
      match message
      case Some(MutationMessage(_, key, _)) => Some(key)
      case _ => None
    }
  }
}
