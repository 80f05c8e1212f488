/**
 * The handler the ring buffer's consumer runs on every change event: it
 * filters session documents and publishes a session-destroyed notification
 * for each one that passes.
 */
module DestroyedListener {
  import opened Wrappers
  import opened JavaLang
  import opened CouchbaseSessions
  import opened DcpEvents

  /** The notification; the session id is the document key, prefix included. */
  datatype SessionDestroyedEvent = SessionDestroyedEvent(sessionId: string)

  /**
   * The application's event bus. Whether it throws is decided by the bus,
   * not by the listener; `accepting` stands for that decision.
   */
  class ApplicationEventPublisher {
    var accepting: bool
    var published: seq<SessionDestroyedEvent>

    constructor (accepting: bool)
      ensures this.accepting == accepting && published == []
    {
      this.accepting := accepting;
      published := [];
    }

    method PublishEvent(event: SessionDestroyedEvent) returns (outcome: Outcome<JavaException>)
      modifies this
      ensures accepting == old(accepting)
      ensures accepting ==> outcome == Ok && published == old(published) + [event]
      ensures !accepting ==> outcome.Fail? && published == old(published)
    {
      if accepting {
        published := published + [event];
        outcome := Ok;
      } else {
        outcome := Fail(IllegalArgumentException("publisher failure"));
      }
    }
  }

  /** `m instanceof MutationMessage || m instanceof RemoveMessage`; false for null. */
  predicate IsMutationOrRemoval(m: Option<CouchbaseMessage>) {
    match m
    case Some(MutationMessage(_, _, _)) => true
    case Some(RemoveMessage(_, _)) => true
    case _ => false
  }

  class CouchbaseSessionDestroyedListener {
    const eventPublisher: ApplicationEventPublisher

    constructor (eventPublisher: ApplicationEventPublisher)
      ensures this.eventPublisher == eventPublisher
    {
      this.eventPublisher := eventPublisher;
    }

    /**
     * `pass(event)`. The key is read before the message type is checked, and
     * `key()` is null for every payload but a mutation, so any other payload
     * throws a NullPointerException. A mutation passes exactly when its key
     * carries the session prefix.
     */
    function Pass(event: DcpEvent): (r: Result<bool, JavaException>)
      reads event
      ensures r.Failure? <==> !(event.message.Some? && event.message.value.MutationMessage?)
      ensures r.Failure? ==> r.error == NullPointerException
      ensures r == Success(true) <==>
                event.message.Some? && event.message.value.MutationMessage?
                && StartsWith(event.message.value.key, SESSION_KEY_PREFIX)
    {
      match event.Key()
      case None => Failure(NullPointerException)
      case Some(key) =>
        if StartsWith(key, SESSION_KEY_PREFIX) then
          Success(IsMutationOrRemoval(event.Message()))
        else
          Success(false)
    }

    /**
     * The filter `pass` is evidently meant to be, given that it tests for
     * removals: a mutation or a removal of a document whose key carries the
     * session prefix, the key being read from either kind of message.
     */
    function PassIntended(event: DcpEvent): (r: bool)
      reads event
      ensures r ==> IsMutationOrRemoval(event.Message())
      ensures IsMutationOrRemoval(event.Message()) ==>
                (r <==> StartsWith(event.message.value.key, SESSION_KEY_PREFIX))
    {
      match event.message
      case Some(MutationMessage(_, key, _)) => StartsWith(key, SESSION_KEY_PREFIX)
      case Some(RemoveMessage(_, key)) => StartsWith(key, SESSION_KEY_PREFIX)
      case _ => false
    }

    /** Publishes the event, swallowing whatever the publisher throws. */
    method PublishEvent(event: SessionDestroyedEvent)
      modifies eventPublisher
      ensures eventPublisher.accepting == old(eventPublisher.accepting)
      ensures eventPublisher.published ==
                old(eventPublisher.published) + (if old(eventPublisher.accepting) then [event] else [])
    {
      var ignored := eventPublisher.PublishEvent(event);
    }

    /**
     * `onEvent`: one notification carrying the full key for an event that
     * passes, none for one that does not; the NullPointerException of `pass`
     * propagates to the caller.
     */
    method OnEvent(event: DcpEvent, sequence: Int64, endOfBatch: bool) returns (outcome: Outcome<JavaException>)
      modifies eventPublisher
      ensures eventPublisher.accepting == old(eventPublisher.accepting)
      ensures Pass(event).Failure? ==>
                outcome == Fail(NullPointerException) && eventPublisher.published == old(eventPublisher.published)
      ensures Pass(event) == Success(false) ==>
                outcome == Ok && eventPublisher.published == old(eventPublisher.published)
      ensures Pass(event) == Success(true) ==>
                && outcome == Ok
                && eventPublisher.published == old(eventPublisher.published) +
                     (if old(eventPublisher.accepting) then [SessionDestroyedEvent(event.message.value.key)] else [])
    {
      var passes := Pass(event);
      if passes.Failure? {
        return Fail(passes.error);
      }
      outcome := Ok;
      if passes.value {
        var sessionId := event.Key().value;
        PublishEvent(SessionDestroyedEvent(sessionId));
      }
    }
  }

  /** `new CouchbaseSessionDestroyedListener(publisher)`, including its rejection of null. */
  method NewListener(eventPublisher: ApplicationEventPublisher?) returns (r: Result<CouchbaseSessionDestroyedListener, JavaException>)
    ensures eventPublisher == null ==> r == Failure(IllegalArgumentException("eventPublisher cannot be null"))
    ensures eventPublisher != null ==> r.Success? && fresh(r.value) && r.value.eventPublisher == eventPublisher
  {
    if eventPublisher == null {
      return Failure(IllegalArgumentException("eventPublisher cannot be null"));
    }
    var listener := new CouchbaseSessionDestroyedListener(eventPublisher);
    r := Success(listener);
  }

  /** No removal ever passes: the removal branch of `pass` is dead. */
  lemma RemovalNeverPasses(listener: CouchbaseSessionDestroyedListener, event: DcpEvent)
    requires event.message.Some? && event.message.value.RemoveMessage?
    ensures listener.Pass(event) == Failure(NullPointerException)
    ensures event.Key() == None
  {
  }

  /** A removal of a session document passes the intended filter, and the filter as written throws on it. */
  lemma RemovalPassesOnlyIntended(listener: CouchbaseSessionDestroyedListener, event: DcpEvent, uuid: string)
    requires event.message == Some(RemoveMessage(0, DefaultId(uuid)))
    ensures listener.PassIntended(event)
    ensures listener.Pass(event) == Failure(NullPointerException)
  {
  }

  /** On mutations, the filter as written and the intended one agree. */
  lemma PassMatchesIntendedOnMutations(listener: CouchbaseSessionDestroyedListener, event: DcpEvent)
    requires event.message.Some? && event.message.value.MutationMessage?
    ensures listener.Pass(event) == Success(listener.PassIntended(event))
  {
  }

  /** The document of every session created with a default id passes the filter when written. */
  lemma DefaultSessionMutationPasses(listener: CouchbaseSessionDestroyedListener, event: DcpEvent, uuid: string)
    requires event.message.Some? && event.message.value.MutationMessage?
    requires event.message.value.key == DefaultId(uuid)
    ensures listener.Pass(event) == Success(true)
    ensures event.Key() == Some(DefaultId(uuid))
  {
  }

  /**
   * One slot reused for four messages: a session mutation, a mutation of an
   * unrelated key, an expiration of a session key, and a session removal.
   */
  method ListenerScenario()
  {
    var bus := new ApplicationEventPublisher(true);
    var listener := new CouchbaseSessionDestroyedListener(bus);
    var slot := new DcpEvent();
    var key := DefaultId("A");

    var same := slot.SetMessage(Some(MutationMessage(0, key, [])));
    assert same == slot && slot.Key() == Some(key);
    var outcome := listener.OnEvent(slot, 0, false);
    assert outcome == Ok && bus.published == [SessionDestroyedEvent(key)];

    same := slot.SetMessage(Some(MutationMessage(1, "other:key:X", [])));
    assert !StartsWith("other:key:X", SESSION_KEY_PREFIX) by {
      assert "other:key:X"[0] != SESSION_KEY_PREFIX[0];
    }
    outcome := listener.OnEvent(slot, 1, false);
    assert outcome == Ok && bus.published == [SessionDestroyedEvent(key)];

    same := slot.SetMessage(Some(OtherMessage("expiration")));
    outcome := listener.OnEvent(slot, 2, false);
    assert outcome == Fail(NullPointerException) && bus.published == [SessionDestroyedEvent(key)];

    same := slot.SetMessage(Some(RemoveMessage(0, key)));
    assert slot.Key() == None;
    outcome := listener.OnEvent(slot, 3, true);
    assert outcome == Fail(NullPointerException) && bus.published == [SessionDestroyedEvent(key)];
  }
}
