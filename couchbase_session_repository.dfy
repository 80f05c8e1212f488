/**
 * The session repository: sessions are saved as JSON documents in a
 * Couchbase bucket, keyed by session id, with the session's interval as the
 * document's expiry. The bucket is modelled as a map from document id to
 * stored document; expiry of documents by the server is not part of it.
 */
module SessionRepository {
  import opened Wrappers
  import opened JavaLang
  import opened Json
  import opened CouchbaseSessions

  /** A document as the bucket keeps it. */
  datatype StoredDocument = StoredDocument(expiry: Int32, content: Attributes)

  type Store = map<string, StoredDocument>

  /**
   * The store after `save` of a session with this id and these attributes,
   * or the exception reading the session's interval throws.
   */
  function Saved(store: Store, id: string, attrs: Attributes): (r: Result<Store, JavaException>)
    ensures r.Failure? <==> GetInt(attrs, MAX_INACTIVE_ATTR).Failure?
    ensures r.Success? ==> && r.value.Keys == store.Keys + {id}
                           && r.value[id] == StoredDocument(GetInt(attrs, MAX_INACTIVE_ATTR).value, attrs)
                           && forall k :: k in store && k != id ==> r.value[k] == store[k]
  {
    var interval :- GetInt(attrs, MAX_INACTIVE_ATTR);
    Success(store[id := StoredDocument(interval, attrs)])
  }

  /**
   * The attributes of the session `getSession(id)` returns, or null: a copy
   * of the stored content whose last access time is `nowMillis`.
   */
  function Loaded(store: Store, id: string, nowMillis: Int64): (r: Option<Attributes>)
    ensures r.None? <==> id !in store
    ensures r.Some? ==> && r.value.Keys == store[id].content.Keys + {LAST_ACCESSED_ATTR}
                        && GetLong(r.value, LAST_ACCESSED_ATTR) == Success(nowMillis)
                        && forall n :: n in store[id].content && n != LAST_ACCESSED_ATTR ==>
                             r.value[n] == store[id].content[n]
  {
    if id in store then Some(store[id].content[LAST_ACCESSED_ATTR := JLong(nowMillis)]) else None
  }

  /** The store after `delete(id)`, or the exception for a missing document. */
  function Deleted(store: Store, id: string): (r: Result<Store, JavaException>)
    ensures r.Failure? <==> id !in store
    ensures r.Failure? ==> r.error == DocumentDoesNotExistException
    ensures r.Success? ==> r.value.Keys == store.Keys - {id}
    ensures r.Success? ==> forall k :: k in r.value ==> r.value[k] == store[k]
  {
    if id in store then Success(store - {id}) else Failure(DocumentDoesNotExistException)
  }

  /** The interval `createSession` gives a new session. */
  function CreatedInterval(defaultMaxInactiveInterval: Option<Int32>, nowMillis: Int64): (r: Int32)
    ensures defaultMaxInactiveInterval.None? ==> r == DEFAULT_MAX_INACTIVE_INTERVAL_SECONDS
    ensures defaultMaxInactiveInterval.Some? && defaultMaxInactiveInterval.value <= THIRTY_DAYS_TIMESTAMP ==>
              r == defaultMaxInactiveInterval.value
    ensures defaultMaxInactiveInterval.Some? ==> r == ConvertTtlForCouchbase(defaultMaxInactiveInterval.value, nowMillis)
  {
    match defaultMaxInactiveInterval
    case None => DEFAULT_MAX_INACTIVE_INTERVAL_SECONDS
    case Some(d) => ConvertTtlForCouchbase(d, nowMillis)
  }

  /** The attributes of a session made by `createSession`. */
  function CreatedAttributes(defaultMaxInactiveInterval: Option<Int32>, nowMillis: Int64): (attrs: Attributes)
    ensures attrs.Keys == {CREATION_TIME_ATTR, LAST_ACCESSED_ATTR, MAX_INACTIVE_ATTR}
    ensures GetLong(attrs, CREATION_TIME_ATTR) == GetLong(attrs, LAST_ACCESSED_ATTR) == Success(nowMillis)
    ensures GetInt(attrs, MAX_INACTIVE_ATTR) == Success(CreatedInterval(defaultMaxInactiveInterval, nowMillis))
  {
    InitialAttributes(nowMillis)[MAX_INACTIVE_ATTR := JInteger(CreatedInterval(defaultMaxInactiveInterval, nowMillis))]
  }

  /**
   * A session read back after `save` has the saved attributes, names,
   * creation time and interval, as the bucket modelled here keeps them; only
   * its last access time is refreshed.
   */
  lemma GetAfterSaveRefreshesLastAccess(store: Store, id: string, attrs: Attributes, nowMillis: Int64)
    requires Saved(store, id, attrs).Success?
    ensures Loaded(Saved(store, id, attrs).value, id, nowMillis).Some?
    ensures var got := Loaded(Saved(store, id, attrs).value, id, nowMillis).value;
            && (LAST_ACCESSED_ATTR in attrs ==> got.Keys == attrs.Keys)
            && GetLong(got, CREATION_TIME_ATTR) == GetLong(attrs, CREATION_TIME_ATTR)
            && GetInt(got, MAX_INACTIVE_ATTR) == GetInt(attrs, MAX_INACTIVE_ATTR)
            && GetLong(got, LAST_ACCESSED_ATTR) == Success(nowMillis)
            && forall n :: n != LAST_ACCESSED_ATTR ==> AttributeValue(got, n) == AttributeValue(attrs, n)
  {
    var saved := Saved(store, id, attrs).value;
    var got := Loaded(saved, id, nowMillis).value;
    assert got == attrs[LAST_ACCESSED_ATTR := JLong(nowMillis)];
  }

  /** After deleting a present session, reading it gives null. */
  lemma DeleteThenGetIsNull(store: Store, id: string, nowMillis: Int64)
    requires id in store
    ensures Deleted(store, id).Success?
    ensures Loaded(Deleted(store, id).value, id, nowMillis) == None
  {
  }

  /**
   * Save, remove an attribute, save again, reload: the attribute is gone.
   * (Removing the interval entry would make the second save throw, and the
   * last access entry is put back by the reload.)
   */
  lemma SaveRemoveSaveReload(store: Store, id: string, attrs: Attributes, name: string, nowMillis: Int64)
    requires name != MAX_INACTIVE_ATTR && name != LAST_ACCESSED_ATTR
    requires Saved(store, id, attrs).Success?
    ensures Saved(Saved(store, id, attrs).value, id, attrs - {name}).Success?
    ensures var reloaded := Loaded(Saved(Saved(store, id, attrs).value, id, attrs - {name}).value, id, nowMillis);
            reloaded.Some? && name !in reloaded.value && AttributeValue(reloaded.value, name) == None
  {
    assert GetInt(attrs - {name}, MAX_INACTIVE_ATTR) == GetInt(attrs, MAX_INACTIVE_ATTR);
  }

  /** The bucket the repository talks to, reduced to its documents. */
  class AsyncBucket {
    var documents: Store

    constructor ()
      ensures documents == map[]
    {
      documents := map[];
    }

    /** `upsert(doc)`: inserts or overwrites. */
    method Upsert(doc: JsonDocument)
      modifies this
      ensures documents == old(documents)[doc.id := StoredDocument(doc.expiry, doc.content)]
    {
      documents := documents[doc.id := StoredDocument(doc.expiry, doc.content)];
    }

    /** `get(id)`: the document, or nothing. */
    method Get(id: string) returns (r: Option<JsonDocument>)
      ensures id in documents ==> r == Some(JsonDocument(id, documents[id].expiry, documents[id].content))
      ensures id !in documents ==> r == None
    {
      if id in documents {
        r := Some(JsonDocument(id, documents[id].expiry, documents[id].content));
      } else {
        r := None;
      }
    }

    /** `remove(id)`: fails with DocumentDoesNotExistException on a missing document. */
    method Remove(id: string) returns (outcome: Outcome<JavaException>)
      modifies this
      ensures Deleted(old(documents), id).Success? ==> outcome == Ok && documents == Deleted(old(documents), id).value
      ensures Deleted(old(documents), id).Failure? ==>
                outcome == Fail(Deleted(old(documents), id).error) && documents == old(documents)
    {
      if id in documents {
        documents := documents - {id};
        outcome := Ok;
      } else {
        outcome := Fail(DocumentDoesNotExistException);
      }
    }
  }

  class CouchbaseSessionRepository {
    /** When set, overrides the interval of every session `createSession` makes. */
    var defaultMaxInactiveInterval: Option<Int32>
    const asyncBucket: AsyncBucket

    constructor (bucket: AsyncBucket)
      ensures asyncBucket == bucket && defaultMaxInactiveInterval == None
    {
      asyncBucket := bucket;
      defaultMaxInactiveInterval := None;
    }

    method SetDefaultMaxInactiveInterval(interval: Int32)
      modifies this
      ensures defaultMaxInactiveInterval == Some(interval)
    {
      defaultMaxInactiveInterval := Some(interval);
    }

    /** Upserts the session's attributes under its id, with its interval as expiry. */
    method Save(session: CouchbaseSession) returns (outcome: Outcome<JavaException>)
      modifies asyncBucket
      ensures Saved(old(asyncBucket.documents), session.id, session.attrs).Success? ==>
                outcome == Ok && asyncBucket.documents == Saved(old(asyncBucket.documents), session.id, session.attrs).value
      ensures Saved(old(asyncBucket.documents), session.id, session.attrs).Failure? ==>
                outcome == Fail(Saved(old(asyncBucket.documents), session.id, session.attrs).error)
                && asyncBucket.documents == old(asyncBucket.documents)
    {
      var interval := session.GetMaxInactiveIntervalInSeconds();
      if interval.Failure? {
        return Fail(interval.error);
      }
      asyncBucket.Upsert(JsonDocument(session.GetId(), interval.value, session.GetSessionAttrs()));
      outcome := Ok;
    }

    /**
     * Null for a missing id; otherwise a new session built from the stored
     * document, with its last access time set to `nowMillis`. The stored
     * document is not touched.
     */
    method GetSession(id: string, nowMillis: Int64) returns (r: Option<CouchbaseSession>)
      ensures r.None? <==> Loaded(asyncBucket.documents, id, nowMillis).None?
      ensures r.Some? ==> && fresh(r.value)
                          && r.value.id == id
                          && r.value.attrs == Loaded(asyncBucket.documents, id, nowMillis).value
    {
      var jd := asyncBucket.Get(id);
      if jd.None? {
        return None;
      }
      var made := NewFromDocument(jd);
      var session := made.value;
      session.SetLastAccessedTime(nowMillis);
      r := Some(session);
    }

    method Delete(id: string) returns (outcome: Outcome<JavaException>)
      modifies asyncBucket
      ensures Deleted(old(asyncBucket.documents), id).Success? ==>
                outcome == Ok && asyncBucket.documents == Deleted(old(asyncBucket.documents), id).value
      ensures Deleted(old(asyncBucket.documents), id).Failure? ==>
                outcome == Fail(DocumentDoesNotExistException) && asyncBucket.documents == old(asyncBucket.documents)
    {
      outcome := asyncBucket.Remove(id);
    }

    /** A new session, with the configured interval applied through the TTL conversion. */
    method CreateSession(nowMillis: Int64, uuid: string) returns (result: CouchbaseSession)
      ensures fresh(result)
      ensures result.id == DefaultId(uuid)
      ensures result.attrs == CreatedAttributes(defaultMaxInactiveInterval, nowMillis)
    {
      result := new CouchbaseSession(nowMillis, uuid);
      if defaultMaxInactiveInterval.Some? {
        result.SetMaxInactiveIntervalInSeconds(defaultMaxInactiveInterval.value, nowMillis);
      }
    }
  }

  /** `new CouchbaseSessionRepository(bucket)`, including its rejection of null. */
  method NewRepository(bucket: AsyncBucket?) returns (r: Result<CouchbaseSessionRepository, JavaException>)
    ensures bucket == null ==> r == Failure(IllegalArgumentException("connectionFactory cannot be null"))
    ensures bucket != null ==> && r.Success? && fresh(r.value)
                               && r.value.asyncBucket == bucket && r.value.defaultMaxInactiveInterval == None
  {
    if bucket == null {
      return Failure(IllegalArgumentException("connectionFactory cannot be null"));
    }
    var repository := new CouchbaseSessionRepository(bucket);
    r := Success(repository);
  }

  /**
   * The repository tests, restated as verified assertions: save then read
   * back, remove an attribute and save again, delete, delete a missing id.
   */
  method RepositoryScenario(nowMillis: Int64, later: Int64, uuid: string)
    requires 0 <= nowMillis
  {
    var bucket := new AsyncBucket();
    var repository := new CouchbaseSessionRepository(bucket);
    var session := repository.CreateSession(nowMillis, uuid);
    assert session.GetMaxInactiveIntervalInSeconds() == Success(DEFAULT_MAX_INACTIVE_INTERVAL_SECONDS);
    var stored := session.SetAttribute("attrName", Some(Native(JString("attrValue"))));
    assert stored == Ok;
    var saved := repository.Save(session);
    assert saved == Ok;
    var got := repository.GetSession(session.id, later);
    assert got.Some? && got.value.GetAttribute("attrName") == Some(JString("attrValue"));
    var reloaded := got.value;
    reloaded.RemoveAttribute("attrName");
    saved := repository.Save(reloaded);
    assert saved == Ok;
    got := repository.GetSession(reloaded.id, later);
    assert got.Some? && got.value.GetAttribute("attrName") == None;
    var deleted := repository.Delete(got.value.id);
    assert deleted == Ok;
    got := repository.GetSession(DefaultId(uuid), later);
    assert got == None;
    deleted := repository.Delete(DefaultId(uuid));
    assert deleted == Fail(DocumentDoesNotExistException);
  }
}
