# spring-session-couchbase, modelled in Dafny

This project models the sequential core of spring-session-couchbase:

- **the session** (`CouchbaseSession`): an id and one JSON attribute map that holds the user's attributes and the three bookkeeping entries `creationTime`, `lastAccessedTime` and `maxInactiveInterval`. It covers the setters, `isExpired(now)` and the TTL conversion for Couchbase.
- **the repository** (`CouchbaseSessionRepository`): it creates sessions, and saves, loads and deletes them in a bucket. The bucket is modelled as a map from document id to (expiry, content).
- **the change event slot** (`DCPEvent`) and **the destroyed-session filter** (`CouchbaseSessionDestroyedListener`): they turn change-stream messages into session-destroyed notifications.

Java's `int` and `long` are subset types of `int`, and their wrap-around is written out: `JavaLang.ToInt32` for the `(int)` cast and `JavaLang.ToInt64` for `long` subtraction. Exceptions are values (`Result`, `Outcome`). Each exception the model covers is a failure value: the rejections of null arguments, a getter reading a bookkeeping entry that `setAttribute`/`removeAttribute` removed or overwrote, a non-Serializable attribute, a copied attribute the JSON object refuses, a missing document on delete, and the exception of `pass`. The exceptions listed under "## Left out" are not modelled. A Java null is `None`. The wall clock (`nowMillis`) and the random UUID are parameters.

Files: `wrappers.dfy` (Option/Result/Outcome), `java_lang.dfy` (integer widths, truncating division, `startsWith`, exceptions), `json.dfy` (JSON values, attribute inputs, documents), `couchbase_session.dfy`, `couchbase_session_repository.dfy`, `dcp_event.dfy`, `session_destroyed_listener.dfy`.

The class getters (`GetId`, `GetCreationTime`, `GetLastAccessedTime`, `GetMaxInactiveIntervalInSeconds`, `IsExpiredAt`, `GetAttribute`, `GetAttributeNames`, `GetSessionAttrs`) and `DcpEvent.Message` read a field and delegate to the functions in the table, so they have no rows of their own. The constructor `CouchbaseSession.FromParts` only allocates a session from an id and a map; the three copy constructors of the source are the factory methods `NewFromExpiringSession`, `NewFromDocument` and `NewFromSession`, which can fail as the Java constructors throw. `GetAttributeNames` returns every key of the map, the bookkeeping names included.

Two client methods have no row in the table because they carry no `ensures`. `SessionRepository.RepositoryScenario` restates the repository tests as verified assertions: default interval, save then read back, remove-save-reload, delete, delete of a missing id. `DestroyedListener.ListenerScenario` does the same for a mutation, a foreign key, an expiration and a removal through one reused slot.

## A removal never passes the filter

`pass` tests for `RemoveMessage` as well as `MutationMessage`, so it is evidently meant to admit removals of session documents (`DestroyedListener.CouchbaseSessionDestroyedListener.PassIntended` states that filter). It cannot. It first calls `startsWith` on `key()`, and `key()` is null for every payload except a mutation. So a removal, an expiration or a control message throws a NullPointerException out of `pass` and `onEvent`. The `RemoveMessage` test never decides anything. The model follows the code: `DestroyedListener.CouchbaseSessionDestroyedListener.Pass` returns `Failure(NullPointerException)` for every payload that is not a mutation. `DestroyedListener.RemovalNeverPasses` states that no removal passes. `DestroyedListener.RemovalPassesOnlyIntended` shows a removal of a session document that the intended filter admits and the written one throws on, and `DestroyedListener.PassMatchesIntendedOnMutations` shows that the two agree on every mutation.

## Model

| member | source | states |
|---|---|---|
| JavaLang.ToInt32 | spring-session-couchbase/src/main/java/org/springframework/session/data/couchbase/CouchbaseSession.java:277 | the `(int)` cast gives the int congruent to its argument modulo 2^32, and the argument itself when it fits |
| JavaLang.ToInt64 | spring-session-couchbase/src/main/java/org/springframework/session/data/couchbase/CouchbaseSession.java:126 | long subtraction wraps: the long congruent to the exact result modulo 2^64, and the exact result when it fits |
| JavaLang.MillisToSeconds | spring-session-couchbase/src/main/java/org/springframework/session/data/couchbase/CouchbaseSession.java:277 | `now / 1000L` truncates toward zero: bounds relating the quotient times 1000 to the dividend, for either sign |
| CouchbaseSessions.DefaultId | spring-session-couchbase/src/main/java/org/springframework/session/data/couchbase/CouchbaseSession.java:55-57 | a default session id starts with `spring:session:sessions:` and continues with the UUID |
| CouchbaseSessions.GetLong | spring-session-couchbase/src/main/java/org/springframework/session/data/couchbase/CouchbaseSession.java:97-107 | reading a long entry succeeds iff it holds a Long or an Integer, and gives its value; a missing or null entry throws NullPointerException, any other value ClassCastException |
| CouchbaseSessions.GetInt | spring-session-couchbase/src/main/java/org/springframework/session/data/couchbase/CouchbaseSession.java:114-116 | reading an int entry succeeds iff it holds an Integer or a Long; an Integer is its value, a Long is narrowed modulo 2^32; a missing or null entry throws NullPointerException, any other value ClassCastException |
| CouchbaseSessions.AttributeValue | spring-session-couchbase/src/main/java/org/springframework/session/data/couchbase/CouchbaseSession.java:129-144 | `getAttribute` yields the stored value exactly when the name is present with a non-null value, and null otherwise |
| CouchbaseSessions.InitialAttributes | spring-session-couchbase/src/main/java/org/springframework/session/data/couchbase/CouchbaseSession.java:53-70 | a new session holds exactly the three bookkeeping names; creation time equals last access time equals now, and the interval is 1800 |
| CouchbaseSessions.IsExpired | spring-session-couchbase/src/main/java/org/springframework/session/data/couchbase/CouchbaseSession.java:122-127 | a negative interval is never expired, whatever the time; a failing interval read propagates; with a non-negative interval a failing last-access read propagates too; being expired implies a readable last access time |
| CouchbaseSessions.ExpiredIffIdleTooLong | spring-session-couchbase/src/main/java/org/springframework/session/data/couchbase/CouchbaseSession.java:126 | for a non-negative clock and interval: expired iff `now - interval*1000 >= lastAccessed` |
| CouchbaseSessions.ExpiryIsMonotone | spring-session-couchbase/src/main/java/org/springframework/session/data/couchbase/CouchbaseSession.java:122-127 | expired at `now1` implies expired at every later `now2` (clock at or after the epoch) |
| CouchbaseSessions.ConvertTtlForCouchbase | spring-session-couchbase/src/main/java/org/springframework/session/data/couchbase/CouchbaseSession.java:274-281 | a TTL of at most 2592000 s is returned unchanged; a longer one is congruent modulo 2^32 to `now/1000 + ttl` |
| CouchbaseSessions.ConvertTtlGivesEndTime | spring-session-couchbase/src/main/java/org/springframework/session/data/couchbase/CouchbaseSession.java:274-281 | when `now/1000 + ttl` fits in an int, the result is that absolute end time, above thirty days and not before now |
| CouchbaseSessions.ConvertTtlOverflow | spring-session-couchbase/src/main/java/org/springframework/session/data/couchbase/CouchbaseSession.java:277 | the int cast overflows: TTL 400000000 s at 1.8e12 ms gives -2094967296, and a session storing it never expires |
| CouchbaseSessions.CheckType | spring-session-couchbase/src/main/java/org/springframework/session/data/couchbase/CouchbaseSession.java:146-155 | accepted iff null or a JSON-native value (String, Integer, Long, Double, Boolean, JsonObject, JsonArray) |
| CouchbaseSessions.ObjectToString | spring-session-couchbase/src/main/java/org/springframework/session/data/couchbase/CouchbaseSession.java:157-169 | a serialisation that throws yields null; otherwise the Base64 text, as a JSON string |
| CouchbaseSessions.SetNullRemoves | spring-session-couchbase/src/main/java/org/springframework/session/data/couchbase/CouchbaseSession.java:188-203 | `setAttribute(n, null)` acts as `removeAttribute(n)`: n is gone and every other attribute is unchanged |
| CouchbaseSessions.SetNativeStores | spring-session-couchbase/src/main/java/org/springframework/session/data/couchbase/CouchbaseSession.java:188-199 | `setAttribute(n, v)` with JSON-native v stores v verbatim, adds n to the names and keeps every other attribute |
| CouchbaseSessions.AttributeSet | spring-session-couchbase/src/main/java/org/springframework/session/data/couchbase/CouchbaseSession.java:188-203 | `setAttribute`: a non-Serializable object throws ClassCastException; otherwise null removes the name, a JSON-native value is stored verbatim, another object is stored as its serialised text, and every other attribute is kept |
| CouchbaseSessions.PutValue | spring-session-couchbase/src/main/java/org/springframework/session/data/couchbase/CouchbaseSession.java:85 | `JsonObject.put` of an object stores null and the JSON-native classes as they are, and throws IllegalArgumentException for anything else |
| CouchbaseSessions.PutAll | spring-session-couchbase/src/main/java/org/springframework/session/data/couchbase/CouchbaseSession.java:82-86 | putting every attribute of another session into a fresh object succeeds iff every value is null or JSON-native, and then keeps the names and stores each value as `put` does; otherwise IllegalArgumentException |
| CouchbaseSessions.AsObjects | spring-session-couchbase/src/main/java/org/springframework/session/data/couchbase/CouchbaseSession.java:247-248 | reading a JSON object's entries out by name gives, for each name, null where `getAttribute` gives null and the stored JSON-native value otherwise; putting each one back stores the original value |
| CouchbaseSessions.PutAllOfJsonIsIdentity | spring-session-couchbase/src/main/java/org/springframework/session/data/couchbase/CouchbaseSession.java:246-250 | copying the entries of a JSON document never throws and reproduces its content exactly |
| CouchbaseSessions.CopyAttributes | spring-session-couchbase/src/main/java/org/springframework/session/data/couchbase/CouchbaseSession.java:83-86 | the copy loop, putting the entries one by one into an empty object and stopping at the first refused value, yields exactly PutAll |
| CouchbaseSessions.CopiedAttributes | spring-session-couchbase/src/main/java/org/springframework/session/data/couchbase/CouchbaseSession.java:77-91 | a copy fails iff an attribute is refused; otherwise it has the source's names plus the three bookkeeping names, the timing entries come from the source's getters, and other attributes are stored as `put` stores them |
| CouchbaseSessions.CopyOfOwnViewIsIdentical | spring-session-couchbase/src/main/java/org/springframework/session/data/couchbase/CouchbaseSession.java:77-91 | in the model, where `getAttribute` returns stored values verbatim, copying a session through its own getters succeeds and reproduces its map when the timing entries are a Long, a Long and an Integer; in the source a session holding a serialised object or a Base64-decodable String cannot be copied this way |
| CouchbaseSessions.CopyRefusesNonJson | spring-session-couchbase/src/main/java/org/springframework/session/data/couchbase/CouchbaseSession.java:258-268 | a session holding an attribute that is neither null nor JSON-native cannot be copied: IllegalArgumentException |
| CouchbaseSessions.CouchbaseSession.constructor | spring-session-couchbase/src/main/java/org/springframework/session/data/couchbase/CouchbaseSession.java:57-70 | the id is the prefix plus the UUID; the map is the initial bookkeeping map |
| CouchbaseSessions.NewFromExpiringSession | spring-session-couchbase/src/main/java/org/springframework/session/data/couchbase/CouchbaseSession.java:77-91 | null is rejected with IllegalArgumentException; a refused attribute propagates its IllegalArgumentException; otherwise a fresh session with the source's id and the CopiedAttributes map |
| CouchbaseSessions.NewFromDocument | spring-session-couchbase/src/main/java/org/springframework/session/data/couchbase/CouchbaseSession.java:241-251 | null is rejected with IllegalArgumentException; otherwise a fresh session with the document's id and exactly its content |
| CouchbaseSessions.NewFromSession | spring-session-couchbase/src/main/java/org/springframework/session/data/couchbase/CouchbaseSession.java:258-268 | null is rejected with IllegalArgumentException; a refused attribute propagates its IllegalArgumentException; otherwise a fresh session with the source's id and the PutAll map, with no timing entries added |
| CouchbaseSessions.CouchbaseSession.Equals | spring-session-couchbase/src/main/java/org/springframework/session/data/couchbase/CouchbaseSession.java:222-224 | equal iff the other session is non-null and has the same id, whatever the attributes |
| CouchbaseSessions.CouchbaseSession.SetLastAccessedTime | spring-session-couchbase/src/main/java/org/springframework/session/data/couchbase/CouchbaseSession.java:93-95 | only the lastAccessedTime entry changes; the getter then reads the new value |
| CouchbaseSessions.CouchbaseSession.SetCreationTime | spring-session-couchbase/src/main/java/org/springframework/session/data/couchbase/CouchbaseSession.java:209-211 | only the creationTime entry changes; the getter then reads the new value |
| CouchbaseSessions.CouchbaseSession.SetMaxInactiveIntervalInSeconds | spring-session-couchbase/src/main/java/org/springframework/session/data/couchbase/CouchbaseSession.java:109-112 | stores the TTL-converted interval, and nothing else changes |
| CouchbaseSessions.CouchbaseSession.SetId | spring-session-couchbase/src/main/java/org/springframework/session/data/couchbase/CouchbaseSession.java:218-220 | only the id changes |
| CouchbaseSessions.CouchbaseSession.RemoveAttribute | spring-session-couchbase/src/main/java/org/springframework/session/data/couchbase/CouchbaseSession.java:201-203 | exactly the one key is removed |
| CouchbaseSessions.CouchbaseSession.SetAttribute | spring-session-couchbase/src/main/java/org/springframework/session/data/couchbase/CouchbaseSession.java:188-199 | new map is AttributeSet of the old one: remove on null, verbatim for JSON-native, serialised form otherwise; a non-Serializable object throws ClassCastException and changes nothing |
| SessionRepository.Saved | spring-session-couchbase/src/main/java/org/springframework/session/data/couchbase/CouchbaseSessionRepository.java:70-74 | save stores under the id an entry whose expiry is the interval and whose content is the map, overwriting; other ids keep their entries; an unreadable interval throws |
| SessionRepository.Loaded | spring-session-couchbase/src/main/java/org/springframework/session/data/couchbase/CouchbaseSessionRepository.java:76-88 | absent id gives null; otherwise the stored content with lastAccessedTime set to now, every other entry as stored |
| SessionRepository.Deleted | spring-session-couchbase/src/main/java/org/springframework/session/data/couchbase/CouchbaseSessionRepository.java:90-92 | a present id is removed and nothing else changes; an absent id fails with DocumentDoesNotExistException |
| SessionRepository.CreatedInterval | spring-session-couchbase/src/main/java/org/springframework/session/data/couchbase/CouchbaseSessionRepository.java:94-100 | no default configured gives 1800; a configured default is applied through the TTL conversion, so one of at most thirty days is applied as is |
| SessionRepository.CreatedAttributes | spring-session-couchbase/src/main/java/org/springframework/session/data/couchbase/CouchbaseSessionRepository.java:94-100 | a created session holds the three bookkeeping names, creation equals last access equals now, and its interval is CreatedInterval |
| SessionRepository.GetAfterSaveRefreshesLastAccess | spring-session-couchbase/src/main/java/org/springframework/session/data/couchbase/CouchbaseSessionRepository.java:70-88 | read after save keeps the names, creation time, interval and every attribute as the model's bucket keeps it; only the last access time becomes now |
| SessionRepository.DeleteThenGetIsNull | spring-session-couchbase/src/main/java/org/springframework/session/data/couchbase/CouchbaseSessionRepository.java:76-92 | after deleting a present id, getSession returns null |
| SessionRepository.SaveRemoveSaveReload | spring-session-couchbase/src/main/java/org/springframework/session/data/couchbase/CouchbaseSessionRepository.java:70-92 | save, remove an attribute, save, reload: the attribute is absent from the reloaded session |
| SessionRepository.AsyncBucket.Upsert | spring-session-couchbase/src/main/java/org/springframework/session/data/couchbase/CouchbaseSessionRepository.java:73 | the bucket's upsert inserts or overwrites the document under its id |
| SessionRepository.AsyncBucket.Get | spring-session-couchbase/src/main/java/org/springframework/session/data/couchbase/CouchbaseSessionRepository.java:77 | the bucket's get returns the stored document or nothing |
| SessionRepository.AsyncBucket.Remove | spring-session-couchbase/src/main/java/org/springframework/session/data/couchbase/CouchbaseSessionRepository.java:91 | the bucket's remove deletes the document, or fails on a missing id leaving the bucket unchanged |
| SessionRepository.CouchbaseSessionRepository.constructor | spring-session-couchbase/src/main/java/org/springframework/session/data/couchbase/CouchbaseSessionRepository.java:57-60 | the repository uses the given bucket and has no default interval |
| SessionRepository.NewRepository | spring-session-couchbase/src/main/java/org/springframework/session/data/couchbase/CouchbaseSessionRepository.java:57-60 | a null bucket is rejected with IllegalArgumentException |
| SessionRepository.CouchbaseSessionRepository.SetDefaultMaxInactiveInterval | spring-session-couchbase/src/main/java/org/springframework/session/data/couchbase/CouchbaseSessionRepository.java:66-68 | the default interval becomes the given value |
| SessionRepository.CouchbaseSessionRepository.Save | spring-session-couchbase/src/main/java/org/springframework/session/data/couchbase/CouchbaseSessionRepository.java:70-74 | the bucket becomes Saved of the old bucket, or is unchanged when the interval read throws |
| SessionRepository.CouchbaseSessionRepository.GetSession | spring-session-couchbase/src/main/java/org/springframework/session/data/couchbase/CouchbaseSessionRepository.java:76-88 | null iff the id is absent; otherwise a fresh session with that id and the Loaded attributes; the bucket is not modified |
| SessionRepository.CouchbaseSessionRepository.Delete | spring-session-couchbase/src/main/java/org/springframework/session/data/couchbase/CouchbaseSessionRepository.java:90-92 | the bucket becomes Deleted of the old bucket; a missing id fails with DocumentDoesNotExistException and changes nothing |
| SessionRepository.CouchbaseSessionRepository.CreateSession | spring-session-couchbase/src/main/java/org/springframework/session/data/couchbase/CouchbaseSessionRepository.java:94-100 | a fresh session with a default id (prefix plus UUID) and the CreatedAttributes map |
| DcpEvents.DcpEvent.constructor | spring-session-couchbase-listener/src/main/java/org/springframework/session/data/couchbase/DCPEvent.java:28-32 | a pre-allocated slot starts with no message |
| DcpEvents.DcpEvent.SetMessage | spring-session-couchbase-listener/src/main/java/org/springframework/session/data/couchbase/DCPEvent.java:40-43 | returns the same slot; the payload becomes the new message and the previous one is not kept |
| DcpEvents.DcpEvent.Key | spring-session-couchbase-listener/src/main/java/org/springframework/session/data/couchbase/DCPEvent.java:59-66 | present iff the payload is a mutation, and then the mutation's key; absent for removals, other messages and an unset slot; a side-effect-free read of the slot |
| DestroyedListener.ApplicationEventPublisher.PublishEvent | spring-session-couchbase-listener/src/main/java/org/springframework/session/data/couchbase/CouchbaseSessionDestroyedListener.java:69 | the external bus either appends the event or throws and keeps its list |
| DestroyedListener.CouchbaseSessionDestroyedListener.constructor | spring-session-couchbase-listener/src/main/java/org/springframework/session/data/couchbase/CouchbaseSessionDestroyedListener.java:40-43 | the listener keeps the given publisher |
| DestroyedListener.NewListener | spring-session-couchbase-listener/src/main/java/org/springframework/session/data/couchbase/CouchbaseSessionDestroyedListener.java:40-43 | a null publisher is rejected with IllegalArgumentException |
| DestroyedListener.CouchbaseSessionDestroyedListener.Pass | spring-session-couchbase-listener/src/main/java/org/springframework/session/data/couchbase/CouchbaseSessionDestroyedListener.java:59-65 | throws NullPointerException iff the payload is not a mutation; true iff it is a mutation whose key starts with the session prefix |
| DestroyedListener.CouchbaseSessionDestroyedListener.PublishEvent | spring-session-couchbase-listener/src/main/java/org/springframework/session/data/couchbase/CouchbaseSessionDestroyedListener.java:67-74 | a publisher failure is swallowed; the event is delivered iff the bus accepts |
| DestroyedListener.CouchbaseSessionDestroyedListener.OnEvent | spring-session-couchbase-listener/src/main/java/org/springframework/session/data/couchbase/CouchbaseSessionDestroyedListener.java:49-57 | exactly one notification carrying the full key, prefix kept, when pass holds; none otherwise; the exception of pass propagates and publisher failures do not |
| DestroyedListener.CouchbaseSessionDestroyedListener.PassIntended | spring-session-couchbase-listener/src/main/java/org/springframework/session/data/couchbase/CouchbaseSessionDestroyedListener.java:59-65 | the filter the removal test implies: admits only mutations and removals, and among those exactly the ones whose key starts with the session prefix |
| DestroyedListener.RemovalPassesOnlyIntended | spring-session-couchbase-listener/src/main/java/org/springframework/session/data/couchbase/CouchbaseSessionDestroyedListener.java:59-65 | a removal of a default session id passes the intended filter while the written `pass` throws NullPointerException on it |
| DestroyedListener.PassMatchesIntendedOnMutations | spring-session-couchbase-listener/src/main/java/org/springframework/session/data/couchbase/CouchbaseSessionDestroyedListener.java:59-65 | on every mutation the written `pass` returns what the intended filter does |
| DestroyedListener.RemovalNeverPasses | spring-session-couchbase-listener/src/main/java/org/springframework/session/data/couchbase/CouchbaseSessionDestroyedListener.java:59-65 | every removal makes pass throw, so the removal branch never yields true |
| DestroyedListener.DefaultSessionMutationPasses | spring-session-couchbase-listener/src/main/java/org/springframework/session/data/couchbase/CouchbaseSessionDestroyedListener.java:59-65 | a mutation of a document whose key is a default session id passes the filter |

## Left out

- The stream reader (`CouchbaseReader`): cluster connection, partition discovery, the merge of per-partition streams and the non-blocking publish. This is network I/O and asynchronous plumbing over a transport that is not part of this model.
- The ring buffer, its thread pool and exception handler, and the Spring configuration and annotation classes. They are an external library, concurrency, and composition roots. The slot is modelled as a single-threaded object.
- Java serialisation and Base64 (`objectToString`/`stringToObject`): a serialisable object is modelled by the text its serialisation produces, or by None when serialisation throws.
- CouchbaseSessions.AttributeValue: leaves out the attempt of `getAttribute` to deserialise String values, and with it the RuntimeException thrown when a String decodes as Base64 but does not deserialise. Stored values are returned verbatim.
- CouchbaseSessions.PutValue: the message of the JSON client's IllegalArgumentException is kept without the class name it appends.
- Aliasing of JSON containers: a JsonObject or JsonArray attribute is stored by reference, and `getSessionAttrs` returns the session's live object. The model has value semantics, so a later change made through such a reference is not reflected in the session.
- `save(null)` and other null sessions passed to the repository: the NullPointerException is not modelled, since the repository methods take a session object.
- CouchbaseSessions.CopyOfOwnViewIsIdentical: holds only because the model's `getAttribute` returns stored values verbatim. In the source, copying a session through its getters deserialises String values: a serialised object stored by `setAttribute` comes back as the object, which `put` refuses with IllegalArgumentException, and a String that decodes as Base64 but is not a serialisation stream makes `getAttribute` throw RuntimeException.
- CouchbaseSessions.GetLong: a Double entry reads as a ClassCastException. The JSON client's conversion of other Number types is not modelled; Integer and Long are.
- CouchbaseSessions.GetInt: likewise, a Double entry reads as a ClassCastException where the JSON client would convert it; Integer and Long are modelled.
- CouchbaseSessions.CouchbaseSession.Equals: only compares with another CouchbaseSession or null. In the source any `Session` implementation with the same id is equal too, and any non-Session object is not; neither case is modelled, and neither is `hashCode`.
- SessionRepository.CouchbaseSessionRepository.CreateSession: reads the clock once (`nowMillis`), where the source reads it separately for the creation time and for the TTL conversion.
- `isExpired()` without an argument is `IsExpired` at the current clock reading, which is a parameter here.
- The bucket's JSON encoding: the source writes each document to the bucket as JSON text and decodes it on `get`, and JSON text does not record whether a number was an Integer or a Long. The model's bucket keeps the attribute map as it was given, so a number keeps its class on reload; in the source, for example, a Long attribute that fits in an int may come back as an Integer. The timing getters are unaffected, since `GetLong` and `GetInt` accept both classes.
- Expiry of documents by the Couchbase server: the bucket model never drops documents on its own.
- Logging, including the error logged when the publisher throws.
- Null ids and null attribute names: Dafny strings cannot be null.
- The unused `sequence` and `endOfBatch` arguments of `onEvent` are kept in the signature but play no part.
