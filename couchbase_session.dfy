/**
 * A web session backed by a single JSON object. The object holds the user's
 * attributes and, under three reserved names, the session's creation time,
 * last access time and maximum inactive interval. Because they share one
 * map, the reserved entries are visible to `setAttribute`, `removeAttribute`
 * and `getAttributeNames` like any other attribute.
 *
 * The wall clock and the random UUID are parameters.
 */
module CouchbaseSessions {
  import opened Wrappers
  import opened JavaLang
  import opened Json

  /** Above this many seconds, Couchbase reads an expiry as a Unix time. */
  const THIRTY_DAYS_TIMESTAMP: Int32 := 2592000

  /** Thirty minutes. */
  const DEFAULT_MAX_INACTIVE_INTERVAL_SECONDS: Int32 := 1800

  const SESSION_KEY_PREFIX: string := "spring:session:sessions:"

  // The reserved attribute names. CouchbaseSessionRepository declares them.
  const CREATION_TIME_ATTR: string := "creationTime"
  const MAX_INACTIVE_ATTR: string := "maxInactiveInterval"
  const LAST_ACCESSED_ATTR: string := "lastAccessedTime"

  type Attributes = map<string, JsonValue>

  /** The identifier a new session receives. */
  function DefaultId(uuid: string): (id: string)
    ensures StartsWith(id, SESSION_KEY_PREFIX)
    ensures |id| == |SESSION_KEY_PREFIX| + |uuid| && id[|SESSION_KEY_PREFIX|..] == uuid
  {
    StartsWithConcat(SESSION_KEY_PREFIX, uuid);
    SESSION_KEY_PREFIX + uuid
  }

  /**
   * `JsonObject.getLong(name)` unboxed to `long`: an Integer is widened, a
   * missing or null entry throws on unboxing, any other value fails its cast.
   */
  function GetLong(attrs: Attributes, name: string): (r: Result<Int64, JavaException>)
    ensures r.Success? <==> name in attrs && (attrs[name].JLong? || attrs[name].JInteger?)
    ensures r.Success? && attrs[name].JLong? ==> r.value == attrs[name].l
    ensures r.Success? && attrs[name].JInteger? ==> r.value == attrs[name].i
    ensures r.Failure? && (name !in attrs || attrs[name] == JNull) ==> r.error == NullPointerException
    ensures r.Failure? && name in attrs && attrs[name] != JNull ==> r.error == ClassCastException
  {
    if name !in attrs then Failure(NullPointerException)
    else match attrs[name]
      case JLong(l) => Success(l)
      case JInteger(i) => Success(i)
      case JNull => Failure(NullPointerException)
      case _ => Failure(ClassCastException)
  }

  /** `JsonObject.getInt(name)` unboxed to `int`: a Long is narrowed. */
  function GetInt(attrs: Attributes, name: string): (r: Result<Int32, JavaException>)
    ensures r.Success? <==> name in attrs && (attrs[name].JInteger? || attrs[name].JLong?)
    ensures r.Success? && attrs[name].JInteger? ==> r.value == attrs[name].i
    ensures r.Success? && attrs[name].JLong? ==> (attrs[name].l - r.value) % 0x1_0000_0000 == 0
    ensures r.Failure? && (name !in attrs || attrs[name] == JNull) ==> r.error == NullPointerException
    ensures r.Failure? && name in attrs && attrs[name] != JNull ==> r.error == ClassCastException
  {
    if name !in attrs then Failure(NullPointerException)
    else match attrs[name]
      case JInteger(i) => Success(i)
      case JLong(l) => Success(ToInt32(l))
      case JNull => Failure(NullPointerException)
      case _ => Failure(ClassCastException)
  }

  /** `getAttribute(name)`: the stored value, or null when absent or null. */
  function AttributeValue(attrs: Attributes, name: string): (r: Option<JsonValue>)
    ensures r.Some? <==> name in attrs && attrs[name] != JNull
    ensures r.Some? ==> r.value == attrs[name]
  {
    if name in attrs && attrs[name] != JNull then Some(attrs[name]) else None
  }

  /** The attribute map of a session made by the default constructor. */
  function InitialAttributes(nowMillis: Int64): (attrs: Attributes)
    ensures attrs.Keys == {CREATION_TIME_ATTR, LAST_ACCESSED_ATTR, MAX_INACTIVE_ATTR}
    ensures GetLong(attrs, CREATION_TIME_ATTR) == GetLong(attrs, LAST_ACCESSED_ATTR) == Success(nowMillis)
    ensures GetInt(attrs, MAX_INACTIVE_ATTR) == Success(DEFAULT_MAX_INACTIVE_INTERVAL_SECONDS)
  {
    map[CREATION_TIME_ATTR := JLong(nowMillis)][LAST_ACCESSED_ATTR := JLong(nowMillis)]
      [MAX_INACTIVE_ATTR := JInteger(DEFAULT_MAX_INACTIVE_INTERVAL_SECONDS)]
  }

  /**
   * `isExpired(now)`. A negative interval means the session never expires;
   * otherwise the session has expired once `interval` seconds have passed
   * since its last access, computed in wrapping `long` arithmetic.
   * (`TimeUnit.SECONDS.toMillis` saturates, but never for an `int` argument.)
   */
  function IsExpired(attrs: Attributes, nowMillis: Int64): (r: Result<bool, JavaException>)
    ensures GetInt(attrs, MAX_INACTIVE_ATTR).Failure? ==> r == Failure(GetInt(attrs, MAX_INACTIVE_ATTR).error)
    ensures GetInt(attrs, MAX_INACTIVE_ATTR).Success? && GetInt(attrs, MAX_INACTIVE_ATTR).value < 0 ==>
              r == Success(false)
    ensures r == Success(true) ==> GetLong(attrs, LAST_ACCESSED_ATTR).Success?
    ensures GetInt(attrs, MAX_INACTIVE_ATTR).Success? && GetInt(attrs, MAX_INACTIVE_ATTR).value >= 0
            && GetLong(attrs, LAST_ACCESSED_ATTR).Failure? ==>
              r == Failure(GetLong(attrs, LAST_ACCESSED_ATTR).error)
  {
    var interval :- GetInt(attrs, MAX_INACTIVE_ATTR);
    if interval < 0 then Success(false)
    else
      var lastAccessed :- GetLong(attrs, LAST_ACCESSED_ATTR);
      Success(ToInt64(nowMillis - interval * 1000) >= lastAccessed)
  }

  /** For a clock reading at or after the epoch, no wrap-around happens. */
  lemma ExpiredIffIdleTooLong(attrs: Attributes, nowMillis: Int64, interval: Int32, lastAccessed: Int64)
    requires 0 <= nowMillis && 0 <= interval
    requires GetInt(attrs, MAX_INACTIVE_ATTR) == Success(interval)
    requires GetLong(attrs, LAST_ACCESSED_ATTR) == Success(lastAccessed)
    ensures IsExpired(attrs, nowMillis) == Success(nowMillis - interval * 1000 >= lastAccessed)
  {
  }

  /** Once expired, a session stays expired as the clock moves on. */
  lemma ExpiryIsMonotone(attrs: Attributes, now1: Int64, now2: Int64)
    requires 0 <= now1 <= now2
    requires IsExpired(attrs, now1) == Success(true)
    ensures IsExpired(attrs, now2) == Success(true)
  {
    var interval := GetInt(attrs, MAX_INACTIVE_ATTR).value;
    var lastAccessed := GetLong(attrs, LAST_ACCESSED_ATTR).value;
    ExpiredIffIdleTooLong(attrs, now1, interval, lastAccessed);
    ExpiredIffIdleTooLong(attrs, now2, interval, lastAccessed);
  }

  /**
   * `convertTTLForCouchbase(ttl)`: an interval longer than thirty days is
   * turned into the absolute Unix time (in seconds) at which it ends, and
   * narrowed back to `int` by the cast.
   */
  function ConvertTtlForCouchbase(ttl: Int32, nowMillis: Int64): (r: Int32)
    ensures ttl <= THIRTY_DAYS_TIMESTAMP ==> r == ttl
    ensures ttl > THIRTY_DAYS_TIMESTAMP ==> (MillisToSeconds(nowMillis) + ttl - r) % 0x1_0000_0000 == 0
  {
    if ttl > THIRTY_DAYS_TIMESTAMP then ToInt32(MillisToSeconds(nowMillis) + ttl) else ttl
  }

  /** While the end time fits in an `int`, the result is that end time, itself above thirty days. */
  lemma ConvertTtlGivesEndTime(ttl: Int32, nowMillis: Int64)
    requires ttl > THIRTY_DAYS_TIMESTAMP && 0 <= nowMillis
    requires MillisToSeconds(nowMillis) + ttl <= INT32_MAX
    ensures ConvertTtlForCouchbase(ttl, nowMillis) == MillisToSeconds(nowMillis) + ttl
    ensures ConvertTtlForCouchbase(ttl, nowMillis) > THIRTY_DAYS_TIMESTAMP
    ensures ConvertTtlForCouchbase(ttl, nowMillis) * 1000 > nowMillis - 1000
  {
  }

  /**
   * The cast overflows once the end time passes 2^31 - 1 seconds: at
   * 2027-01-15 (1.8e12 ms) a TTL of 400,000,000 s (about 12.7 years)
   * becomes a negative interval, and a session holding it never expires.
   */
  lemma ConvertTtlOverflow(attrs: Attributes)
    ensures ConvertTtlForCouchbase(400_000_000, 1_800_000_000_000) == -2_094_967_296
    ensures var stored := attrs[MAX_INACTIVE_ATTR := JInteger(ConvertTtlForCouchbase(400_000_000, 1_800_000_000_000))];
            forall now: Int64 :: IsExpired(stored, now) == Success(false)
  {
  }

  /** `checkType(item)`: null, or one of the JSON-native classes. */
  function CheckType(item: Option<AttrInput>): (r: bool)
    ensures r <==> item == None || item.value.Native?
  {
    match item
    case None => true
    case Some(Native(_)) => true
    case Some(_) => false
  }

  /** `objectToString(o)`: the Base64 text, or null when serialisation fails. */
  function ObjectToString(o: AttrInput): (r: JsonValue)
    requires o.SerializableObject?
    ensures r == JNull <==> o.serialForm.None?
    ensures o.serialForm.Some? ==> r == JString(o.serialForm.value)
  {
    match o.serialForm
    case Some(text) => JString(text)
    case None => JNull
  }

  /**
   * The attribute map after `setAttribute(name, value)`, or the exception
   * it throws: null removes the entry, a JSON-native value is stored as it
   * is, any other object is stored in serialised form, and an object that
   * is not Serializable fails the cast.
   */
  function AttributeSet(attrs: Attributes, name: string, value: Option<AttrInput>): (r: Result<Attributes, JavaException>)
    ensures r.Failure? <==> value == Some(PlainObject)
    ensures r.Failure? ==> r.error == ClassCastException
    ensures r.Success? ==> r.value.Keys == if value.None? then attrs.Keys - {name} else attrs.Keys + {name}
    ensures r.Success? ==> forall n :: n in attrs && n != name ==> r.value[n] == attrs[n]
    ensures r.Success? && value.Some? && value.value.Native? ==> r.value[name] == value.value.json
    ensures r.Success? && value.Some? && value.value.SerializableObject? ==> r.value[name] == ObjectToString(value.value)
  {
    match value
    case None => Success(attrs - {name})
    case Some(Native(v)) => Success(attrs[name := v])
    case Some(SerializableObject(_)) => Success(attrs[name := ObjectToString(value.value)])
    case Some(PlainObject) => Failure(ClassCastException)
  }

  /** `setAttribute(n, null)` leaves exactly the other attributes. */
  lemma SetNullRemoves(attrs: Attributes, name: string)
    ensures AttributeSet(attrs, name, None).Success?
    ensures var r := AttributeSet(attrs, name, None).value;
            && r.Keys == attrs.Keys - {name}
            && AttributeValue(r, name) == None
            && forall n :: n in r ==> r[n] == attrs[n]
  {
  }

  /** `setAttribute(n, v)` with a JSON-native `v` stores `v` verbatim and leaves the rest. */
  lemma SetNativeStores(attrs: Attributes, name: string, v: NativeValue)
    ensures AttributeSet(attrs, name, Some(Native(v))).Success?
    ensures var r := AttributeSet(attrs, name, Some(Native(v))).value;
            && r.Keys == attrs.Keys + {name}
            && AttributeValue(r, name) == Some(v)
            && forall n :: n in attrs && n != name ==> r[n] == attrs[n]
  {
  }

  /**
   * The attributes another session hands out: each name with the object its
   * `getAttribute` returns, or None for null.
   */
  type ObjectAttributes = map<string, Option<AttrInput>>

  /**
   * The exception `JsonObject.put` throws for an object of a class it does
   * not store (the class name the client appends to the message is left out).
   */
  const UNSUPPORTED_TYPE: JavaException := IllegalArgumentException("Unsupported type for JsonObject")

  /**
   * `JsonObject.put(name, value)` of an arbitrary object: null and the
   * JSON-native classes (those `checkType` accepts) are stored as they are,
   * any other object is refused.
   */
  function PutValue(value: Option<AttrInput>): (r: Result<JsonValue, JavaException>)
    ensures r.Success? <==> CheckType(value)
    ensures r.Failure? ==> r.error == UNSUPPORTED_TYPE
    ensures value.None? ==> r == Success(JNull)
    ensures value.Some? && value.value.Native? ==> r == Success(value.value.json)
  {
    match value
    case None => Success(JNull)
    case Some(Native(v)) => Success(v)
    case Some(_) => Failure(UNSUPPORTED_TYPE)
  }

  /**
   * A fresh object after putting every entry of `src` into it, or the
   * exception the first refused value throws.
   */
  function PutAll(src: ObjectAttributes): (r: Result<Attributes, JavaException>)
    ensures r.Success? <==> forall n :: n in src ==> CheckType(src[n])
    ensures r.Failure? ==> r.error == UNSUPPORTED_TYPE
    ensures r.Success? ==> r.value.Keys == src.Keys
    ensures r.Success? ==> forall n :: n in src ==> PutValue(src[n]) == Success(r.value[n])
  {
    if forall n :: n in src ==> CheckType(src[n]) then
      Success(map n | n in src :: PutValue(src[n]).value)
    else
      Failure(UNSUPPORTED_TYPE)
  }

  /** The attribute map seen through `getAttribute`, a stored null being null. */
  function AsObjects(attrs: Attributes): (r: ObjectAttributes)
    ensures r.Keys == attrs.Keys
    ensures forall n :: n in attrs ==> r[n] == if AttributeValue(attrs, n).None? then None else Some(Native(attrs[n]))
    ensures forall n :: n in attrs ==> PutValue(r[n]) == Success(attrs[n])
  {
    map n | n in attrs :: if attrs[n] == JNull then None else Some(Native(attrs[n]))
  }

  /** Putting the entries of a JSON object into a fresh one never throws and gives the same object. */
  lemma PutAllOfJsonIsIdentity(attrs: Attributes)
    ensures PutAll(AsObjects(attrs)) == Success(attrs)
  {
    var objects := AsObjects(attrs);
    assert forall n :: n in objects ==> CheckType(objects[n]);
    var copied := PutAll(objects).value;
    assert forall n :: n in attrs ==> copied[n] == attrs[n] by {
      forall n | n in attrs
        ensures copied[n] == attrs[n]
      {
        assert PutValue(objects[n]) == Success(copied[n]);
      }
    }
    assert copied == attrs;
  }

  /**
   * The copy loop of the copy constructors: every entry of `src` is put into
   * a fresh object, one at a time; the first refused value ends the copy
   * with its exception.
   */
  method CopyAttributes(src: ObjectAttributes) returns (r: Result<Attributes, JavaException>)
    ensures r == PutAll(src)
  {
    var dst: Attributes := map[];
    var names := src.Keys;
    while names != {}
      invariant names <= src.Keys
      invariant dst.Keys == src.Keys - names
      invariant forall n :: n in dst ==> PutValue(src[n]) == Success(dst[n])
      decreases names
    {
      var name :| name in names;
      var put := PutValue(src[name]);
      if put.Failure? {
        return Failure(put.error);
      }
      dst := dst[name := put.value];
      names := names - {name};
    }
    assert dst == PutAll(src).value;
    r := Success(dst);
  }

  /** What an `ExpiringSession` offers through its getters. */
  datatype ExpiringSessionView = ExpiringSessionView(
    id: string,
    attributes: ObjectAttributes,
    creationTime: Int64,
    lastAccessedTime: Int64,
    maxInactiveInterval: Int32)

  /** What a plain `Session` offers through its getters. */
  datatype SessionView = SessionView(id: string, attributes: ObjectAttributes)

  /**
   * The attributes of a copy of an `ExpiringSession`: its attributes, then
   * its three timing values; or the exception an unstorable attribute throws.
   */
  function CopiedAttributes(src: ExpiringSessionView): (r: Result<Attributes, JavaException>)
    ensures r.Success? <==> PutAll(src.attributes).Success?
    ensures r.Failure? ==> r.error == UNSUPPORTED_TYPE
    ensures r.Success? ==> r.value.Keys == src.attributes.Keys + {CREATION_TIME_ATTR, LAST_ACCESSED_ATTR, MAX_INACTIVE_ATTR}
    ensures r.Success? ==> GetLong(r.value, CREATION_TIME_ATTR) == Success(src.creationTime)
    ensures r.Success? ==> GetLong(r.value, LAST_ACCESSED_ATTR) == Success(src.lastAccessedTime)
    ensures r.Success? ==> GetInt(r.value, MAX_INACTIVE_ATTR) == Success(src.maxInactiveInterval)
    ensures r.Success? ==> forall n :: n in src.attributes && n !in {CREATION_TIME_ATTR, LAST_ACCESSED_ATTR, MAX_INACTIVE_ATTR} ==>
                             PutValue(src.attributes[n]) == Success(r.value[n])
  {
    var copied :- PutAll(src.attributes);
    Success(copied[CREATION_TIME_ATTR := JLong(src.creationTime)]
              [LAST_ACCESSED_ATTR := JLong(src.lastAccessedTime)]
              [MAX_INACTIVE_ATTR := JInteger(src.maxInactiveInterval)])
  }

  class CouchbaseSession {
    var id: string
    var attrs: Attributes

    /** `new CouchbaseSession()`: a fresh id and the three timing entries. */
    constructor (nowMillis: Int64, uuid: string)
      ensures id == DefaultId(uuid)
      ensures attrs == InitialAttributes(nowMillis)
    {
      id := SESSION_KEY_PREFIX + uuid;
      var creationTime := nowMillis;
      attrs := map[];
      new;
      attrs := attrs[CREATION_TIME_ATTR := JLong(creationTime)];
      attrs := attrs[LAST_ACCESSED_ATTR := JLong(creationTime)];
      attrs := attrs[MAX_INACTIVE_ATTR := JInteger(DEFAULT_MAX_INACTIVE_INTERVAL_SECONDS)];
    }

    /** A session with the given id and attribute object, as the copy constructors leave it. */
    constructor FromParts(id: string, attrs: Attributes)
      ensures this.id == id && this.attrs == attrs
    {
      this.id := id;
      this.attrs := attrs;
    }

    function GetId(): string
      reads this
    {
      id
    }

    function GetCreationTime(): Result<Int64, JavaException>
      reads this
    {
      GetLong(attrs, CREATION_TIME_ATTR)
    }

    function GetLastAccessedTime(): Result<Int64, JavaException>
      reads this
    {
      GetLong(attrs, LAST_ACCESSED_ATTR)
    }

    function GetMaxInactiveIntervalInSeconds(): Result<Int32, JavaException>
      reads this
    {
      GetInt(attrs, MAX_INACTIVE_ATTR)
    }

    function IsExpiredAt(nowMillis: Int64): Result<bool, JavaException>
      reads this
    {
      IsExpired(attrs, nowMillis)
    }

    function GetAttribute(name: string): Option<JsonValue>
      reads this
    {
      AttributeValue(attrs, name)
    }

    /** The reserved timing entries are among the names. */
    function GetAttributeNames(): set<string>
      reads this
    {
      attrs.Keys
    }

    function GetSessionAttrs(): Attributes
      reads this
    {
      attrs
    }

    /** `equals`: two sessions are equal exactly when their ids are. */
    predicate Equals(obj: CouchbaseSession?)
      reads this, obj
      ensures Equals(obj) <==> obj != null && obj.GetId() == GetId()
    {
      obj != null && id == obj.id
    }

    method SetLastAccessedTime(lastAccessedTime: Int64)
      modifies this
      ensures id == old(id)
      ensures attrs == old(attrs)[LAST_ACCESSED_ATTR := JLong(lastAccessedTime)]
      ensures GetLastAccessedTime() == Success(lastAccessedTime)
    {
      attrs := attrs[LAST_ACCESSED_ATTR := JLong(lastAccessedTime)];
    }

    method SetCreationTime(creationTime: Int64)
      modifies this
      ensures id == old(id)
      ensures attrs == old(attrs)[CREATION_TIME_ATTR := JLong(creationTime)]
      ensures GetCreationTime() == Success(creationTime)
    {
      attrs := attrs[CREATION_TIME_ATTR := JLong(creationTime)];
    }

    /** Stores the interval after `convertTTLForCouchbase`. */
    method SetMaxInactiveIntervalInSeconds(interval: Int32, nowMillis: Int64)
      modifies this
      ensures id == old(id)
      ensures attrs == old(attrs)[MAX_INACTIVE_ATTR := JInteger(ConvertTtlForCouchbase(interval, nowMillis))]
      ensures GetMaxInactiveIntervalInSeconds() == Success(ConvertTtlForCouchbase(interval, nowMillis))
    {
      var converted := ConvertTtlForCouchbase(interval, nowMillis);
      attrs := attrs[MAX_INACTIVE_ATTR := JInteger(converted)];
    }

    method SetId(newId: string)
      modifies this
      ensures id == newId && attrs == old(attrs)
    {
      id := newId;
    }

    method RemoveAttribute(name: string)
      modifies this
      ensures id == old(id)
      ensures attrs == old(attrs) - {name}
    {
      attrs := attrs - {name};
    }

    method SetAttribute(name: string, value: Option<AttrInput>) returns (outcome: Outcome<JavaException>)
      modifies this
      ensures id == old(id)
      ensures AttributeSet(old(attrs), name, value).Success? ==>
                outcome == Ok && attrs == AttributeSet(old(attrs), name, value).value
      ensures AttributeSet(old(attrs), name, value).Failure? ==>
                outcome == Fail(AttributeSet(old(attrs), name, value).error) && attrs == old(attrs)
    {
      outcome := Ok;
      if value.None? {
        RemoveAttribute(name);
      } else if CheckType(value) {
        attrs := attrs[name := value.value.json];
      } else if value.value.PlainObject? {
        // the cast to Serializable fails
        outcome := Fail(ClassCastException);
      } else {
        var serializedAttribute := ObjectToString(value.value);
        attrs := attrs[name := serializedAttribute];
      }
    }
  }

  /**
   * `new CouchbaseSession(ExpiringSession)`: rejects null, copies the
   * attributes, then puts the three timing values.
   */
  method NewFromExpiringSession(src: Option<ExpiringSessionView>) returns (r: Result<CouchbaseSession, JavaException>)
    ensures src.None? ==> r == Failure(IllegalArgumentException("session cannot be null"))
    ensures src.Some? && CopiedAttributes(src.value).Failure? ==> r == Failure(CopiedAttributes(src.value).error)
    ensures src.Some? && CopiedAttributes(src.value).Success? ==>
              && r.Success? && fresh(r.value) && r.value.id == src.value.id
              && r.value.attrs == CopiedAttributes(src.value).value
  {
    if src.None? {
      return Failure(IllegalArgumentException("session cannot be null"));
    }
    var copied :- CopyAttributes(src.value.attributes);
    copied := copied[CREATION_TIME_ATTR := JLong(src.value.creationTime)];
    copied := copied[LAST_ACCESSED_ATTR := JLong(src.value.lastAccessedTime)];
    copied := copied[MAX_INACTIVE_ATTR := JInteger(src.value.maxInactiveInterval)];
    var session := new CouchbaseSession.FromParts(src.value.id, copied);
    r := Success(session);
  }

  /**
   * `new CouchbaseSession(JsonDocument)`: rejects null, then copies the
   * document's content, which is all JSON and so never refused.
   */
  method NewFromDocument(doc: Option<JsonDocument>) returns (r: Result<CouchbaseSession, JavaException>)
    ensures doc.None? ==> r == Failure(IllegalArgumentException("session cannot be null"))
    ensures doc.Some? ==> && r.Success? && fresh(r.value) && r.value.id == doc.value.id
                          && r.value.attrs == doc.value.content
  {
    if doc.None? {
      return Failure(IllegalArgumentException("session cannot be null"));
    }
    PutAllOfJsonIsIdentity(doc.value.content);
    var copied := CopyAttributes(AsObjects(doc.value.content));
    var session := new CouchbaseSession.FromParts(doc.value.id, copied.value);
    r := Success(session);
  }

  /**
   * `new CouchbaseSession(Session)`: rejects null, then copies the
   * attributes; no timing entries are added.
   */
  method NewFromSession(src: Option<SessionView>) returns (r: Result<CouchbaseSession, JavaException>)
    ensures src.None? ==> r == Failure(IllegalArgumentException("session cannot be null"))
    ensures src.Some? && PutAll(src.value.attributes).Failure? ==> r == Failure(UNSUPPORTED_TYPE)
    ensures src.Some? && PutAll(src.value.attributes).Success? ==>
              && r.Success? && fresh(r.value) && r.value.id == src.value.id
              && r.value.attrs == PutAll(src.value.attributes).value
  {
    if src.None? {
      return Failure(IllegalArgumentException("session cannot be null"));
    }
    var copied :- CopyAttributes(src.value.attributes);
    var session := new CouchbaseSession.FromParts(src.value.id, copied);
    r := Success(session);
  }

  /**
   * Copying a session through its own getters gives back its attribute map,
   * provided its timing entries hold a Long, a Long and an Integer. This
   * rests on `getAttribute` returning stored values verbatim, as it does here.
   */
  lemma CopyOfOwnViewIsIdentical(id: string, attrs: Attributes, c: Int64, l: Int64, m: Int32)
    requires CREATION_TIME_ATTR in attrs && attrs[CREATION_TIME_ATTR] == JLong(c)
    requires LAST_ACCESSED_ATTR in attrs && attrs[LAST_ACCESSED_ATTR] == JLong(l)
    requires MAX_INACTIVE_ATTR in attrs && attrs[MAX_INACTIVE_ATTR] == JInteger(m)
    ensures GetLong(attrs, CREATION_TIME_ATTR) == Success(c)
    ensures GetLong(attrs, LAST_ACCESSED_ATTR) == Success(l)
    ensures GetInt(attrs, MAX_INACTIVE_ATTR) == Success(m)
    ensures CopiedAttributes(ExpiringSessionView(id, AsObjects(attrs), c, l, m)) == Success(attrs)
  {
    PutAllOfJsonIsIdentity(attrs);
    assert attrs[CREATION_TIME_ATTR := JLong(c)][LAST_ACCESSED_ATTR := JLong(l)][MAX_INACTIVE_ATTR := JInteger(m)] == attrs;
  }

  /** A session whose attributes include an object that is not JSON cannot be copied. */
  lemma CopyRefusesNonJson(src: SessionView, name: string)
    requires name in src.attributes && src.attributes[name].Some? && !src.attributes[name].value.Native?
    ensures PutAll(src.attributes) == Failure(UNSUPPORTED_TYPE)
  {
  }
}
