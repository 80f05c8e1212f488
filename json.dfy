/**
 * The values a Couchbase `JsonObject` can hold, the Java objects a caller
 * may hand to `setAttribute`, and the `JsonDocument` the bucket exchanges.
 */
module Json {
  import opened Wrappers
  import opened JavaLang

  /** A value stored in a `JsonObject`; `JNull` is a key mapped to Java null. */
  datatype JsonValue =
    | JNull
    | JString(s: string)
    | JInteger(i: Int32)
    | JLong(l: Int64)
    | JDouble(bits: bv64)
    | JBoolean(b: bool)
    | JObject(fields: map<string, JsonValue>)
    | JArray(items: seq<JsonValue>)

  /** A JSON-native Java object: String, Integer, Long, Double, Boolean, JsonObject or JsonArray. */
  type NativeValue = v: JsonValue | !v.JNull? witness JString("")

  /** A non-null Java object passed as a session attribute. */
  datatype AttrInput =
    | Native(json: NativeValue)
      /**
       * Any other `java.io.Serializable`. `serialForm` is the Base64 text of
       * its Java serialisation, or None when serialising it throws an
       * IOException.
       */
    | SerializableObject(serialForm: Option<string>)
      /** An object that does not implement `java.io.Serializable`. */
    | PlainObject

  /** A document as it travels to and from the bucket. */
  datatype JsonDocument = JsonDocument(id: string, expiry: Int32, content: map<string, JsonValue>)
}
