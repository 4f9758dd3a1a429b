/** The payload codec that carries typed messages inside a protobuf `Any`.
    Instead of the protobuf pack/unpack primitives it writes each message as a JSON
    object into the `Any`'s value bytes. The model works at the level of that JSON
    object: one value per property name. */
module Proto {
  import Grpc

  /** A JSON property value, as far as the three message types need it. `JOther` stands
      for every other JSON value (number, boolean, null, array, object). */
  datatype JsonValue = JString(str: string) | JStatus(status: Grpc.Status) | JOther

  /** The JSON text held by an `Any`'s value bytes: no token at all (empty bytes),
      an object, or some other JSON value (`null` included, see `ObjectExpected`). */
  datatype Document = NoTokens | Object(properties: map<string, JsonValue>) | NotAnObject

  datatype Any = Any(Value: Document)

  /** Why the call faults on its payload. `ObjectExpected` also stands for the JSON
      value `null`, which deserialises to a null request that faults when read. */
  datatype DecodeError = NoJsonTokens | ObjectExpected | StringExpected(property: string)

  datatype Result<T> = Ok(value: T) | Err(error: DecodeError)

  /** The `Any` that converting a null value yields: its value bytes are empty. */
  const EmptyAny: Any := Any(NoTokens)

  /** Property names, as the messages' own property names. */
  const EmailProperty := "Email"
  const NameProperty := "Name"
  const StatusProperty := "Status"
  const MessageProperty := "Message"

  /** Reads a string property: an absent property leaves the default empty string,
      a value of another JSON kind fails. Unknown properties are never looked at. */
  function ReadString(properties: map<string, JsonValue>, key: string): Result<string>
  {
    if key !in properties then Ok("")
    else match properties[key]
      case JString(s) => Ok(s)
      case _ => Err(StringExpected(key))
  }

  function SubscriptionToAny(x: Grpc.Subscription): Any
  {
    Any(Object(map[EmailProperty := JString(x.Email), NameProperty := JString(x.Name)]))
  }

  function UnsubscriptionToAny(x: Grpc.Unsubscription): Any
  {
    Any(Object(map[EmailProperty := JString(x.Email)]))
  }

  function ResponseToAny(x: Grpc.Response): Any
  {
    Any(Object(map[StatusProperty := JStatus(x.Status), MessageProperty := JString(x.Message)]))
  }

  /** Decodes a subscription request. Empty value bytes and a non-object fail; a missing
      property gives the empty string. */
  function SubscriptionFromAny(a: Any): (r: Result<Grpc.Subscription>)
    ensures a.Value.NoTokens? ==> r == Err(NoJsonTokens)
    ensures a.Value.NotAnObject? ==> r == Err(ObjectExpected)
    ensures r.Ok? ==> a.Value.Object?
    ensures a.Value.Object? && a.Value.properties == map[] ==> r == Ok(Grpc.Subscription("", ""))
  {
    match a.Value
    case NoTokens => Err(NoJsonTokens)
    case NotAnObject => Err(ObjectExpected)
    case Object(properties) =>
      match ReadString(properties, EmailProperty)
      case Err(e) => Err(e)
      case Ok(email) =>
        match ReadString(properties, NameProperty)
        case Err(e) => Err(e)
        case Ok(name) => Ok(Grpc.Subscription(email, name))
  }

  /** Decodes an unsubscription request, with the same rules. */
  function UnsubscriptionFromAny(a: Any): (r: Result<Grpc.Unsubscription>)
    ensures a.Value.NoTokens? ==> r == Err(NoJsonTokens)
    ensures a.Value.NotAnObject? ==> r == Err(ObjectExpected)
    ensures r.Ok? ==> a.Value.Object?
    ensures a.Value.Object? && a.Value.properties == map[] ==> r == Ok(Grpc.Unsubscription(""))
  {
    match a.Value
    case NoTokens => Err(NoJsonTokens)
    case NotAnObject => Err(ObjectExpected)
    case Object(properties) =>
      match ReadString(properties, EmailProperty)
      case Err(e) => Err(e)
      case Ok(email) => Ok(Grpc.Unsubscription(email))
  }

  /** Decoding what was encoded gives the request back. */
  lemma SubscriptionRoundTrip(x: Grpc.Subscription)
    ensures SubscriptionFromAny(SubscriptionToAny(x)) == Ok(x)
  {
  }

  lemma UnsubscriptionRoundTrip(x: Grpc.Unsubscription)
    ensures UnsubscriptionFromAny(UnsubscriptionToAny(x)) == Ok(x)
  {
  }

  /** Distinct responses are encoded differently, so a caller can tell them apart. */
  lemma ResponseToAnyInjective(x: Grpc.Response, y: Grpc.Response)
    ensures ResponseToAny(x) == ResponseToAny(y) ==> x == y
  {
    if ResponseToAny(x) == ResponseToAny(y) {
      var p := ResponseToAny(x).Value.properties;
      assert p[StatusProperty] == JStatus(x.Status) == JStatus(y.Status);
      assert p[MessageProperty] == JString(x.Message) == JString(y.Message);
    }
  }

  /** The empty `Any` cannot be decoded as a request: deserialising empty text throws. */
  lemma EmptyAnyDoesNotDecode()
    ensures SubscriptionFromAny(EmptyAny) == Err(NoJsonTokens)
    ensures UnsubscriptionFromAny(EmptyAny) == Err(NoJsonTokens)
  {
  }
}
