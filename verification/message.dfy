/** Messages (src/message.rs): the record the message store returns, its
    payload mapping and the decoding of its JSON payload into a typed one.
    JSON decoding into the caller's type is the partial function `decode`. */
module Messages {
  import opened Errors
  import Json
  import StreamNames
  import MessageMetadata

  /** A message id (a UUID) and a timestamp (milliseconds since the epoch);
      the core only copies them. */
  type Uuid = nat
  type Timestamp = int

  datatype Message<T> = Message(
    id: Uuid,
    streamName: StreamNames.StreamName,
    msgType: string,
    position: int,
    globalPosition: int,
    data: T,
    metadata: MessageMetadata.Metadata,
    time: Timestamp)

  /** `GenericMessage`: a message whose data is untyped JSON. */
  type GenericMessage = Message<Json.Value>

  /** Two messages agree on every field except `data`. */
  predicate SameEnvelope<T, U>(a: Message<T>, b: Message<U>) {
    && a.id == b.id && a.streamName == b.streamName && a.msgType == b.msgType
    && a.position == b.position && a.globalPosition == b.globalPosition
    && a.metadata == b.metadata && a.time == b.time
  }

  /** `Message::map_data`. */
  function MapData<T, U>(m: Message<T>, f: T -> U): (r: Message<U>)
    ensures SameEnvelope(m, r) && r.data == f(m.data)
  {
    Message(m.id, m.streamName, m.msgType, m.position, m.globalPosition, f(m.data), m.metadata, m.time)
  }

  lemma MapDataIdentity<T>(m: Message<T>)
    ensures MapData(m, x => x) == m
  {
  }

  lemma MapDataCompose<T, U, V>(m: Message<T>, f: T -> U, g: U -> V)
    ensures MapData(MapData(m, f), g) == MapData(m, x => g(f(x)))
  {
  }

  /** `GenericMessage::deserialize_data`: fails with the decoder's error, or
      gives a message that differs from the input only in its data. */
  function DeserializeData<T>(m: GenericMessage, decode: Json.Value -> Result<T, JsonError>)
    : (r: Result<Message<T>, JsonError>)
    ensures r.Ok? <==> decode(m.data).Ok?
    ensures r.Err? ==> r.error == decode(m.data).error
    ensures r.Ok? ==> SameEnvelope(m, r.value) && r.value.data == decode(m.data).value
  {
    match decode(m.data)
    case Err(e) => Err(e)
    case Ok(data) =>
      Ok(Message(m.id, m.streamName, m.msgType, m.position, m.globalPosition, data, m.metadata, m.time))
  }

  /** `deserialize_messages` on a `Vec`: all or nothing. It succeeds exactly
      when every message decodes, and then keeps their number and order; it
      otherwise fails with the error of the first message that does not
      decode. */
  function DeserializeMessages<T>(ms: seq<GenericMessage>, decode: Json.Value -> Result<T, JsonError>)
    : (r: Result<seq<Message<T>>, Error>)
    ensures r.Ok? <==> forall i :: 0 <= i < |ms| ==> decode(ms[i].data).Ok?
    ensures r.Ok? ==> |r.value| == |ms|
    ensures r.Ok? ==> forall i :: 0 <= i < |ms| ==> r.value[i] == DeserializeData(ms[i], decode).value
    ensures r.Err? ==>
      exists i :: (0 <= i < |ms| && decode(ms[i].data).Err?
                   && r.error == Error.DeserializeData(decode(ms[i].data).error)
                   && forall j :: 0 <= j < i ==> decode(ms[j].data).Ok?)
  {
    if ms == [] then Ok([])
    else
      match DeserializeData(ms[0], decode)
      case Err(e) => Err(Error.DeserializeData(e))
      case Ok(first) =>
        match DeserializeMessages(ms[1..], decode)
        case Err(e) =>
          assert forall i :: 1 <= i < |ms| ==> ms[i] == ms[1..][i - 1];
          Err(e)
        case Ok(rest) =>
          assert forall i :: 1 <= i < |ms| ==> ms[i] == ms[1..][i - 1];
          Ok([first] + rest)
  }

  /** `deserialize_messages` on an `Option`: nothing stays nothing, a message
      is decoded or fails with `DeserializeData`. */
  function DeserializeOptional<T>(m: Option<GenericMessage>, decode: Json.Value -> Result<T, JsonError>)
    : (r: Result<Option<Message<T>>, Error>)
    ensures m.None? ==> r == Ok(None)
    ensures m.Some? && decode(m.value.data).Err? ==> r == Err(Error.DeserializeData(decode(m.value.data).error))
    ensures m.Some? && decode(m.value.data).Ok? ==>
      r.Ok? && r.value.Some? && SameEnvelope(m.value, r.value.value)
      && r.value.value.data == decode(m.value.data).value
  {
    match m
    case None => Ok(None)
    case Some(message) =>
      match DeserializeData(message, decode)
      case Err(e) => Err(Error.DeserializeData(e))
      case Ok(decoded) => Ok(Some(decoded))
  }
}
