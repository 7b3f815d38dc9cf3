/** Message metadata (src/message/metadata.rs): where a message resides, the
    message that caused it, the workflow it belongs to and where to reply.
    Metadata is a plain value (it is cloned, compared field by field and
    embedded in every message); `MetadataRecord` is the same record as a
    mutable object, for the two operations that update it through
    `&mut self`, each specified by a function from the old value to the new
    one. */
module MessageMetadata {
  import opened Errors
  import opened Text
  import Json
  import StreamNames

  datatype Metadata = Metadata(
    streamName: Option<string>,
    position: Option<int>,
    globalPosition: Option<int>,
    causationMessageStreamName: Option<string>,
    causationMessagePosition: Option<int>,
    causationMessageGlobalPosition: Option<int>,
    correlationStreamName: Option<string>,
    replyStreamName: Option<string>,
    schemaVersion: Option<string>,
    properties: map<string, Json.Value>,
    localProperties: map<string, Json.Value>)

  /** `Metadata::default()`: every field absent, both maps empty. */
  const Default: Metadata :=
    Metadata(None, None, None, None, None, None, None, None, None, map[], map[])

  const IdentifierSeparator: char := '/'

  /** `format!("{stream_name}/{position}")`. */
  function FormatIdentifier(streamName: string, position: int): string
  {
    streamName + [IdentifierSeparator] + IntToDecimal(position)
  }

  /** Reads an identifier back: the text before the last `/` and the integer
      after it. */
  function ParseIdentifier(identifier: string): Option<(string, int)>
  {
    match SplitLast(identifier, IdentifierSeparator)
    case None => None
    case Some((streamName, digits)) =>
      if |digits| >= 1 && AllDigits(if digits[0] == '-' then digits[1..] else digits)
      then Some((streamName, ParseDecimal(digits)))
      else None
  }

  lemma ParseFormatIdentifier(streamName: string, position: int)
    ensures ParseIdentifier(FormatIdentifier(streamName, position)) == Some((streamName, position))
  {
    SplitLastAt(streamName, IntToDecimal(position), IdentifierSeparator);
    IntToDecimalRoundTrip(position);
  }

  /** `Metadata::identifier`: present exactly when both the stream name and
      the position are, and it reads back as those two. */
  function Identifier(m: Metadata): (r: Option<string>)
    ensures r.Some? <==> m.streamName.Some? && m.position.Some?
    ensures r.Some? ==> ParseIdentifier(r.value) == Some((m.streamName.value, m.position.value))
  {
    match (m.streamName, m.position)
    case (Some(streamName), Some(position)) =>
      ParseFormatIdentifier(streamName, position);
      Some(FormatIdentifier(streamName, position))
    case _ => None
  }

  /** `Metadata::causation_message_identifier`: the same, from the causation
      stream name and position. */
  function CausationMessageIdentifier(m: Metadata): (r: Option<string>)
    ensures r.Some? <==> m.causationMessageStreamName.Some? && m.causationMessagePosition.Some?
    ensures r.Some? ==>
      ParseIdentifier(r.value) == Some((m.causationMessageStreamName.value, m.causationMessagePosition.value))
  {
    match (m.causationMessageStreamName, m.causationMessagePosition)
    case (Some(streamName), Some(position)) =>
      ParseFormatIdentifier(streamName, position);
      Some(FormatIdentifier(streamName, position))
    case _ => None
  }

  /** The metadata after `Metadata::follow`: it records the preceding message's own stream name and
      positions as causation data, takes over its correlation and reply
      stream names, and merges its properties over the existing ones. */
  function Followed(m: Metadata, preceding: Metadata): (r: Metadata)
    ensures r.causationMessageStreamName == preceding.streamName
    ensures r.causationMessagePosition == preceding.position
    ensures r.causationMessageGlobalPosition == preceding.globalPosition
    ensures r.correlationStreamName == preceding.correlationStreamName
    ensures r.replyStreamName == preceding.replyStreamName
    ensures r.properties.Keys == m.properties.Keys + preceding.properties.Keys
    ensures forall k :: k in preceding.properties ==> r.properties[k] == preceding.properties[k]
    ensures forall k :: k in m.properties && k !in preceding.properties ==> r.properties[k] == m.properties[k]
    ensures r.streamName == m.streamName && r.position == m.position
    ensures r.globalPosition == m.globalPosition && r.schemaVersion == m.schemaVersion
    ensures r.localProperties == m.localProperties
  {
    m.(causationMessageStreamName := preceding.streamName,
       causationMessagePosition := preceding.position,
       causationMessageGlobalPosition := preceding.globalPosition,
       correlationStreamName := preceding.correlationStreamName,
       replyStreamName := preceding.replyStreamName,
       properties := m.properties + preceding.properties)
  }

  /** `Metadata::follows`, check by check as coded. It holds exactly when the
      three causation fields are present and equal to the preceding
      message's own fields, and the correlation and reply stream names agree
      wherever the preceding message has one. */
  predicate Follows(m: Metadata, preceding: Metadata): (r: bool)
    ensures r <==>
      && preceding.streamName.Some? && m.causationMessageStreamName == preceding.streamName
      && preceding.position.Some? && m.causationMessagePosition == preceding.position
      && preceding.globalPosition.Some? && m.causationMessageGlobalPosition == preceding.globalPosition
      && (preceding.correlationStreamName.Some? ==> m.correlationStreamName == preceding.correlationStreamName)
      && (preceding.replyStreamName.Some? ==> m.replyStreamName == preceding.replyStreamName)
  {
    if m.causationMessageStreamName.None? && preceding.streamName.None? then false
    else if m.causationMessageStreamName != preceding.streamName then false
    else if m.causationMessagePosition.None? && preceding.position.None? then false
    else if m.causationMessagePosition != preceding.position then false
    else if m.causationMessageGlobalPosition.None? && preceding.globalPosition.None? then false
    else if m.causationMessageGlobalPosition != preceding.globalPosition then false
    else if preceding.correlationStreamName.Some?
         && m.correlationStreamName != preceding.correlationStreamName then false
    else if preceding.replyStreamName.Some?
         && m.replyStreamName != preceding.replyStreamName then false
    else true
  }

  /** After following a message, the metadata follows it exactly when that
      message has its stream name, position and global position. */
  lemma FollowThenFollows(m: Metadata, preceding: Metadata)
    ensures Follows(Followed(m, preceding), preceding) <==>
      preceding.streamName.Some? && preceding.position.Some? && preceding.globalPosition.Some?
  {
  }

  /** `Metadata::is_reply`. */
  predicate IsReply(m: Metadata) {
    m.replyStreamName.Some?
  }

  /** The metadata after `Metadata::clear_reply_stream_name`: no longer a
      reply, and nothing but the reply stream name has changed. */
  function ReplyCleared(m: Metadata): (r: Metadata)
    ensures !IsReply(r)
    ensures r.(replyStreamName := m.replyStreamName) == m
  {
    m.(replyStreamName := None)
  }

  /** `Metadata::is_correlated` as coded. The argument is normalised first
      (`Category::normalize`, a foreign case conversion, passed in as
      `normalize`); when the normalised text passes `is_category` (it
      contains `-`) the category part of the correlation stream name is
      compared with it, otherwise the whole correlation stream name is. */
  predicate IsCorrelated(m: Metadata, streamName: string, normalize: string -> string)
  {
    match m.correlationStreamName
    case None => false
    case Some(correlation) =>
      var normalized := normalize(streamName);
      if StreamNames.IsCategory(normalized) then StreamNames.CategoryPart(correlation) == normalized
      else correlation == normalized
  }

  /** What `is_correlated` computes: the category branch can never succeed
      (a category part has no `-`, the text it is compared with has one), so
      the answer is an exact comparison with a dash-free normalised text. */
  lemma IsCorrelatedAsCoded(m: Metadata, streamName: string, normalize: string -> string)
    ensures IsCorrelated(m, streamName, normalize) <==>
      StreamNames.IdSeparator !in normalize(streamName)
      && m.correlationStreamName == Some(normalize(streamName))
  {
  }

  /** The input that shows it: a message correlated with the entity stream
      `account-123` is not reported as correlated with its category
      `account`. */
  lemma IsCorrelatedMissesCategory(m: Metadata, category: string, id: string, normalize: string -> string)
    requires StreamNames.IdSeparator !in category
    requires m.correlationStreamName == Some(category + [StreamNames.IdSeparator] + id)
    requires normalize(category) == category
    ensures !IsCorrelated(m, category, normalize)
  {
    assert m.correlationStreamName.value[|category|] == StreamNames.IdSeparator;
  }

  /** What `is_category` is documented to return: whether the text names a
      category, that is, has no `-`. */
  predicate IsCategoryIntended(streamName: string) {
    StreamNames.IdSeparator !in streamName
  }

  /** `is_correlated` with the documented `is_category`: a category argument
      matches the category part of the correlation stream name, an entity
      stream argument matches it exactly. */
  predicate IsCorrelatedIntended(m: Metadata, streamName: string, normalize: string -> string)
  {
    match m.correlationStreamName
    case None => false
    case Some(correlation) =>
      var normalized := normalize(streamName);
      if IsCategoryIntended(normalized) then StreamNames.CategoryPart(correlation) == normalized
      else correlation == normalized
  }

  /** The intended check accepts the workflow's category and its exact
      stream name, and nothing without a correlation stream name. */
  lemma IsCorrelatedIntendedMatches(m: Metadata, category: string, id: string, normalize: string -> string)
    requires StreamNames.IdSeparator !in category
    requires m.correlationStreamName == Some(category + [StreamNames.IdSeparator] + id)
    requires normalize(category) == category
    requires normalize(category + [StreamNames.IdSeparator] + id) == category + [StreamNames.IdSeparator] + id
    ensures IsCorrelatedIntended(m, category, normalize)
    ensures IsCorrelatedIntended(m, category + [StreamNames.IdSeparator] + id, normalize)
    ensures IsCorrelatedIntended(m.(correlationStreamName := None), category, normalize) == false
  {
    var correlation := category + [StreamNames.IdSeparator] + id;
    SplitOnceAt(category, id, StreamNames.IdSeparator);
    assert correlation[|category|] == StreamNames.IdSeparator;
  }

  /** `TryFrom<Option<Value>>`: a missing metadata value reads as the default
      metadata; a present one is handed to the JSON decoder. */
  function FromJson(value: Option<Json.Value>, decode: Json.Value -> Result<Metadata, JsonError>)
    : (r: Result<Metadata, JsonError>)
    ensures value.None? ==> r == Ok(Default) && !IsReply(r.value) && Identifier(r.value).None?
    ensures value.Some? ==> r == decode(value.value)
  {
    match value
    case Some(v) => decode(v)
    case None => Ok(Default)
  }

  /** A `Metadata` updated in place through `&mut self`. */
  class MetadataRecord {
    var streamName: Option<string>
    var position: Option<int>
    var globalPosition: Option<int>
    var causationMessageStreamName: Option<string>
    var causationMessagePosition: Option<int>
    var causationMessageGlobalPosition: Option<int>
    var correlationStreamName: Option<string>
    var replyStreamName: Option<string>
    var schemaVersion: Option<string>
    var properties: map<string, Json.Value>
    var localProperties: map<string, Json.Value>

    function Value(): Metadata
      reads this
    {
      Metadata(streamName, position, globalPosition,
               causationMessageStreamName, causationMessagePosition, causationMessageGlobalPosition,
               correlationStreamName, replyStreamName, schemaVersion, properties, localProperties)
    }

    constructor (m: Metadata)
      ensures Value() == m
    {
      streamName := m.streamName;
      position := m.position;
      globalPosition := m.globalPosition;
      causationMessageStreamName := m.causationMessageStreamName;
      causationMessagePosition := m.causationMessagePosition;
      causationMessageGlobalPosition := m.causationMessageGlobalPosition;
      correlationStreamName := m.correlationStreamName;
      replyStreamName := m.replyStreamName;
      schemaVersion := m.schemaVersion;
      properties := m.properties;
      localProperties := m.localProperties;
    }

    /** `Metadata::follow`. Afterwards the record follows `preceding`
        exactly when that message has its three source fields. */
    method Follow(preceding: Metadata)
      modifies this
      ensures Value() == Followed(old(Value()), preceding)
      ensures Follows(Value(), preceding) <==>
        preceding.streamName.Some? && preceding.position.Some? && preceding.globalPosition.Some?
    {
      causationMessageStreamName := preceding.streamName;
      causationMessagePosition := preceding.position;
      causationMessageGlobalPosition := preceding.globalPosition;
      correlationStreamName := preceding.correlationStreamName;
      replyStreamName := preceding.replyStreamName;
      properties := properties + preceding.properties;
      FollowThenFollows(old(Value()), preceding);
    }

    /** `Metadata::clear_reply_stream_name`. */
    method ClearReplyStreamName()
      modifies this
      ensures Value() == ReplyCleared(old(Value()))
      ensures !IsReply(Value())
    {
      replyStreamName := None;
    }
  }
}
