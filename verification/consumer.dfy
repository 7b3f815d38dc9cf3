/** The category consumer (src/database/consumer.rs): the checkpoint stream
    name, the resume computation of `subscribe_to_category`, and the polling
    state machine of `CategoryStream::poll_next`.

    The message store, the timer and the futures are not modelled: each poll
    is told what the pending fetch and the in-flight checkpoint write did
    (still pending, or completed with a result) and how long ago the fetch
    started. */
module Consumer {
  import opened Errors
  import Json
  import Ids
  import Categories
  import StreamNames
  import MessageMetadata
  import opened Messages

  /** A `std::time::Duration`, in nanoseconds. */
  type Duration = nat

  /** `Duration::saturating_sub`. */
  function SaturatingSub(a: Duration, b: Duration): Duration
  {
    if a >= b then a - b else 0
  }

  /** The pause before the next fetch (`make_future`'s `sleep`): what is left
      of the poll interval once the last fetch's own duration is taken off.
      Fetch starts are thus one poll interval apart unless a fetch takes
      longer, and then the next starts at once. */
  lemma SleepKeepsCadence(pollInterval: Duration, elapsed: Duration)
    ensures SaturatingSub(pollInterval, elapsed) <= pollInterval
    ensures elapsed >= pollInterval <==> SaturatingSub(pollInterval, elapsed) == 0
    ensures elapsed <= pollInterval ==> elapsed + SaturatingSub(pollInterval, elapsed) == pollInterval
  {
  }

  /** The type tag of checkpoint streams and checkpoint messages. */
  const PositionType: string := "position"

  /** `SubscribeToCategoryOpts`. */
  datatype SubscribeOpts = SubscribeOpts(
    pollInterval: Duration,
    batchSize: Option<int>,
    positionUpdateInterval: nat,
    identifier: Option<string>,
    correlation: Option<string>,
    groupMember: Option<int>,
    groupSize: Option<int>,
    condition: Option<string>)

  /** The builder's defaults: a 100 ms poll interval and a checkpoint every
      100 messages. */
  const DefaultSubscribeOpts: SubscribeOpts :=
    SubscribeOpts(100_000_000, None, 100, None, None, None, None, None)

  /** The derived `SubscribeToCategoryOpts::default()`, which bypasses the
      builder: no pause between fetches and an interval of zero, so a
      checkpoint after every non-empty batch. */
  const DerivedDefaultSubscribeOpts: SubscribeOpts :=
    SubscribeOpts(0, None, 0, None, None, None, None, None)

  /** `GetCategoryMessagesOpts`: the parameters of one fetch. */
  datatype FetchOpts = FetchOpts(
    position: Option<int>,
    batchSize: Option<int>,
    correlation: Option<string>,
    consumerGroupMember: Option<int>,
    consumerGroupSize: Option<int>,
    condition: Option<string>)

  // ---------------------------------------------------------------------------
  // Checkpoint stream and checkpoint payload

  /** `MessageDb::position_stream_name`: the category with the `position`
      type appended when it is missing, and the consumer identifier, if any,
      parsed as the id. */
  function PositionStreamName(category: Categories.Category, identifier: Option<string>)
    : (r: Result<StreamNames.StreamName, Error>)
    ensures r.Err? <==> identifier.Some? && Ids.New(identifier.value).Err?
    ensures r.Err? ==> r.error == EmptyStreamID
    ensures r.Ok? ==> r.value.category.entityName == category.entityName
    ensures r.Ok? ==> PositionType in r.value.category.types
    ensures r.Ok? ==> category.types <= r.value.category.types
    ensures r.Ok? ==>
      |r.value.category.types| == |category.types| + (if PositionType in category.types then 0 else 1)
    ensures r.Ok? ==> (r.value.id.Some? <==> identifier.Some?)
    ensures r.Ok? && identifier.Some? ==> Ok(r.value.id.value) == Ids.New(identifier.value)
  {
    var types := if PositionType in category.types then category.types else category.types + [PositionType];
    var checkpointCategory := category.(types := types);
    match identifier
    case None => Ok(StreamNames.StreamName(checkpointCategory, None))
    case Some(text) =>
      match Ids.New(text)
      case Err(e) => Err(e)
      case Ok(id) => Ok(StreamNames.StreamName(checkpointCategory, Some(id)))
  }

  /** Deriving the checkpoint stream from a checkpoint stream's own category
      changes nothing: the `position` type is not added twice. */
  lemma PositionStreamNameIdempotent(category: Categories.Category, identifier: Option<string>, other: Option<string>)
    requires PositionStreamName(category, identifier).Ok?
    requires PositionStreamName(PositionStreamName(category, identifier).value.category, other).Ok?
    ensures PositionStreamName(PositionStreamName(category, identifier).value.category, other).value.category
         == PositionStreamName(category, identifier).value.category
  {
  }

  /** The checkpoint stream's name as text, from the category name the
      caller subscribes to (the first step of `subscribe_to_category`). */
  function CheckpointStreamName(categoryName: string, identifier: Option<string>): (r: Result<string, Error>)
    ensures r.Err? <==> identifier.Some? && Ids.New(identifier.value).Err?
    ensures r.Err? ==> r.error == EmptyStreamID
  {
    match PositionStreamName(Categories.Parse(categoryName).value, identifier)
    case Err(e) => Err(e)
    case Ok(streamName) => Ok(StreamNames.Format(streamName))
  }

  /** The checkpoint payload `Recorded { position }`. */
  datatype Recorded = Recorded(position: int)

  /** `serde_json::to_value(Recorded { position })`: `{"position": n}`. */
  function EncodeRecorded(recorded: Recorded): Json.Value
  {
    Json.Object(map["position" := Json.Number(recorded.position)])
  }

  /** `serde_json::from_value::<Recorded>`, as serde's derived decoder does
      it: an object needs a `position` field holding an `i64` (other fields
      are ignored); an array must hold exactly that one `i64`; anything else
      is refused. */
  function DecodeRecorded(value: Json.Value): (r: Result<Recorded, JsonError>)
    ensures r.Ok? ==> Json.InI64(r.value.position)
  {
    match value
    case Object(fields) =>
      if "position" !in fields then Err(JsonError("missing field `position`"))
      else DecodeI64(fields["position"])
    case Array(items) =>
      if items == [] then Err(JsonError("invalid length 0"))
      else (
        match DecodeI64(items[0])
        case Err(e) => Err(e)
        case Ok(recorded) =>
          if |items| == 1 then Ok(recorded) else Err(JsonError("fewer elements in array")))
    case _ => Err(JsonError("invalid type"))
  }

  function DecodeI64(value: Json.Value): (r: Result<Recorded, JsonError>)
    ensures r.Ok? <==> value.Number? && Json.InI64(value.n)
    ensures r.Ok? ==> r.value.position == value.n
  {
    match value
    case Number(n) => if Json.InI64(n) then Ok(Recorded(n)) else Err(JsonError("invalid value"))
    case _ => Err(JsonError("invalid type"))
  }

  /** The payload decodes back to the position it records, for every `i64`
      position, and extra object fields do not disturb it. */
  lemma RecordedRoundTrip(recorded: Recorded, extra: map<string, Json.Value>)
    requires Json.InI64(recorded.position)
    ensures DecodeRecorded(EncodeRecorded(recorded)) == Ok(recorded)
    ensures DecodeRecorded(Json.Object(extra + EncodeRecorded(recorded).fields)) == Ok(recorded)
  {
    var fields := extra + EncodeRecorded(recorded).fields;
    assert fields["position"] == Json.Number(recorded.position);
  }

  /** Where the next fetch resumes: the version the next checkpoint write
      expects, and the first global position to read. */
  datatype ResumePoint = ResumePoint(expectedVersion: int, startPosition: int)

  /** The resume computation of `subscribe_to_category`, from the last
      `position` message of the checkpoint stream: its stream position is the
      expected version, its recorded position plus one is where reading
      starts; with no checkpoint both are -1. A checkpoint that does not
      decode is an error. */
  function Resume(last: Option<GenericMessage>): (r: Result<ResumePoint, Error>)
    ensures last.None? ==> r == Ok(ResumePoint(-1, -1))
    ensures last.Some? ==> (r.Ok? <==> DecodeRecorded(last.value.data).Ok?)
    ensures r.Err? ==> r.error == Decode("recorded position")
    ensures last.Some? && r.Ok? ==>
      && r.value.expectedVersion == last.value.position
      && r.value.startPosition == DecodeRecorded(last.value.data).value.position + 1
  {
    var expectedVersion := match last case Some(m) => m.position case None => -1;
    match last
    case None => Ok(ResumePoint(expectedVersion, -1))
    case Some(m) =>
      match Messages.DeserializeData(m, DecodeRecorded)
      case Err(_) => Err(Decode("recorded position"))
      case Ok(recorded) => Ok(ResumePoint(expectedVersion, recorded.data.position + 1))
  }

  /** Everything `subscribe_to_category` computes before the stream exists:
      the checkpoint stream's name and the resume point, from the last
      checkpoint message that `readLast` (the message store's
      `get_last_stream_message`) returns for that stream. */
  function Subscription(categoryName: string, opts: SubscribeOpts,
                        readLast: string -> Result<Option<GenericMessage>, Error>)
    : (r: Result<(string, ResumePoint), Error>)
    ensures r.Ok? ==> CheckpointStreamName(categoryName, opts.identifier) == Ok(r.value.0)
    ensures r.Ok? ==> readLast(r.value.0).Ok? && Resume(readLast(r.value.0).value) == Ok(r.value.1)
    ensures CheckpointStreamName(categoryName, opts.identifier).Err? ==>
      r == Err(CheckpointStreamName(categoryName, opts.identifier).error)
    ensures (&& CheckpointStreamName(categoryName, opts.identifier).Ok?
             && readLast(CheckpointStreamName(categoryName, opts.identifier).value).Err?) ==>
      r == Err(readLast(CheckpointStreamName(categoryName, opts.identifier).value).error)
    ensures (&& CheckpointStreamName(categoryName, opts.identifier).Ok?
             && readLast(CheckpointStreamName(categoryName, opts.identifier).value).Ok?
             && Resume(readLast(CheckpointStreamName(categoryName, opts.identifier).value).value).Err?) ==>
      r == Err(Resume(readLast(CheckpointStreamName(categoryName, opts.identifier).value).value).error)
    ensures (&& CheckpointStreamName(categoryName, opts.identifier).Ok?
             && readLast(CheckpointStreamName(categoryName, opts.identifier).value).Ok?
             && Resume(readLast(CheckpointStreamName(categoryName, opts.identifier).value).value).Ok?) ==>
      r.Ok?
  {
    match CheckpointStreamName(categoryName, opts.identifier)
    case Err(e) => Err(e)
    case Ok(streamName) =>
      match readLast(streamName)
      case Err(e) => Err(e)
      case Ok(last) =>
        match Resume(last)
        case Err(e) => Err(e)
        case Ok(resume) => Ok((streamName, resume))
  }

  // ---------------------------------------------------------------------------
  // The polling state machine

  /** The checkpoint write `make_update_position_future` issues: a
      `position` message recording `position`, written to `streamName` only
      if that stream is at `expectedVersion`. */
  datatype CheckpointRequest = CheckpointRequest(streamName: string, position: int, expectedVersion: int)

  /** `WriteMessageOpts`: the message id, the metadata and the expected
      version of a write, each optional. */
  datatype WriteMessageOpts = WriteMessageOpts(
    id: Option<string>,
    metadata: Option<MessageMetadata.Metadata>,
    expectedVersion: Option<int>)

  /** The message write `write_consumer_position_to_stream` asks the message
      store for: a `position` message carrying `Recorded { position }`, with
      the caller's write options passed on unchanged. */
  datatype PositionWrite = PositionWrite(streamName: string, msgType: string, data: Json.Value, opts: WriteMessageOpts)

  function WriteConsumerPositionToStream(streamName: string, position: int, opts: WriteMessageOpts)
    : (w: PositionWrite)
    ensures w.streamName == streamName && w.msgType == PositionType && w.opts == opts
    ensures Json.InI64(position) ==> DecodeRecorded(w.data) == Ok(Recorded(position))
  {
    PositionWrite(streamName, PositionType, EncodeRecorded(Recorded(position)), opts)
  }

  /** `write_consumer_position`: the same write, to the checkpoint stream of
      a category and consumer identifier. */
  function WriteConsumerPosition(categoryName: string, identifier: Option<string>, position: int,
                                 opts: WriteMessageOpts)
    : (r: Result<PositionWrite, Error>)
    ensures r.Err? <==> CheckpointStreamName(categoryName, identifier).Err?
    ensures r.Err? ==> r.error == EmptyStreamID
    ensures r.Ok? ==>
      r.value == WriteConsumerPositionToStream(CheckpointStreamName(categoryName, identifier).value, position, opts)
  {
    match CheckpointStreamName(categoryName, identifier)
    case Err(e) => Err(e)
    case Ok(streamName) => Ok(WriteConsumerPositionToStream(streamName, position, opts))
  }

  /** `make_update_position_future`: the checkpoint as a write that succeeds
      only if the checkpoint stream is at the expected version, with no
      message id and no metadata. */
  function CheckpointWrite(request: CheckpointRequest): (w: PositionWrite)
    ensures w.streamName == request.streamName && w.msgType == PositionType
    ensures w.opts == WriteMessageOpts(None, None, Some(request.expectedVersion))
    ensures Json.InI64(request.position) ==> DecodeRecorded(w.data) == Ok(Recorded(request.position))
  {
    WriteConsumerPositionToStream(request.streamName, request.position,
                                  WriteMessageOpts(None, None, Some(request.expectedVersion)))
  }

  /** The fetch slot `fut`: a fetch armed with its options and the pause
      before it starts, or a fetch that completed while messages were still
      buffered, whose result was dropped. Polling an `async fn` future after
      it has completed panics. */
  datatype FetchSlot = Armed(opts: FetchOpts, sleep: Duration) | Exhausted

  /** The checkpoint slot `update_position_future`: empty, a write in flight,
      or a write whose completion was observed, and dropped, while messages
      were still buffered; the slot still holds that finished future. */
  datatype WriteSlot =
    | Idle
    | Writing(request: CheckpointRequest)
    | WriteExhausted(request: CheckpointRequest)

  /** What polling the fetch observed: not ready yet, or the batch result and
      the time since that fetch's query began, after its pause
      (`poll_time.elapsed()`). */
  datatype FetchPoll = FetchPending | Fetched(result: Result<seq<GenericMessage>, Error>, elapsed: Duration)

  /** What polling the checkpoint write observed. */
  datatype WritePoll = WritePending | Written(result: Result<int, Error>)

  /** `Poll<Option<Result<Message<T>>>>`, plus the panic of polling a
      completed future. The stream never ends, so `Ready(None)` is absent. */
  datatype PollResult<T> = Pending | Ready(item: Result<Message<T>, Error>) | Panicked

  /** The settings a stream keeps for its whole life. */
  datatype StreamConfig<T> = StreamConfig(
    pollInterval: Duration,
    positionUpdateInterval: nat,
    consumerStreamName: string,
    decode: Json.Value -> Result<T, JsonError>)

  /** The fields `poll_next` changes. */
  datatype EngineState<T> = EngineState(
    fetch: FetchSlot,
    messages: seq<Message<T>>,
    sinceUpdate: nat,
    expectedVersion: int,
    write: WriteSlot)

  /** What every reachable state satisfies: an armed fetch has a start
      position and a pause no longer than the poll interval; the counter is
      reset whenever it reaches the checkpoint interval; the checkpoint in
      the slot was issued for this stream with the version just before the
      current expected version. */
  ghost predicate Invariant<T>(c: StreamConfig<T>, s: EngineState<T>) {
    && (s.fetch.Armed? ==> s.fetch.opts.position.Some? && s.fetch.sleep <= c.pollInterval)
    && (s.sinceUpdate == 0 || s.sinceUpdate < c.positionUpdateInterval)
    && (!s.write.Idle? ==>
          s.write.request.streamName == c.consumerStreamName
          && s.write.request.expectedVersion == s.expectedVersion - 1)
  }

  /** The state `subscribe_to_category` builds: nothing buffered, no
      checkpoint in flight, and a first fetch armed at the resume position
      with no pause. */
  function InitialState<T>(opts: SubscribeOpts, resume: ResumePoint): EngineState<T>
  {
    EngineState(
      Armed(FetchOpts(Some(resume.startPosition), opts.batchSize, opts.correlation,
                      opts.groupMember, opts.groupSize, opts.condition), 0),
      [], 0, resume.expectedVersion, Idle)
  }

  /** The state `subscribe_to_category` builds satisfies the invariant,
      whatever the configuration. */
  lemma InitialStateSatisfiesInvariant<T>(c: StreamConfig<T>, opts: SubscribeOpts, resume: ResumePoint)
    ensures Invariant(c, InitialState(opts, resume))
  {
  }

  /** One `poll_next`, as a function of the state and of what the two
      futures did. The buffer's head is popped and both futures are polled
      before the buffer is looked at, so a completion seen while a message is
      buffered is dropped. */
  function Step<T>(c: StreamConfig<T>, s: EngineState<T>, fp: FetchPoll, wp: WritePoll)
    : (EngineState<T>, PollResult<T>)
  {
    var popped := s.(messages := if s.messages == [] then [] else s.messages[1..]);
    if s.fetch.Exhausted? then (popped, Panicked)
    else
      var polled := if fp.Fetched? then popped.(fetch := Exhausted) else popped;
      if s.write.WriteExhausted? then (polled, Panicked)
      else
        var written := s.write.Writing? && wp.Written?;
        if s.messages != [] then
          (polled.(write := if written then WriteExhausted(s.write.request) else s.write),
           Ready(Ok(s.messages[0])))
        else
          var cleared := polled.(write := if written then Idle else s.write);
          if fp.FetchPending? then (cleared, Pending)
          else Fetch(c, cleared, s.fetch.opts, fp.result, fp.elapsed)
  }

  /** The part of `poll_next` after a fetch completed with the buffer empty:
      re-arm the fetch, then inspect the batch. */
  function Fetch<T>(c: StreamConfig<T>, s: EngineState<T>, opts: FetchOpts,
                    result: Result<seq<GenericMessage>, Error>, elapsed: Duration)
    : (EngineState<T>, PollResult<T>)
  {
    var rearmed := Rearmed(c, s, opts, result, elapsed);
    match result
    case Err(e) => (rearmed, Ready(Err(e)))
    case Ok(batch) =>
      if batch == [] then (rearmed, Pending)
      else Deliver(c, rearmed, batch)
  }

  /** The fetch re-armed after a completion: the next fetch starts after the
      last message of a non-empty batch, and the pause is what is left of the
      poll interval. */
  function Rearmed<T>(c: StreamConfig<T>, s: EngineState<T>, opts: FetchOpts,
                      result: Result<seq<GenericMessage>, Error>, elapsed: Duration): EngineState<T>
  {
    var nextOpts :=
      if result.Ok? && result.value != []
      then opts.(position := Some(result.value[|result.value| - 1].globalPosition + 1))
      else opts;
    s.(fetch := Armed(nextOpts, SaturatingSub(c.pollInterval, elapsed)))
  }

  /** A non-empty batch with the buffer empty: count it, decode it, hand out
      its first message and buffer the rest. */
  function Deliver<T>(c: StreamConfig<T>, s: EngineState<T>, batch: seq<GenericMessage>)
    : (EngineState<T>, PollResult<T>)
    requires batch != []
  {
    var counted := Count(c, s, batch);
    match DeserializeMessages(batch, c.decode)
    case Err(e) => (counted, Ready(Err(e)))
    case Ok(decoded) => (counted.(messages := decoded[1..]), Ready(Ok(decoded[0])))
  }

  /** Counting a non-empty batch towards the next checkpoint, and issuing the
      checkpoint once the count reaches the interval. */
  function Count<T>(c: StreamConfig<T>, s: EngineState<T>, batch: seq<GenericMessage>): (r: EngineState<T>)
    requires batch != []
    ensures r.fetch == s.fetch && r.messages == s.messages
    ensures Invariant(c, s) ==> Invariant(c, r)
  {
    var count := s.sinceUpdate + |batch|;
    if count >= c.positionUpdateInterval then
      s.(sinceUpdate := 0,
         write := Writing(CheckpointRequest(c.consumerStreamName, batch[0].globalPosition, s.expectedVersion)),
         expectedVersion := s.expectedVersion + 1)
    else s.(sinceUpdate := count)
  }

  lemma StepPreservesInvariant<T>(c: StreamConfig<T>, s: EngineState<T>, fp: FetchPoll, wp: WritePoll)
    requires Invariant(c, s)
    ensures Invariant(c, Step(c, s, fp, wp).0)
  {
    if s.fetch.Armed? && !s.write.WriteExhausted? && s.messages == [] && fp.Fetched? {
      var cleared := s.(fetch := Exhausted, write := if s.write.Writing? && wp.Written? then Idle else s.write);
      assert Step(c, s, fp, wp) == Fetch(c, cleared, s.fetch.opts, fp.result, fp.elapsed);
      FetchPreservesInvariant(c, cleared, s.fetch.opts, fp.result, fp.elapsed);
    }
  }

  /** A completed fetch re-arms with a position and counts within the
      interval, whatever the batch. */
  lemma FetchPreservesInvariant<T>(c: StreamConfig<T>, s: EngineState<T>, opts: FetchOpts,
                                   result: Result<seq<GenericMessage>, Error>, elapsed: Duration)
    requires Invariant(c, s) && opts.position.Some?
    ensures Invariant(c, Fetch(c, s, opts, result, elapsed).0)
  {
  }

  /** A CategoryStream: the state `poll_next` works on. */
  class CategoryStream<T> {
    const categoryName: string
    const pollInterval: Duration
    const positionUpdateInterval: nat
    const consumerStreamName: string
    const decode: Json.Value -> Result<T, JsonError>
    var fut: FetchSlot
    var messages: seq<Message<T>>
    var messagesSinceLastPositionUpdate: nat
    var updatePositionFuture: WriteSlot
    var expectedPositionVersion: int

    function Config(): StreamConfig<T>
    {
      StreamConfig(pollInterval, positionUpdateInterval, consumerStreamName, decode)
    }

    function State(): EngineState<T>
      reads this
    {
      EngineState(fut, messages, messagesSinceLastPositionUpdate, expectedPositionVersion, updatePositionFuture)
    }

    ghost predicate Valid()
      reads this
    {
      Invariant(Config(), State())
    }

    /** The stream `subscribe_to_category` returns. */
    constructor (categoryName: string, opts: SubscribeOpts, consumerStreamName: string,
                 resume: ResumePoint, decode: Json.Value -> Result<T, JsonError>)
      ensures Valid()
      ensures Config() == StreamConfig(opts.pollInterval, opts.positionUpdateInterval, consumerStreamName, decode)
      ensures this.categoryName == categoryName
      ensures State() == InitialState(opts, resume)
    {
      this.categoryName := categoryName;
      this.pollInterval := opts.pollInterval;
      this.positionUpdateInterval := opts.positionUpdateInterval;
      this.consumerStreamName := consumerStreamName;
      this.decode := decode;
      fut := Armed(FetchOpts(Some(resume.startPosition), opts.batchSize, opts.correlation,
                             opts.groupMember, opts.groupSize, opts.condition), 0);
      messages := [];
      messagesSinceLastPositionUpdate := 0;
      updatePositionFuture := Idle;
      expectedPositionVersion := resume.expectedVersion;
    }

    /** `poll_next`, given what the fetch and the checkpoint write did. */
    method PollNext(fetchPoll: FetchPoll, writePoll: WritePoll) returns (r: PollResult<T>)
      requires Valid()
      modifies this
      ensures Valid()
      ensures (State(), r) == Step(Config(), old(State()), fetchPoll, writePoll)
    {
      var firstMessage: Option<Message<T>> := None;
      if messages != [] {
        firstMessage := Some(messages[0]);
        messages := messages[1..];
      }
      // Poll the fetch.
      if fut.Exhausted? {
        return Panicked;
      }
      var armedOpts := fut.opts;
      if fetchPoll.Fetched? {
        fut := Exhausted;
      }
      // Poll the checkpoint write.
      if updatePositionFuture.WriteExhausted? {
        return Panicked;
      }
      var positionWritten := updatePositionFuture.Writing? && writePoll.Written?;
      if positionWritten {
        updatePositionFuture := WriteExhausted(updatePositionFuture.request);
      }
      if firstMessage.Some? {
        return Ready(Ok(firstMessage.value));
      }
      if positionWritten {
        updatePositionFuture := Idle;
      }
      if fetchPoll.FetchPending? {
        return Pending;
      }
      r := FetchCompleted(armedOpts, fetchPoll.result, fetchPoll.elapsed);
    }

    /** The rest of `poll_next` once a fetch completed with the buffer
        empty: re-arm the fetch, count the batch, issue a checkpoint when
        the count reaches the interval, decode the batch and hand out its
        first message. */
    method FetchCompleted(armedOpts: FetchOpts, result: Result<seq<GenericMessage>, Error>, elapsed: Duration)
      returns (r: PollResult<T>)
      requires Invariant(Config(), State().(fetch := Armed(armedOpts, 0)))
      requires messages == []
      modifies this
      ensures Valid()
      ensures (State(), r) == Fetch(Config(), old(State()), armedOpts, result, elapsed)
    {
      var opts := armedOpts;
      if result.Ok? && result.value != [] {
        opts := opts.(position := Some(result.value[|result.value| - 1].globalPosition + 1));
      }
      fut := Armed(opts, SaturatingSub(pollInterval, elapsed));
      ghost var rearmed := State();
      assert rearmed == Rearmed(Config(), old(State()), armedOpts, result, elapsed);
      assert Invariant(Config(), rearmed);
      match result {
        case Err(e) =>
          return Ready(Err(e));
        case Ok(batch) =>
          if batch == [] {
            return Pending;
          }
          r := DeliverBatch(batch);
      }
    }

    /** Counts a non-empty batch, decodes it, hands out its first message and
        buffers the rest; a batch that does not decode is dropped. */
    method DeliverBatch(batch: seq<GenericMessage>) returns (r: PollResult<T>)
      requires batch != [] && messages == []
      requires Valid()
      modifies this
      ensures Valid()
      ensures (State(), r) == Deliver(Config(), old(State()), batch)
    {
      CountBatch(batch);
      var decoded := DeserializeMessages(batch, decode);
      if decoded.Err? {
        return Ready(Err(decoded.error));
      }
      messages := decoded.value;
      r := Ready(Ok(messages[0]));
      messages := messages[1..];
    }

    /** Counts a non-empty batch and, once the count reaches the interval,
        replaces the checkpoint slot with a write of the batch's first
        global position at the current expected version. */
    method CountBatch(batch: seq<GenericMessage>)
      requires batch != []
      modifies this
      ensures State() == Count(Config(), old(State()), batch)
    {
      messagesSinceLastPositionUpdate := messagesSinceLastPositionUpdate + |batch|;
      if messagesSinceLastPositionUpdate >= positionUpdateInterval {
        updatePositionFuture :=
          Writing(CheckpointRequest(consumerStreamName, batch[0].globalPosition, expectedPositionVersion));
        expectedPositionVersion := expectedPositionVersion + 1;
        messagesSinceLastPositionUpdate := 0;
      }
    }
  }

  /** `subscribe_to_category`: the setup, then a fresh stream. */
  method Subscribe<T>(categoryName: string, opts: SubscribeOpts,
                      readLast: string -> Result<Option<GenericMessage>, Error>,
                      decode: Json.Value -> Result<T, JsonError>)
    returns (r: Result<CategoryStream<T>, Error>)
    ensures r.Err? <==> Subscription(categoryName, opts, readLast).Err?
    ensures r.Err? ==> r.error == Subscription(categoryName, opts, readLast).error
    ensures r.Ok? ==>
      && fresh(r.value) && r.value.Valid()
      && r.value.categoryName == categoryName
      && r.value.Config() == StreamConfig(opts.pollInterval, opts.positionUpdateInterval,
                                          Subscription(categoryName, opts, readLast).value.0, decode)
      && r.value.consumerStreamName == Subscription(categoryName, opts, readLast).value.0
      && r.value.State() == InitialState(opts, Subscription(categoryName, opts, readLast).value.1)
  {
    match Subscription(categoryName, opts, readLast) {
      case Err(e) =>
        r := Err(e);
      case Ok((streamName, resume)) =>
        var stream := new CategoryStream(categoryName, opts, streamName, resume, decode);
        r := Ok(stream);
    }
  }
}
