/** What the category consumer promises, stated over `Consumer.Step`: the
    order messages are handed out in, where the next fetch starts, when
    checkpoints are written, what a checkpoint resumes to, and how a dropped
    completion ends the stream. */
module ConsumerProperties {
  import opened Errors
  import Json
  import opened Messages
  import opened Consumer
  import Text
  import Ids
  import Categories
  import StreamNames

  /** What one `poll_next` observed of the two futures. */
  datatype Poll = Poll(fetch: FetchPoll, write: WritePoll)

  const Quiet: Poll := Poll(FetchPending, WritePending)

  /** Successive polls of one stream: the final state and what each poll
      returned. */
  function Run<T>(c: StreamConfig<T>, s: EngineState<T>, polls: seq<Poll>)
    : (r: (EngineState<T>, seq<PollResult<T>>))
    ensures |r.1| == |polls|
    decreases |polls|
  {
    if polls == [] then (s, [])
    else
      var (next, result) := Step(c, s, polls[0].fetch, polls[0].write);
      var (last, results) := Run(c, next, polls[1..]);
      (last, [result] + results)
  }

  lemma {:induction false} RunPreservesInvariant<T>(c: StreamConfig<T>, s: EngineState<T>, polls: seq<Poll>)
    requires Invariant(c, s)
    ensures Invariant(c, Run(c, s, polls).0)
    decreases |polls|
  {
    if polls != [] {
      StepPreservesInvariant(c, s, polls[0].fetch, polls[0].write);
      RunPreservesInvariant(c, Step(c, s, polls[0].fetch, polls[0].write).0, polls[1..]);
    }
  }

  // ---------------------------------------------------------------------------
  // Buffered messages

  /** A buffered message is handed out before anything else happens, and
      whatever completed during that poll is dropped: a finished fetch
      leaves its slot exhausted, a finished checkpoint write leaves its
      slot holding the spent future. */
  lemma BufferedMessageFirst<T>(c: StreamConfig<T>, s: EngineState<T>, fp: FetchPoll, wp: WritePoll)
    requires s.fetch.Armed? && !s.write.WriteExhausted? && s.messages != []
    ensures Step(c, s, fp, wp).1 == Ready(Ok(s.messages[0]))
    ensures Step(c, s, fp, wp).0.messages == s.messages[1..]
    ensures Step(c, s, fp, wp).0.sinceUpdate == s.sinceUpdate
    ensures Step(c, s, fp, wp).0.expectedVersion == s.expectedVersion
    ensures fp.Fetched? <==> Step(c, s, fp, wp).0.fetch.Exhausted?
    ensures fp.FetchPending? ==> Step(c, s, fp, wp).0.fetch == s.fetch
    ensures s.write.Writing? && wp.Written? <==> Step(c, s, fp, wp).0.write.WriteExhausted?
  {
  }

  /** While neither future completes, the buffer is handed out in order, one
      message per poll, and nothing else changes. */
  lemma {:induction false} DrainsBufferInOrder<T>(c: StreamConfig<T>, s: EngineState<T>, polls: seq<Poll>)
    requires s.fetch.Armed? && !s.write.WriteExhausted?
    requires |polls| <= |s.messages|
    requires forall i :: 0 <= i < |polls| ==> polls[i] == Quiet
    ensures forall i :: 0 <= i < |polls| ==> Run(c, s, polls).1[i] == Ready(Ok(s.messages[i]))
    ensures Run(c, s, polls).0 == s.(messages := s.messages[|polls|..])
    decreases |polls|
  {
    if polls != [] {
      var next := Step(c, s, FetchPending, WritePending).0;
      assert polls[0] == Quiet;
      assert next == s.(messages := s.messages[1..]);
      DrainsBufferInOrder(c, next, polls[1..]);
      assert s.messages[1..][|polls| - 1..] == s.messages[|polls|..];
      forall i | 0 < i < |polls|
        ensures Run(c, s, polls).1[i] == Ready(Ok(s.messages[i]))
      {
        assert Run(c, s, polls).1[i] == Run(c, next, polls[1..]).1[i - 1];
      }
    }
  }

  // ---------------------------------------------------------------------------
  // A completed fetch

  /** With the buffer empty, a completed fetch re-arms the next one, waiting
      out the rest of the poll interval, with the same options except the
      position, which moves just past the batch's last message; the batch's
      messages, in ascending global order, are then all behind the new
      position. */
  lemma NextFetchFollowsBatch<T>(c: StreamConfig<T>, s: EngineState<T>,
                                 result: Result<seq<GenericMessage>, Error>, elapsed: Duration, wp: WritePoll)
    requires s.fetch.Armed? && !s.write.WriteExhausted? && s.messages == []
    ensures Step(c, s, Fetched(result, elapsed), wp).0.fetch.Armed?
    ensures Step(c, s, Fetched(result, elapsed), wp).0.fetch.sleep == SaturatingSub(c.pollInterval, elapsed)
    ensures Step(c, s, Fetched(result, elapsed), wp).0.fetch.opts.(position := s.fetch.opts.position) == s.fetch.opts
    ensures result.Ok? && result.value != [] ==>
      Step(c, s, Fetched(result, elapsed), wp).0.fetch.opts.position
        == Some(result.value[|result.value| - 1].globalPosition + 1)
    ensures !(result.Ok? && result.value != []) ==>
      Step(c, s, Fetched(result, elapsed), wp).0.fetch.opts.position == s.fetch.opts.position
    ensures result.Ok? && Ascending(result.value) ==>
      forall m :: m in result.value ==>
        m.globalPosition < Step(c, s, Fetched(result, elapsed), wp).0.fetch.opts.position.value
  {
    if result.Ok? && Ascending(result.value) {
      var batch := result.value;
      forall m | m in batch
        ensures m.globalPosition < batch[|batch| - 1].globalPosition + 1
      {
        var i :| 0 <= i < |batch| && batch[i] == m;
        if i < |batch| - 1 {
          assert batch[i].globalPosition < batch[|batch| - 1].globalPosition;
        }
      }
    }
  }

  /** Messages in the order the message store returns a category: strictly
      ascending global position. */
  predicate Ascending(batch: seq<GenericMessage>) {
    forall i, j :: 0 <= i < j < |batch| ==> batch[i].globalPosition < batch[j].globalPosition
  }

  /** A batch that decodes is handed out whole and in order: its first
      message now, the rest buffered behind it. */
  lemma DeliversDecodedBatch<T>(c: StreamConfig<T>, s: EngineState<T>,
                                batch: seq<GenericMessage>, elapsed: Duration, wp: WritePoll)
    requires s.fetch.Armed? && !s.write.WriteExhausted? && s.messages == [] && batch != []
    requires DeserializeMessages(batch, c.decode).Ok?
    ensures Step(c, s, Fetched(Ok(batch), elapsed), wp).1.Ready?
    ensures Step(c, s, Fetched(Ok(batch), elapsed), wp).1.item.Ok?
    ensures [Step(c, s, Fetched(Ok(batch), elapsed), wp).1.item.value] + Step(c, s, Fetched(Ok(batch), elapsed), wp).0.messages
         == DeserializeMessages(batch, c.decode).value
    ensures forall i :: 0 <= i < |batch| ==>
      ([Step(c, s, Fetched(Ok(batch), elapsed), wp).1.item.value] + Step(c, s, Fetched(Ok(batch), elapsed), wp).0.messages)[i]
        == Messages.DeserializeData(batch[i], c.decode).value
  {
    var decoded := DeserializeMessages(batch, c.decode).value;
    var cleared := s.(write := if s.write.Writing? && wp.Written? then Idle else s.write, fetch := Exhausted);
    var rearmed := Rearmed(c, cleared, s.fetch.opts, Ok(batch), elapsed);
    StepCompletesFetch(c, s, Ok(batch), elapsed, wp);
    FetchOfBatch(c, cleared, s.fetch.opts, batch, elapsed);
    assert Step(c, s, Fetched(Ok(batch), elapsed), wp)
        == (Count(c, rearmed, batch).(messages := decoded[1..]), Ready(Ok(decoded[0])));
    assert [decoded[0]] + decoded[1..] == decoded;
  }

  /** With the buffer empty, a completed fetch clears a finished write and
      goes on to `Fetch` from the slot's options. */
  lemma StepCompletesFetch<T>(c: StreamConfig<T>, s: EngineState<T>,
                              result: Result<seq<GenericMessage>, Error>, elapsed: Duration, wp: WritePoll)
    requires s.fetch.Armed? && !s.write.WriteExhausted? && s.messages == []
    ensures Step(c, s, Fetched(result, elapsed), wp)
         == Fetch(c, s.(write := if s.write.Writing? && wp.Written? then Idle else s.write, fetch := Exhausted),
                  s.fetch.opts, result, elapsed)
  {
  }

  /** An empty batch yields nothing and changes nothing but the re-armed
      fetch. */
  lemma EmptyBatchIsPending<T>(c: StreamConfig<T>, s: EngineState<T>, elapsed: Duration, wp: WritePoll)
    requires s.fetch.Armed? && !s.write.WriteExhausted? && s.messages == []
    ensures Step(c, s, Fetched(Ok([]), elapsed), wp).1 == Pending
    ensures Step(c, s, Fetched(Ok([]), elapsed), wp).0.sinceUpdate == s.sinceUpdate
    ensures Step(c, s, Fetched(Ok([]), elapsed), wp).0.expectedVersion == s.expectedVersion
    ensures Step(c, s, Fetched(Ok([]), elapsed), wp).0.messages == []
  {
  }

  /** A failed fetch is reported as the stream's item and retried from the
      same position. */
  lemma FetchErrorIsReported<T>(c: StreamConfig<T>, s: EngineState<T>, e: Error, elapsed: Duration, wp: WritePoll)
    requires s.fetch.Armed? && !s.write.WriteExhausted? && s.messages == []
    ensures Step(c, s, Fetched(Err(e), elapsed), wp).1 == Ready(Err(e))
    ensures Step(c, s, Fetched(Err(e), elapsed), wp).0.fetch.opts == s.fetch.opts
    ensures Step(c, s, Fetched(Err(e), elapsed), wp).0.messages == []
  {
  }

  /** A batch with a message that does not decode is reported as the error of
      the first such message, and the whole batch is skipped: nothing is
      buffered, yet the position moves past it and it counts towards the
      next checkpoint. */
  lemma UndecodableBatchIsSkipped<T>(c: StreamConfig<T>, s: EngineState<T>,
                                     batch: seq<GenericMessage>, elapsed: Duration, wp: WritePoll)
    requires s.fetch.Armed? && !s.write.WriteExhausted? && s.messages == [] && batch != []
    requires DeserializeMessages(batch, c.decode).Err?
    ensures exists k :: (0 <= k < |batch| && c.decode(batch[k].data).Err?
      && (forall j :: 0 <= j < k ==> c.decode(batch[j].data).Ok?)
      && Step(c, s, Fetched(Ok(batch), elapsed), wp).1 == Ready(Err(Error.DeserializeData(c.decode(batch[k].data).error))))
    ensures Step(c, s, Fetched(Ok(batch), elapsed), wp).0.messages == []
    ensures Step(c, s, Fetched(Ok(batch), elapsed), wp).0.fetch.opts.position
         == Some(batch[|batch| - 1].globalPosition + 1)
  {
    var err := DeserializeMessages(batch, c.decode).error;
    var k :| 0 <= k < |batch| && c.decode(batch[k].data).Err?
      && err == Error.DeserializeData(c.decode(batch[k].data).error)
      && (forall j :: 0 <= j < k ==> c.decode(batch[j].data).Ok?);
    var cleared := s.(write := if s.write.Writing? && wp.Written? then Idle else s.write, fetch := Exhausted);
    assert Step(c, s, Fetched(Ok(batch), elapsed), wp) == Fetch(c, cleared, s.fetch.opts, Ok(batch), elapsed);
    FetchUndecodable(c, cleared, s.fetch.opts, batch, elapsed);
  }

  lemma FetchUndecodable<T>(c: StreamConfig<T>, s: EngineState<T>, opts: FetchOpts,
                            batch: seq<GenericMessage>, elapsed: Duration)
    requires batch != [] && DeserializeMessages(batch, c.decode).Err?
    ensures Fetch(c, s, opts, Ok(batch), elapsed).1 == Ready(Err(DeserializeMessages(batch, c.decode).error))
    ensures Fetch(c, s, opts, Ok(batch), elapsed).0.messages == s.messages
    ensures Fetch(c, s, opts, Ok(batch), elapsed).0.fetch.opts.position == Some(batch[|batch| - 1].globalPosition + 1)
  {
    var rearmed := Rearmed(c, s, opts, Ok(batch), elapsed);
    var counted := Count(c, rearmed, batch);
    DeliverUndecodable(c, rearmed, batch);
    FetchOfBatch(c, s, opts, batch, elapsed);
    assert Fetch(c, s, opts, Ok(batch), elapsed) == (counted, Ready(Err(DeserializeMessages(batch, c.decode).error)));
    assert counted.fetch == rearmed.fetch && counted.messages == s.messages;
    assert rearmed.fetch.opts.position == Some(batch[|batch| - 1].globalPosition + 1);
  }

  lemma FetchOfBatch<T>(c: StreamConfig<T>, s: EngineState<T>, opts: FetchOpts,
                        batch: seq<GenericMessage>, elapsed: Duration)
    requires batch != []
    ensures Fetch(c, s, opts, Ok(batch), elapsed) == Deliver(c, Rearmed(c, s, opts, Ok(batch), elapsed), batch)
  {
  }

  lemma DeliverUndecodable<T>(c: StreamConfig<T>, s: EngineState<T>, batch: seq<GenericMessage>)
    requires batch != [] && DeserializeMessages(batch, c.decode).Err?
    ensures Deliver(c, s, batch) == (Count(c, s, batch), Ready(Err(DeserializeMessages(batch, c.decode).error)))
  {
  }

  // ---------------------------------------------------------------------------
  // Checkpoints

  /** The counter adds up the messages of every non-empty batch; once it
      reaches the interval a checkpoint of the batch's first global position
      is issued for the next expected version and the counter restarts,
      otherwise no checkpoint is issued. */
  lemma CheckpointCadence<T>(c: StreamConfig<T>, s: EngineState<T>,
                             batch: seq<GenericMessage>, elapsed: Duration, wp: WritePoll)
    requires s.fetch.Armed? && !s.write.WriteExhausted? && s.messages == [] && batch != []
    ensures s.sinceUpdate + |batch| >= c.positionUpdateInterval ==>
      && Step(c, s, Fetched(Ok(batch), elapsed), wp).0.write
           == Writing(CheckpointRequest(c.consumerStreamName, batch[0].globalPosition, s.expectedVersion))
      && Step(c, s, Fetched(Ok(batch), elapsed), wp).0.expectedVersion == s.expectedVersion + 1
      && Step(c, s, Fetched(Ok(batch), elapsed), wp).0.sinceUpdate == 0
    ensures s.sinceUpdate + |batch| < c.positionUpdateInterval ==>
      && Step(c, s, Fetched(Ok(batch), elapsed), wp).0.write
           == (if s.write.Writing? && wp.Written? then Idle else s.write)
      && Step(c, s, Fetched(Ok(batch), elapsed), wp).0.expectedVersion == s.expectedVersion
      && Step(c, s, Fetched(Ok(batch), elapsed), wp).0.sinceUpdate == s.sinceUpdate + |batch|
  {
  }

  /** An interval of zero does not turn checkpoints off: every non-empty
      batch issues one. */
  lemma ZeroIntervalCheckpointsEveryBatch<T>(c: StreamConfig<T>, s: EngineState<T>,
                                             batch: seq<GenericMessage>, elapsed: Duration, wp: WritePoll)
    requires c.positionUpdateInterval == 0
    requires s.fetch.Armed? && !s.write.WriteExhausted? && s.messages == [] && batch != []
    ensures Step(c, s, Fetched(Ok(batch), elapsed), wp).0.write.Writing?
    ensures Step(c, s, Fetched(Ok(batch), elapsed), wp).0.write.request.position == batch[0].globalPosition
  {
    CheckpointCadence(c, s, batch, elapsed, wp);
  }

  /** A stream configured by the derived `Default` options fetches again
      without pausing and checkpoints after every non-empty batch. */
  lemma DerivedDefaultsCheckpointEveryBatch<T>(c: StreamConfig<T>, s: EngineState<T>,
                                               batch: seq<GenericMessage>, elapsed: Duration, wp: WritePoll)
    requires c.pollInterval == DerivedDefaultSubscribeOpts.pollInterval
    requires c.positionUpdateInterval == DerivedDefaultSubscribeOpts.positionUpdateInterval
    requires s.fetch.Armed? && !s.write.WriteExhausted? && s.messages == [] && batch != []
    ensures Step(c, s, Fetched(Ok(batch), elapsed), wp).0.write
         == Writing(CheckpointRequest(c.consumerStreamName, batch[0].globalPosition, s.expectedVersion))
    ensures Step(c, s, Fetched(Ok(batch), elapsed), wp).0.fetch.Armed?
    ensures Step(c, s, Fetched(Ok(batch), elapsed), wp).0.fetch.sleep == 0
  {
    CheckpointCadence(c, s, batch, elapsed, wp);
    NextFetchFollowsBatch(c, s, Ok(batch), elapsed, wp);
  }

  /** A stream configured by the builder's defaults pauses for what is left
      of 100 ms, and from a fresh counter checkpoints only once a batch brings
      100 messages. */
  lemma BuilderDefaultsCheckpointEveryHundred<T>(c: StreamConfig<T>, s: EngineState<T>,
                                                 batch: seq<GenericMessage>, elapsed: Duration, wp: WritePoll)
    requires c.pollInterval == DefaultSubscribeOpts.pollInterval
    requires c.positionUpdateInterval == DefaultSubscribeOpts.positionUpdateInterval
    requires s.fetch.Armed? && !s.write.WriteExhausted? && s.messages == [] && batch != []
    requires s.sinceUpdate == 0
    ensures Step(c, s, Fetched(Ok(batch), elapsed), wp).0.fetch.sleep == SaturatingSub(100_000_000, elapsed)
    ensures |batch| < 100 ==>
      && Step(c, s, Fetched(Ok(batch), elapsed), wp).0.sinceUpdate == |batch|
      && Step(c, s, Fetched(Ok(batch), elapsed), wp).0.expectedVersion == s.expectedVersion
    ensures |batch| >= 100 ==>
      && Step(c, s, Fetched(Ok(batch), elapsed), wp).0.write
           == Writing(CheckpointRequest(c.consumerStreamName, batch[0].globalPosition, s.expectedVersion))
      && Step(c, s, Fetched(Ok(batch), elapsed), wp).0.sinceUpdate == 0
  {
    CheckpointCadence(c, s, batch, elapsed, wp);
    NextFetchFollowsBatch(c, s, Ok(batch), elapsed, wp);
  }

  /** A new checkpoint replaces one still in flight: the earlier write is
      dropped, not awaited. */
  lemma CheckpointReplacesInFlightWrite<T>(c: StreamConfig<T>, s: EngineState<T>,
                                           batch: seq<GenericMessage>, elapsed: Duration)
    requires Invariant(c, s)
    requires s.fetch.Armed? && s.write.Writing? && s.messages == [] && batch != []
    requires s.sinceUpdate + |batch| >= c.positionUpdateInterval
    ensures Step(c, s, Fetched(Ok(batch), elapsed), WritePending).0.write.Writing?
    ensures Step(c, s, Fetched(Ok(batch), elapsed), WritePending).0.write.request != s.write.request
  {
    CheckpointCadence(c, s, batch, elapsed, WritePending);
  }

  /** A completed checkpoint write, whatever its result, never yields an
      item: with the buffer empty and the fetch pending it only clears the
      slot. */
  lemma WriteCompletionOnlyClearsSlot<T>(c: StreamConfig<T>, s: EngineState<T>, w: Result<int, Error>)
    requires s.fetch.Armed? && s.write.Writing? && s.messages == []
    ensures Step(c, s, FetchPending, Written(w)) == (s.(write := Idle), Pending)
  {
  }

  /** A message the message store keeps for a position write: the write's
      type and data, at the stream position after the expected version when
      the write had one. */
  predicate Stored(m: GenericMessage, w: PositionWrite) {
    && m.msgType == w.msgType
    && m.data == w.data
    && (w.opts.expectedVersion.Some? ==> m.position == w.opts.expectedVersion.value + 1)
  }

  /** Resuming from a stored position write starts just after the position it
      records, and the next checkpoint expects the stored message's version. */
  lemma ResumeFromStoredPosition(streamName: string, position: int, opts: WriteMessageOpts, m: GenericMessage)
    requires Json.InI64(position)
    requires Stored(m, WriteConsumerPositionToStream(streamName, position, opts))
    ensures Resume(Some(m)) == Ok(ResumePoint(m.position, position + 1))
    ensures opts.expectedVersion.Some? ==> Resume(Some(m)).value.expectedVersion == opts.expectedVersion.value + 1
  {
  }

  /** Resuming from a stored checkpoint of the stream. */
  lemma ResumeFromCheckpoint(request: CheckpointRequest, m: GenericMessage)
    requires Json.InI64(request.position)
    requires Stored(m, CheckpointWrite(request))
    ensures Resume(Some(m)) == Ok(ResumePoint(request.expectedVersion + 1, request.position + 1))
  {
    ResumeFromStoredPosition(request.streamName, request.position, WriteMessageOpts(None, None, Some(request.expectedVersion)), m);
  }

  /** A restart from the checkpoint in flight continues the version count
      the running stream had. */
  lemma RestartKeepsVersion<T>(c: StreamConfig<T>, s: EngineState<T>, m: GenericMessage)
    requires Invariant(c, s) && s.write.Writing?
    requires Json.InI64(s.write.request.position)
    requires Stored(m, CheckpointWrite(s.write.request))
    ensures Resume(Some(m)).Ok?
    ensures Resume(Some(m)).value.expectedVersion == s.expectedVersion
  {
    ResumeFromCheckpoint(s.write.request, m);
  }

  /** A checkpoint records a batch's first message, so a restart from it
      fetches every later message of that batch again. */
  lemma RestartRefetchesBatchTail(batch: seq<GenericMessage>, request: CheckpointRequest, m: GenericMessage)
    requires Ascending(batch) && batch != []
    requires request.position == batch[0].globalPosition && Json.InI64(request.position)
    requires Stored(m, CheckpointWrite(request))
    ensures Resume(Some(m)).Ok?
    ensures forall i :: 0 < i < |batch| ==> Resume(Some(m)).value.startPosition <= batch[i].globalPosition
    ensures Resume(Some(m)).value.startPosition > batch[0].globalPosition
  {
    ResumeFromCheckpoint(request, m);
  }

  // ---------------------------------------------------------------------------
  // Dropped completions

  /** Once a fetch completion has been dropped, every later poll panics, even
      with messages still buffered. */
  lemma {:induction false} ExhaustedFetchPanics<T>(c: StreamConfig<T>, s: EngineState<T>, polls: seq<Poll>)
    requires s.fetch.Exhausted?
    ensures forall i :: 0 <= i < |polls| ==> Run(c, s, polls).1[i] == Panicked
    decreases |polls|
  {
    if polls != [] {
      var next := Step(c, s, polls[0].fetch, polls[0].write).0;
      ExhaustedFetchPanics(c, next, polls[1..]);
      forall i | 0 < i < |polls|
        ensures Run(c, s, polls).1[i] == Panicked
      {
        assert Run(c, s, polls).1[i] == Run(c, next, polls[1..]).1[i - 1];
      }
    }
  }

  /** The same for a dropped checkpoint completion. */
  lemma {:induction false} ExhaustedWritePanics<T>(c: StreamConfig<T>, s: EngineState<T>, polls: seq<Poll>)
    requires s.write.WriteExhausted?
    ensures forall i :: 0 <= i < |polls| ==> Run(c, s, polls).1[i] == Panicked
    decreases |polls|
  {
    if polls != [] {
      var next := Step(c, s, polls[0].fetch, polls[0].write).0;
      if next.fetch.Exhausted? {
        ExhaustedFetchPanics(c, next, polls[1..]);
      } else {
        ExhaustedWritePanics(c, next, polls[1..]);
      }
      forall i | 0 < i < |polls|
        ensures Run(c, s, polls).1[i] == Panicked
      {
        assert Run(c, s, polls).1[i] == Run(c, next, polls[1..]).1[i - 1];
      }
    }
  }

  /** A fetch that completes while a message is buffered: that message is
      handed out, the fetched batch is lost, and the very next poll panics. */
  lemma FetchDuringDrainPanicsNext<T>(c: StreamConfig<T>, s: EngineState<T>,
                                      result: Result<seq<GenericMessage>, Error>, elapsed: Duration,
                                      wp: WritePoll, later: Poll)
    requires s.fetch.Armed? && !s.write.WriteExhausted? && s.messages != []
    ensures Run(c, s, [Poll(Fetched(result, elapsed), wp), later]).1
         == [Ready(Ok(s.messages[0])), Panicked]
  {
  }

  // ---------------------------------------------------------------------------
  // Checkpoint stream names

  /** A category without types gets the `position` type:
      `entity:position-identifier`. */
  lemma CheckpointStreamNameOfEntity(entity: string, identifier: string)
    requires ':' !in entity
    requires Ids.New(identifier).Ok?
    ensures CheckpointStreamName(entity, Some(identifier)) == Ok(entity + ":position-" + identifier)
  {
    var parsed := Categories.Category(entity, []);
    CheckpointStreamText(entity, parsed, identifier);
    EntityPositionFormat(entity);
    assert entity + ":position" + ['-'] + identifier == entity + ":position-" + identifier;
  }

  lemma EntityPositionFormat(entity: string)
    ensures Categories.Format(PositionStreamName(Categories.Category(entity, []), None).value.category)
         == entity + ":position"
  {
    var category := Categories.Category(entity, [PositionType]);
    assert PositionStreamName(Categories.Category(entity, []), None).value.category == category;
    assert Categories.Format(category) == entity + [':'] + PositionType;
  }

  /** A category with types gets `position` as one more type:
      `entity:types+position-identifier`. */
  lemma CheckpointStreamNameOfTypedCategory(entity: string, types: string, identifier: string)
    requires ':' !in entity
    requires PositionType !in Text.Split(types, '+')
    requires Ids.New(identifier).Ok?
    ensures CheckpointStreamName(entity + ":" + types, Some(identifier))
         == Ok(entity + ":" + types + "+position-" + identifier)
  {
    var text := entity + ":" + types;
    var parsed := Categories.Category(entity, Text.Split(types, '+'));
    var formatted := Categories.Format(PositionStreamName(parsed, None).value.category);
    ParseTypedCategory(entity, types);
    CheckpointStreamText(text, parsed, identifier);
    assert formatted + ['-'] + identifier == text + "+position-" + identifier by {
      AppendedPositionFormat(entity, types);
    }
  }

  lemma ParseTypedCategory(entity: string, types: string)
    requires ':' !in entity
    ensures Categories.Parse(entity + ":" + types) == Ok(Categories.Category(entity, Text.Split(types, '+')))
  {
    assert entity + ":" + types == entity + [':'] + types;
    Categories.ParseAt(entity, types);
  }

  lemma AppendedPositionFormat(entity: string, types: string)
    requires PositionType !in Text.Split(types, '+')
    ensures Categories.Format(PositionStreamName(Categories.Category(entity, Text.Split(types, '+')), None).value.category)
         == entity + ":" + types + "+position"
  {
    var parts := Text.Split(types, '+');
    AddedPositionType(entity, parts);
    var joined := Text.Join(parts + [PositionType], '+');
    assert joined == types + ['+'] + PositionType by {
      Text.JoinSplit(types, '+');
      Text.JoinAppend(parts, PositionType, '+');
    }
    TypedFormat(entity, parts + [PositionType]);
    assert entity + [':'] + (types + ['+'] + PositionType) == entity + ":" + types + "+position";
  }

  lemma AddedPositionType(entity: string, parts: seq<string>)
    requires PositionType !in parts
    ensures PositionStreamName(Categories.Category(entity, parts), None).value.category
         == Categories.Category(entity, parts + [PositionType])
  {
  }

  lemma TypedFormat(entity: string, types: seq<string>)
    requires types != []
    ensures Categories.Format(Categories.Category(entity, types)) == entity + [':'] + Text.Join(types, '+')
  {
  }

  /** A category that already has the `position` type is kept as it is. */
  lemma CheckpointStreamNameOfCheckpointCategory(entity: string, types: string, identifier: string)
    requires ':' !in entity
    requires PositionType in Text.Split(types, '+')
    requires Ids.New(identifier).Ok?
    ensures CheckpointStreamName(entity + ":" + types, Some(identifier))
         == Ok(entity + ":" + types + "-" + identifier)
  {
    var text := entity + ":" + types;
    var parsed := Categories.Category(entity, Text.Split(types, '+'));
    ParseTypedCategory(entity, types);
    CheckpointStreamText(text, parsed, identifier);
    assert Categories.Format(PositionStreamName(parsed, None).value.category) + ['-'] + identifier
        == text + "-" + identifier by {
      KeptPositionFormat(entity, types);
    }
  }

  lemma KeptPositionFormat(entity: string, types: string)
    requires PositionType in Text.Split(types, '+')
    ensures Categories.Format(PositionStreamName(Categories.Category(entity, Text.Split(types, '+')), None).value.category)
         == entity + ":" + types
  {
    var parsed := Categories.Category(entity, Text.Split(types, '+'));
    assert PositionStreamName(parsed, None).value.category == parsed;
    Text.JoinSplit(types, '+');
    assert Categories.Format(parsed) == entity + [':'] + types;
  }

  /** The checkpoint stream's text: the checkpoint category of the parsed
      category name, a dash, and the identifier as written. */
  lemma CheckpointStreamText(text: string, parsed: Categories.Category, identifier: string)
    requires Categories.Parse(text) == Ok(parsed)
    requires Ids.New(identifier).Ok?
    ensures CheckpointStreamName(text, Some(identifier))
         == Ok(Categories.Format(PositionStreamName(parsed, None).value.category) + ['-'] + identifier)
  {
    var id := Ids.New(identifier).value;
    Ids.FormatNew(identifier);
    var sn := PositionStreamName(parsed, Some(identifier)).value;
    assert sn == StreamNames.StreamName(PositionStreamName(parsed, None).value.category, Some(id));
    assert StreamNames.Format(sn) == Categories.Format(sn.category) + ['-'] + Ids.Format(id);
  }
}
