# message-db: stream names, metadata, messages and the category consumer

A Dafny model of the core of the `message-db` Rust client for the Message DB
event store. It covers four parts.

- **Stream-name grammar** (`entity[:type[+type]*][-id[+id]*]`). Modules
  `Ids`, `Categories` and `StreamNames` cover parsing, formatting and the two
  helpers `is_category` and `category`. They are built from Rust's `split`,
  `split_once` and the `Display` join loops, which live in module `Text`.
- **Message metadata** (module `MessageMetadata`). It covers:
  - the `stream/position` identifiers;
  - the provenance operations `follow` and `follows`;
  - the reply helpers and `is_correlated`;
  - reading metadata from an optional JSON value.

  Metadata is a value, because every message embeds one. `MetadataRecord` is
  the same record as a mutable object. Its two in-place methods are proved
  against the value functions.
- **Message payloads** (module `Messages`). `map_data` and
  `deserialize_data` change only `data`. Decoding a batch is all-or-nothing,
  and the first failing message's error wins. JSON decoding into the caller's
  type is a partial function passed in as a parameter.
- **The category consumer** (modules `Consumer` and `ConsumerProperties`).
  It covers:
  - the checkpoint stream name `position_stream_name`;
  - the `Recorded { position }` checkpoint payload;
  - the resume computation of `subscribe_to_category`;
  - `write_consumer_position`;
  - the polling state machine of `CategoryStream::poll_next`.

  `CategoryStream` is a class, and `PollNext` updates its fields in place.
  Its postcondition ties the new state and the result to the pure
  specification `Step`. The properties of polling are lemmas about `Step`,
  or about `Run`, its iteration over a sequence of polls. The properties of
  the setup are lemmas about `Resume` (the resume point) and
  `CheckpointStreamName` (the checkpoint stream's name).

The consumer does no I/O here. Each poll is told what the pending fetch did:
still pending, or completed with an error or a batch, together with the time
elapsed since that fetch's query began. It is also told whether the
in-flight checkpoint write completed. The message store's
`get_last_stream_message` is a function parameter of `Subscribe`.

Where the code's behaviour differs from what its names and documentation suggest, the model follows the code:

- `Category::from_str` never refuses an empty entity name, so `""` and
  `":type"` parse. Only `Category::new` refuses one.
- `StreamName::is_category` is true when the text *contains* `-`. Its
  doc comment (src/stream_name.rs:98) says the opposite. This makes the category
  branch of `is_correlated` dead (see Findings).
- A checkpoint interval of 0 does not disable checkpointing. Every non-empty
  batch issues a checkpoint.
- A new checkpoint write replaces one still in flight. It does not wait for
  it.
- Both futures are polled before the buffer is looked at. A fetch or
  checkpoint completion observed while messages are still buffered is
  dropped. Polling that finished future again, on the next poll, panics.
  The model returns `Panicked` for that poll.
- A checkpoint records the global position of the batch's first message, at
  the moment the batch is fetched, and resuming starts one past it. A
  restart therefore fetches the rest of that batch again, but not its first
  message.
- A batch with a message that does not decode is reported as one error and
  skipped as a whole. The fetch position and the checkpoint counter have
  already moved past it.

## Model

| member | source | states |
|---|---|---|
| Text.Split | src/stream_name/id.rs:18-21 | `split` yields at least one piece, and no piece contains the separator |
| Text.SplitOnce | src/stream_name/category.rs:37 | `split_once` finds nothing exactly when the separator is absent; otherwise the pieces rebuild the text around its first separator |
| Text.JoinSplit | src/stream_name/id.rs:51-61 | joining the pieces of a split gives back the text |
| Text.SplitJoin | src/stream_name/id.rs:18-21 | splitting a join of separator-free parts gives back the parts |
| Ids.AnyEmpty | src/stream_name/id.rs:27 | true exactly when some component is empty |
| Ids.NewCompound | src/stream_name/id.rs:26-36 | succeeds exactly for a non-empty list with no empty component, keeps the components as given, otherwise fails with `EmptyStreamID` |
| Ids.New | src/stream_name/id.rs:13-24 | the empty text fails with `EmptyStreamID`; an accepted id has at least one component, none empty and none containing `+` |
| Ids.NewOkIff | src/stream_name/id.rs:13-31 | a text is accepted exactly when it is non-empty, does not start or end with `+` and has no `++` |
| Ids.FormatNew | src/stream_name/id.rs:13-24 | formatting a parsed id reproduces the text |
| Ids.NewFormat | src/stream_name/id.rs:18-31 | parsing a formatted id with non-empty, `+`-free components gives the id back |
| Ids.Format | src/stream_name/id.rs:51-61 | the components joined with `+`; `FormatNew` and `NewFormat` state that it inverts `New` |
| Ids.CardinalId | src/stream_name/id.rs:38-40 | the first component, for an id that has one; `CardinalIdOfNew` states what it is for a parsed id |
| Ids.CardinalIdOfNew | src/stream_name/id.rs:38-40 | the cardinal id of a parsed id is non-empty and `+`-free: the text before the first `+`, or the whole text |
| Ids.RejectedIds | src/stream_name/id.rs:14-16 | `""`, `"a+"`, `"+a"` and `"a++b"` are refused with `EmptyStreamID` |
| Ids.CompoundIdExample | src/stream_name/id.rs:51-61 | `"id_a+id_b"` parses to the two components and formats back |
| Categories.New | src/stream_name/category.rs:18-25 | fails with `EmptyStreamName` exactly when the entity name is empty, otherwise stores both fields unchanged |
| Categories.Parse | src/stream_name/category.rs:33-51 | never fails; without `:` the whole text is the entity and there are no types; with `:` the entity is the `:`-free text before the first `:`, with at least one `+`-free type |
| Categories.ParseAt | src/stream_name/category.rs:37-44 | the text before the first `:` is the entity, and the rest split on `+` gives the types |
| Categories.Format | src/stream_name/category.rs:53-67 | the entity name, then `:` and the `+`-joined types only when there are types; `FormatParse` and `ParseFormat` state that it inverts `Parse` |
| Categories.FormatParse | src/stream_name/category.rs:36-67 | every text is reproduced by formatting its parse |
| Categories.ParseFormat | src/stream_name/category.rs:36-67 | a category with a `:`-free entity and `+`-free types is given back by parsing its text |
| Categories.ParseAcceptsEmptyEntityName | src/stream_name/category.rs:18-25 | `""` and `":type"` parse to an empty entity name, although `new` refuses both |
| Categories.FormatExample | src/stream_name/category.rs:53-67 | `account` with types `command`, `snapshot` formats as `account:command+snapshot` |
| StreamNames.IsCategory | src/stream_name.rs:98-101 | true exactly when the text contains `-` (as coded) |
| StreamNames.CategoryPart | src/stream_name.rs:103-109 | the text before the first `-` (a `-`-free prefix that the first `-` follows), or the whole text exactly when it has no `-` |
| StreamNames.Parse | src/stream_name.rs:124-145 | fails (with `EmptyStreamID`) exactly when there is a `-` and the text after the first one is not a valid id; the id is present exactly when the text has `-`; the category is the parse of the text before the first `-` |
| StreamNames.Format | src/stream_name.rs:112-122 | the category's text, then `-` and the id's text only when there is an id; `FormatParse` and `ParseFormat` state that it inverts `Parse` |
| StreamNames.FormatParse | src/stream_name.rs:112-145 | every text that parses is reproduced by formatting its parse |
| StreamNames.ParseFormat | src/stream_name.rs:124-145 | a stream name whose category round-trips and has no `-`, and whose id components are non-empty and `+`-free, is given back by parsing its text |
| StreamNames.ParseAcceptsEmptyEntityName | src/stream_name.rs:139-143 | `""` and `":type"` parse as category stream names with an empty entity name |
| StreamNames.ParseRejectsEmptyIds | src/stream_name.rs:129-133 | `"cat-"` and `"cat-id+"` are refused with `EmptyStreamID` |
| StreamNames.ParseSplitsAtFirstDash | src/stream_name.rs:127-137 | for a `-`-free category text, everything after the first `-`, dashes included, is parsed as the id |
| StreamNames.FormatExamples | src/stream_name.rs:189-212 | the three formatting examples of the module's test with the single id `id` |
| StreamNames.CompoundFormatExamples | src/stream_name.rs:214-228 | the two formatting examples of the module's test with the compound id `id_a+id_b` |
| StreamNames.ExampleCategoriesParse | src/stream_name.rs:190-222 | the test's category texts `category`, `category:type_a` and `category:type_a+type_b` parse to the categories the examples format |
| StreamNames.ExampleIdsParse | src/stream_name.rs:191-223 | the test's id texts `id` and `id_a+id_b` parse to the ids the examples format |
| MessageMetadata.FormatIdentifier | src/message/metadata.rs:60-63 | `stream/position` with the position in decimal; `ParseFormatIdentifier` states that `ParseIdentifier` reads it back |
| MessageMetadata.ParseIdentifier | src/message/metadata.rs:60-63 | the model's reading of an identifier: the text before the last `/` and the decimal integer after it; it inverts `FormatIdentifier` (`ParseFormatIdentifier`) |
| MessageMetadata.ParseFormatIdentifier | src/message/metadata.rs:60-63 | a `stream/position` identifier reads back as the stream name and the position |
| MessageMetadata.Identifier | src/message/metadata.rs:60-63 | present exactly when stream name and position both are, and it reads back as those two |
| MessageMetadata.CausationMessageIdentifier | src/message/metadata.rs:71-77 | present exactly when causation stream name and position both are, and it reads back as those two |
| MessageMetadata.Followed | src/message/metadata.rs:108-118 | causation fields become the preceding message's own fields; correlation and reply are taken over; the preceding properties override; every other field is unchanged |
| MessageMetadata.Follows | src/message/metadata.rs:125-166 | the check chain holds exactly when the three causation fields are present and equal to the preceding message's fields, and correlation and reply agree wherever the preceding message has them |
| MessageMetadata.FollowThenFollows | src/message/metadata.rs:108-166 | after following a message, the metadata follows it exactly when that message has stream name, position and global position |
| MessageMetadata.IsReply | src/message/metadata.rs:174-176 | true exactly when a reply stream name is set; `ReplyCleared` makes it false and `FromJson` of no value is not a reply |
| MessageMetadata.ReplyCleared | src/message/metadata.rs:169-176 | afterwards the metadata is not a reply, and only the reply stream name changed |
| MessageMetadata.MetadataRecord.Follow | src/message/metadata.rs:108-118 | the in-place update yields the followed metadata, which then follows the preceding message exactly when its three source fields are present |
| MessageMetadata.MetadataRecord.ClearReplyStreamName | src/message/metadata.rs:169-171 | the in-place update yields the cleared metadata, which is not a reply |
| MessageMetadata.IsCorrelated | src/message/metadata.rs:179-191 | `is_correlated` as coded: no correlation stream never correlates; a normalised argument with `-` is compared with the category part of the correlation stream, any other with the whole name; `IsCorrelatedAsCoded` states what this comes to |
| MessageMetadata.IsCorrelatedAsCoded | src/message/metadata.rs:179-191 | as coded, `is_correlated` holds exactly when the normalised argument has no `-` and equals the correlation stream name |
| MessageMetadata.IsCorrelatedMissesCategory | src/message/metadata.rs:179-191 | a message correlated with `category-id` is not reported as correlated with `category` |
| MessageMetadata.IsCorrelatedIntendedMatches | src/message/metadata.rs:179-191 | with `is_category` as documented, both the category and the exact correlation stream match, and no metadata without a correlation stream does |
| MessageMetadata.FromJson | src/message/metadata.rs:194-202 | no value gives the default metadata (no identifier, not a reply); a value is decoded |
| Messages.MapData | src/message.rs:120-135 | every field but `data` is kept, and `data` becomes `f` of the old data |
| Messages.MapDataIdentity | src/message.rs:120-135 | mapping the identity gives back the message |
| Messages.MapDataCompose | src/message.rs:120-135 | mapping `f` then `g` equals mapping their composition |
| Messages.DeserializeData | src/message.rs:140-155 | fails exactly when the data does not decode, with the decoder's error; otherwise only `data` changes, to the decoded value |
| Messages.DeserializeMessages | src/message.rs:180-191 | succeeds exactly when every message decodes, then keeps length and order; otherwise fails with `DeserializeData` of the first message that does not decode |
| Messages.DeserializeOptional | src/message.rs:167-177 | nothing stays nothing; a message decodes or fails with `DeserializeData` |
| Consumer.SleepKeepsCadence | src/database/consumer.rs:275 | the pause never exceeds the poll interval, is zero exactly when the fetch took the whole interval, and otherwise completes the interval |
| Consumer.PositionStreamName | src/database/consumer.rs:53-66 | `position` is appended to the types exactly when missing, existing types and entity kept; the id is the parsed identifier; fails exactly when the identifier is not a valid id |
| Consumer.PositionStreamNameIdempotent | src/database/consumer.rs:59-61 | deriving the checkpoint stream from a checkpoint category leaves the category unchanged |
| Consumer.CheckpointStreamName | src/database/consumer.rs:123-124 | the checkpoint stream's text fails exactly when the identifier is not a valid id |
| Consumer.DecodeRecorded | src/database/consumer.rs:44-49 | a decoded checkpoint position is within `i64` |
| Consumer.DecodeI64 | src/database/consumer.rs:47-48 | accepts exactly the JSON integers within `i64`, keeping their value |
| Consumer.RecordedRoundTrip | src/database/consumer.rs:200-205 | the checkpoint payload decodes back to its position, also with extra fields |
| Consumer.EncodeRecorded | src/database/consumer.rs:200-205 | the derived serialisation of `Recorded`: an object with the one field `position`; `RecordedRoundTrip` states that `DecodeRecorded` reads it back |
| Consumer.Resume | src/database/consumer.rs:127-140 | no checkpoint gives version -1 and start -1; otherwise the version is the checkpoint's stream position and the start is the recorded position plus one; an undecodable checkpoint is `Decode("recorded position")` |
| Consumer.Subscription | src/database/consumer.rs:123-140 | the setup succeeds exactly when the stream name, the read of the last message and its decoding all succeed, with the checkpoint stream's name and the resume point of that message; otherwise it fails with the error of the first failing step: the stream name, then reading the last message, then decoding it |
| Consumer.WriteConsumerPositionToStream | src/database/consumer.rs:191-209 | a `position` message to the given stream whose data decodes to the position, with the caller's write options (message id, metadata, expected version) passed on unchanged |
| Consumer.WriteConsumerPosition | src/database/consumer.rs:175-188 | the same write to the category's checkpoint stream; fails exactly when that stream name does |
| Consumer.CheckpointWrite | src/database/consumer.rs:339-357 | the checkpoint as a `position` write to its stream, with no message id, no metadata and the request's expected version, whose data decodes to the request's position |
| Consumer.Invariant | src/database/consumer.rs:216-235 | what holds of the stream's fields between polls: an armed fetch has a position and a pause within the poll interval; the counter is zero or below the interval; a checkpoint in the slot targets this stream at the version before the expected one |
| Consumer.InitialState | src/database/consumer.rs:142-168 | the fields `subscribe_to_category` sets; `InitialStateSatisfiesInvariant` states that they meet the invariant |
| Consumer.InitialStateSatisfiesInvariant | src/database/consumer.rs:142-168 | the initial state meets the invariant for every configuration |
| Consumer.Step | src/database/consumer.rs:244-314 | one `poll_next`: pop the buffer, poll the fetch (panicking if it already completed), poll the write (likewise), return a buffered head, else clear a finished write and go on to `Fetch`; its properties are the `StepPreservesInvariant` and `ConsumerProperties` lemmas |
| Consumer.Fetch | src/database/consumer.rs:270-313 | after a completed fetch: re-arm, then report an error, return `Pending` for an empty batch, or `Deliver` the batch; `FetchPreservesInvariant` and `NextFetchFollowsBatch` state its properties |
| Consumer.Rearmed | src/database/consumer.rs:270-282 | the re-armed fetch: position one past the batch's last message, pause `saturating_sub` of the elapsed time; `NextFetchFollowsBatch` states the result |
| Consumer.Deliver | src/database/consumer.rs:286-310 | count the batch, decode it, hand out its first message and buffer the rest; `DeliversDecodedBatch` and `UndecodableBatchIsSkipped` state the result |
| Consumer.Count | src/database/consumer.rs:287-301 | counting a batch leaves the fetch slot and the buffer alone and keeps the invariant: the counter stays below the interval or drops to zero, and an issued checkpoint targets this stream at the version before the new expected one |
| Consumer.StepPreservesInvariant | src/database/consumer.rs:244-313 | one poll keeps: armed fetch has a position and a pause within the interval; counter below the interval or zero; the checkpoint in the slot targets this stream at the previous version |
| Consumer.FetchPreservesInvariant | src/database/consumer.rs:270-313 | a completed fetch, whatever its result, re-arms with a position and a pause within the interval and keeps the counter and checkpoint invariant |
| Consumer.CategoryStream.constructor | src/database/consumer.rs:142-168 | the new stream has an empty buffer, no checkpoint in flight, and a first fetch at the resume position with no pause |
| Consumer.CategoryStream.PollNext | src/database/consumer.rs:244-314 | the fields and the result after one `poll_next` are those of `Step`, and the invariant is kept |
| Consumer.CategoryStream.FetchCompleted | src/database/consumer.rs:270-313 | the part after a completed fetch updates the fields as `Fetch` does |
| Consumer.CategoryStream.DeliverBatch | src/database/consumer.rs:286-310 | a non-empty batch updates the fields and the result as `Deliver` does (count, decode, hand out the head, buffer the rest), and the invariant is kept |
| Consumer.CategoryStream.CountBatch | src/database/consumer.rs:287-301 | the counter, checkpoint slot and expected version become those of `Count` |
| Consumer.Subscribe | src/database/consumer.rs:114-169 | fails exactly as the setup does, with its error; otherwise a fresh stream for the category in the initial state, whose poll interval and checkpoint interval are the options', whose checkpoint stream is the computed one and whose decoder is the given one |
| ConsumerProperties.RunPreservesInvariant | src/database/consumer.rs:244-313 | the invariant holds after any sequence of polls |
| ConsumerProperties.BufferedMessageFirst | src/database/consumer.rs:246-255 | a buffered head is returned first and popped; counters unchanged; a completion seen in that poll exhausts its slot |
| ConsumerProperties.DrainsBufferInOrder | src/database/consumer.rs:246-255 | while nothing completes, successive polls return the buffer in FIFO order and change nothing else |
| ConsumerProperties.NextFetchFollowsBatch | src/database/consumer.rs:270-282 | a completed fetch re-arms one with the same options, the position just past the batch's last message (unchanged for an error or empty batch), and the saturated pause; every message of an ascending batch lies behind it |
| ConsumerProperties.DeliversDecodedBatch | src/database/consumer.rs:303-307 | the returned message followed by the new buffer is the decoded batch, in order |
| ConsumerProperties.EmptyBatchIsPending | src/database/consumer.rs:284-285 | an empty batch returns `Pending` and leaves buffer, counter and version alone |
| ConsumerProperties.FetchErrorIsReported | src/database/consumer.rs:312 | a fetch error is returned once, and the next fetch keeps the same options |
| ConsumerProperties.UndecodableBatchIsSkipped | src/database/consumer.rs:303-309 | an undecodable batch returns the first failing message's decode error, buffers nothing, and the position still moves past the batch |
| ConsumerProperties.CheckpointCadence | src/database/consumer.rs:287-301 | at or past the interval, a checkpoint of the batch's first global position is issued at the current version, the version grows by one and the counter resets; below it, the counter grows by the batch length and nothing else changes |
| ConsumerProperties.ZeroIntervalCheckpointsEveryBatch | src/database/consumer.rs:288 | with interval 0 every non-empty batch issues a checkpoint |
| ConsumerProperties.DerivedDefaultsCheckpointEveryBatch | src/database/consumer.rs:24-31 | with the derived `Default` options (no pause, interval 0) every non-empty batch issues a checkpoint of its first global position and the next fetch has no pause |
| ConsumerProperties.BuilderDefaultsCheckpointEveryHundred | src/database/consumer.rs:26-31 | with the builder's defaults the pause is what is left of 100 ms, and from a fresh counter a batch of fewer than 100 messages issues no checkpoint while one of 100 or more does |
| ConsumerProperties.CheckpointReplacesInFlightWrite | src/database/consumer.rs:290-298 | a new checkpoint replaces a different in-flight write |
| ConsumerProperties.WriteCompletionOnlyClearsSlot | src/database/consumer.rs:257-269 | a completed checkpoint write, Ok or Err, only clears its slot and yields `Pending` |
| ConsumerProperties.ResumeFromStoredPosition | src/database/consumer.rs:127-140 | a stored position message resumes just after the recorded position, at the version after the write's expected version |
| ConsumerProperties.ResumeFromCheckpoint | src/database/consumer.rs:339-357 | a stored engine checkpoint resumes at its version plus one and its position plus one |
| ConsumerProperties.RestartKeepsVersion | src/database/consumer.rs:295-299 | restarting from the in-flight checkpoint continues the stream's expected version |
| ConsumerProperties.RestartRefetchesBatchTail | src/database/consumer.rs:289 | after a checkpoint of an ascending batch, a restart fetches every later message of the batch again, but not the first |
| ConsumerProperties.ExhaustedFetchPanics | src/database/consumer.rs:247 | once a fetch completion was dropped, every later poll panics |
| ConsumerProperties.ExhaustedWritePanics | src/database/consumer.rs:248-251 | once a checkpoint completion was dropped, every later poll panics |
| ConsumerProperties.FetchDuringDrainPanicsNext | src/database/consumer.rs:246-255 | a fetch completing while a message is buffered: that message is returned, the batch is lost, and the next poll panics |
| ConsumerProperties.CheckpointStreamNameOfEntity | src/database/consumer.rs:53-66 | a category without types, with identifier `i`, gives the checkpoint stream `entity:position-i` |
| ConsumerProperties.CheckpointStreamNameOfTypedCategory | src/database/consumer.rs:53-66 | a category `entity:types` without `position` gives `entity:types+position-i` |
| ConsumerProperties.CheckpointStreamNameOfCheckpointCategory | src/database/consumer.rs:59-61 | a category that already has `position` gives `entity:types-i` |

## Left out

- Database I/O: the SQL queries, the connection pool and transactions of `src/database/client.rs`. The fetch and checkpoint results are inputs to each poll. The last checkpoint message is the result of a function parameter.
- The sqlx row decoding and encoding glue of `src/database/message.rs` and `src/database/stream_name.rs`. It only calls the modelled `to_string` and `parse`.
- `subscribe_to_categories`: concurrent fan-in of several streams (`join_all`, `select_all`).
- Futures, wakers and the timer. Waiting is not modelled: the pause before a fetch is stored with the armed fetch, and the elapsed time is a poll input. A panic is modelled as the `Panicked` result of that poll. Polls after it stay defined: they keep returning `Panicked`, because the exhausted slot is never re-armed (`ExhaustedFetchPanics`, `ExhaustedWritePanics`). The unwinding itself is not modelled.
- Logging (`tracing`).
- serde and serde_json in general. JSON values are a datatype with integer numbers only (no floats). Decoding into the caller's type, and into `Metadata`, is a partial function parameter. Only the `Recorded` checkpoint payload has its decoder written out.
- The derived `Serialize`/`Deserialize` of `StreamName`, `ID` and `Category`.
- UUIDs and timestamps are opaque values (`nat` and `int`).
- `Category::normalize` (a case conversion from an external crate) is a function parameter of `is_correlated`.
- Consumer.CategoryStream.PollNext: `global_position + 1` and `expected_position_version + 1` are unbounded integers; `i64` overflow is not modelled.
- Consumer.Resume: `recorded.position + 1` is an unbounded integer; `i64` overflow is not modelled.
- The enum of `src/error.rs` is not part of this model. The `Error` datatype has the variants the modelled code uses.

## Findings

| source | as written | input that shows it | evidently intended | confidence | as-written member | corrected member |
|---|---|---|---|---|---|---|
| src/stream_name.rs:99-101 | `is_category` is true when the text contains `-`. So in `is_correlated` (src/message/metadata.rs:186-190) the category branch compares a `-`-free category part with a text containing `-`, and never succeeds | correlation stream `account-123`, argument `account`: not correlated | `is_category` is true for text without `-`, so a category argument matches the category of the correlation stream | high; not executed | MessageMetadata.IsCorrelatedMissesCategory | MessageMetadata.IsCorrelatedIntendedMatches |
