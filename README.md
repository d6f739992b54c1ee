# Plan fragments, query coordination and partition logs

This project models three parts of an IoTDB data node and proves properties of the model:

- **PlanFragment**: a placement-bound piece of a distributed query plan.
  - The region walk decides which replica set the fragment must run on, in the tree model and in the table model (where a node-distribution map overrides).
  - The location walk decides which data node runs a node-bound fragment.
  - Its two serializers (to a `DataOutputStream` and to a `ByteBuffer`) and the deserializer use a recursive node framing: payload, 4-byte child count, then the children in order. In the templated layout an aligned scan stops after its payload.
  - The model also covers equality and the field setters and clearers.
- **Coordinator**: the registry of running query executions.
  - `execution` is shared by every entry point. It takes a fresh query id, builds the context and routes the statement. It files queries in the registry and lifts the time limit of non-queries. It starts the execution, flags retryable write statuses, and always releases front-end memory and the schema read lock.
  - Routing: tree-model config statements, the closed list of relational config statements, wrapped inserts bound to their context, and tree statements handed to the table model.
  - Cleanup: unregistering, the slow-query log and query sampling.
  - Execution-time accounting.
- **PartitionLogReader**:
  - The constructor captures the file length and parses the region id as `Integer.parseInt` does.
  - `read` loads 32-byte records (four big-endian longs) into a map from file id to time index until the captured length is reached. It fails with end-of-file when a record is cut short.

Modules:

- `Results` and `BigEndian` are shared support: option and result types, and Java's big-endian two's-complement `int` and `long`.
- `PlanNodes` holds the plan tree and the two walks.
- `FragmentWire` holds the framing, the fragment layouts and the buffer/stream classes.
- `PlanFragments` holds the `PlanFragment` class.
- `QueryRouting` and `Coordination` hold the coordinator.
- `PartitionLog` holds the log reader.

Each walk and each codec is paired with a reference definition or an inverse, and lemmas connect the two:

- **Walks.** Each walk is also defined as "the first useful answer on the pre-order frontier of stopping nodes".
- **Node framing.** An encoder is paired with the decoder, and the round trip is proved.
- **Log records.** A log writer is paired with the record reader, and the round trip is proved.
- **Region-id parsing.** `Integer.toString` is paired with the parser, and the round trip is proved.
- **Coordinator.** The coordinator's methods are proved against specification functions (`RunExecution`, `CleanupEvents`, `RecordedTime`), and those functions are proved to keep the registry's invariants and to emit telemetry exactly when the source logs.

## Model

Source cells are paths relative to the repository root.

| member | source | states |
|---|---|---|
| PlanNodes.ChildrenRegion | iotdb-core/datanode/src/main/java/org/apache/iotdb/db/queryengine/plan/planner/plan/PlanFragment.java:145-152 | the loop over the children yields only a real region or null, never NOT_ASSIGNED |
| PlanNodes.NodeRegion | iotdb-core/datanode/src/main/java/org/apache/iotdb/db/queryengine/plan/planner/plan/PlanFragment.java:139-153 | a mapped or partition-related node answers for itself, the map first; any other node answers only a real region or null |
| PlanNodes.FirstAssigned | iotdb-core/datanode/src/main/java/org/apache/iotdb/db/queryengine/plan/planner/plan/PlanFragment.java:145-152 | the first real region of a sequence of answers: a real region occurs in the sequence, and null exactly when no answer is a real region |
| PlanNodes.FirstAssignedAppend | iotdb-core/datanode/src/main/java/org/apache/iotdb/db/queryengine/plan/planner/plan/PlanFragment.java:145-152 | the first real region of a concatenation is the first part's when it has one, otherwise the second part's |
| PlanNodes.ChildRegionMatchesFrontier | iotdb-core/datanode/src/main/java/org/apache/iotdb/db/queryengine/plan/planner/plan/PlanFragment.java:139-153 | a subtree's answer, as its parent's loop sees it, is the first real region on the subtree's frontier |
| PlanNodes.ChildrenRegionMatchesFrontier | iotdb-core/datanode/src/main/java/org/apache/iotdb/db/queryengine/plan/planner/plan/PlanFragment.java:145-152 | the loop over children i.. returns the first real region on the frontiers of those children |
| PlanNodes.RegionWalkIsFirstAssignedOnFrontier | iotdb-core/datanode/src/main/java/org/apache/iotdb/db/queryengine/plan/planner/plan/PlanFragment.java:139-153 | getNodeRegion: a node in the distribution map, or a partition-related node, answers for itself, the map first; otherwise the answer is the first real region among the pre-order stopping nodes, whose subtrees are never entered |
| PlanNodes.NoSourceEmptyFrontier | iotdb-core/datanode/src/main/java/org/apache/iotdb/db/queryengine/plan/planner/plan/PlanFragment.java:145-152 | a tree without a region source has no stopping nodes below it |
| PlanNodes.NoSourceResolvesToNull | iotdb-core/datanode/src/main/java/org/apache/iotdb/db/queryengine/plan/planner/plan/PlanFragment.java:139-153 | a tree with no mapped or partition-related node resolves to null |
| PlanNodes.SingleRegionResolves | iotdb-core/datanode/src/main/java/org/apache/iotdb/db/queryengine/plan/planner/plan/PlanFragment.java:139-153 | when the stopping nodes name only one real region and name it at least once, the walk returns that region |
| PlanNodes.InformationSchemaLocation | iotdb-core/datanode/src/main/java/org/apache/iotdb/db/queryengine/plan/planner/plan/PlanFragment.java:159-166 | an information-schema scan succeeds iff it has a replica set with exactly one data-node location, and then yields that location; otherwise IllegalArgumentException |
| PlanNodes.NodeLocation | iotdb-core/datanode/src/main/java/org/apache/iotdb/db/queryengine/plan/planner/plan/PlanFragment.java:155-177 | a virtual source answers its own location; a leaf that is neither a virtual source nor an information-schema scan answers null |
| PlanNodes.ChildrenLocation | iotdb-core/datanode/src/main/java/org/apache/iotdb/db/queryengine/plan/planner/plan/PlanFragment.java:170-176 | an exception or a location from the loop comes from one of the remaining children |
| PlanNodes.FirstDecided | iotdb-core/datanode/src/main/java/org/apache/iotdb/db/queryengine/plan/planner/plan/PlanFragment.java:167-176 | the first answer that is an exception or a non-null location; null exactly when every answer is null |
| PlanNodes.FirstDecidedAppend | iotdb-core/datanode/src/main/java/org/apache/iotdb/db/queryengine/plan/planner/plan/PlanFragment.java:167-176 | the first decided answer of a concatenation is the first part's when it has one, otherwise the second part's |
| PlanNodes.NodeLocationMatchesFrontier | iotdb-core/datanode/src/main/java/org/apache/iotdb/db/queryengine/plan/planner/plan/PlanFragment.java:155-177 | a subtree's location is the first decided answer on its frontier of virtual-source and information-schema nodes |
| PlanNodes.ChildrenLocationMatchesFrontier | iotdb-core/datanode/src/main/java/org/apache/iotdb/db/queryengine/plan/planner/plan/PlanFragment.java:167-176 | the loop over children i.. returns the first decided answer on the frontiers of those children; an exception stops the loop |
| PlanNodes.LocationWalkIsFirstDecidedOnFrontier | iotdb-core/datanode/src/main/java/org/apache/iotdb/db/queryengine/plan/planner/plan/PlanFragment.java:155-177 | getNodeLocation equals the first decided answer on the pre-order frontier |
| BigEndian.UnsignedOfToBytes | iotdb-core/datanode/src/main/java/org/apache/iotdb/db/queryengine/plan/planner/plan/PlanFragment.java:236 | big-endian bytes of a value in range read back as that value |
| BigEndian.ToBytesOfUnsigned | iotdb-core/datanode/src/main/java/org/apache/iotdb/db/queryengine/plan/planner/plan/PlanFragment.java:236 | every byte string is the encoding of the value it reads as |
| BigEndian.SignedOfFromSigned | iotdb-core/datanode/src/main/java/org/apache/iotdb/db/utils/writelog/PartitionLogReader.java:52-55 | two's-complement encoding then decoding gives the value back |
| BigEndian.EncodeInt32 | iotdb-core/datanode/src/main/java/org/apache/iotdb/db/queryengine/plan/planner/plan/PlanFragment.java:236 | 4 bytes that getInt reads back as the int |
| BigEndian.EncodeInt64 | iotdb-core/datanode/src/main/java/org/apache/iotdb/db/utils/writelog/PartitionLogReader.java:52-55 | 8 bytes that readLong reads back as the long |
| BigEndian.EncodeInt32OfInt32 | iotdb-core/datanode/src/main/java/org/apache/iotdb/db/queryengine/plan/planner/plan/PlanFragment.java:236 | every four bytes are the encoding of the int they decode to |
| BigEndian.EncodeInt64OfInt64 | iotdb-core/datanode/src/main/java/org/apache/iotdb/db/utils/writelog/PartitionLogReader.java:52-55 | every eight bytes are the encoding of the long they decode to |
| FragmentWire.ReadPayload | iotdb-core/datanode/src/main/java/org/apache/iotdb/db/queryengine/plan/planner/plan/PlanFragment.java:224-232 | a successful payload read moves the cursor forward and stays inside the buffer |
| FragmentWire.ReadByte | iotdb-core/datanode/src/main/java/org/apache/iotdb/db/queryengine/plan/planner/plan/PlanFragment.java:212 | ByteBuffer.get succeeds iff a byte remains, and returns it and moves the cursor by one |
| FragmentWire.ReadInt32 | iotdb-core/datanode/src/main/java/org/apache/iotdb/db/queryengine/plan/planner/plan/PlanFragment.java:236 | getInt succeeds iff four bytes remain, and moves the cursor by four to an int value |
| FragmentWire.DecodeNode | iotdb-core/datanode/src/main/java/org/apache/iotdb/db/queryengine/plan/planner/plan/PlanFragment.java:224-241 | a node read by deserializeHelper ends after its start and inside the buffer |
| FragmentWire.EncodeTreeLayout | iotdb-core/datanode/src/main/java/org/apache/iotdb/db/queryengine/plan/planner/plan/PlanFragment.java:190-207 | a node's bytes start with its payload; a templated aligned scan is that payload alone, and any other node is followed by its child count |
| FragmentWire.DecodeChildren | iotdb-core/datanode/src/main/java/org/apache/iotdb/db/queryengine/plan/planner/plan/PlanFragment.java:236-239 | reading the children never moves the cursor backwards or past the end |
| FragmentWire.EncodeTreeUntemplated | iotdb-core/datanode/src/main/java/org/apache/iotdb/db/queryengine/plan/planner/plan/PlanFragment.java:199-207 | without templated information the type provider does not change the tree's bytes, so the stream serializer's two non-template branches write the same tree |
| FragmentWire.EncodeChildrenUntemplated | iotdb-core/datanode/src/main/java/org/apache/iotdb/db/queryengine/plan/planner/plan/PlanFragment.java:199-207 | the same for a node's children from index i on |
| FragmentWire.NodeCodecForRoundTrips | iotdb-core/datanode/src/main/java/org/apache/iotdb/db/queryengine/plan/planner/plan/PlanFragment.java:226-233 | whichever payload codec the type provider selects, template-aware or plain, round-trips |
| FragmentWire.DecodeEncodedNode | iotdb-core/datanode/src/main/java/org/apache/iotdb/db/queryengine/plan/planner/plan/PlanFragment.java:224-241 | deserializeHelper over a framed tree's bytes, at any position, gives back the tree and stops right after it |
| FragmentWire.DecodeEncodedAlignedScan | iotdb-core/datanode/src/main/java/org/apache/iotdb/db/queryengine/plan/planner/plan/PlanFragment.java:226-231 | a templated aligned-scan leaf decodes from its payload alone |
| FragmentWire.DecodeEncodedFramedNode | iotdb-core/datanode/src/main/java/org/apache/iotdb/db/queryengine/plan/planner/plan/PlanFragment.java:224-241 | a framed node (payload, count, children) decodes to itself |
| FragmentWire.DecodeFramedHeader | iotdb-core/datanode/src/main/java/org/apache/iotdb/db/queryengine/plan/planner/plan/PlanFragment.java:226-236 | past a framed node's payload and child count, deserializeHelper continues with the child loop from an empty child list, and the encoded children start exactly there |
| FragmentWire.DecodeFramedNodeStep | iotdb-core/datanode/src/main/java/org/apache/iotdb/db/queryengine/plan/planner/plan/PlanFragment.java:226-236 | a payload read that is not a templated aligned scan, followed by a child count, hands over to the child loop |
| FragmentWire.DecodeChildAt | iotdb-core/datanode/src/main/java/org/apache/iotdb/db/queryengine/plan/planner/plan/PlanFragment.java:237-238 | the recursive call at child i's encoding gives back child i and stops right after it |
| FragmentWire.DecodeNextChild | iotdb-core/datanode/src/main/java/org/apache/iotdb/db/queryengine/plan/planner/plan/PlanFragment.java:237-238 | adding the decoded child i and finishing the loop from there is the loop from child i |
| FragmentWire.DecodeChildThenRest | iotdb-core/datanode/src/main/java/org/apache/iotdb/db/queryengine/plan/planner/plan/PlanFragment.java:237-239 | if the loop from child i+1 gives back the node, so does the loop from child i |
| FragmentWire.DecodeEncodedChildren | iotdb-core/datanode/src/main/java/org/apache/iotdb/db/queryengine/plan/planner/plan/PlanFragment.java:236-239 | the child loop re-adds the encoded children in order and stops after the last |
| FragmentWire.NodeRoundTrip | iotdb-core/datanode/src/main/java/org/apache/iotdb/db/queryengine/plan/planner/plan/PlanFragment.java:224-241 | decoding an encoded tree followed by anything gives the tree back and consumes exactly its encoding; in the templated layout this needs every aligned scan to be a leaf |
| FragmentWire.TemplatedAlignedScanStopsAfterPayload | iotdb-core/datanode/src/main/java/org/apache/iotdb/db/queryengine/plan/planner/plan/PlanFragment.java:226-231 | in the templated layout an aligned-scan root is its payload alone, and decoding yields it without children: any children it had are lost |
| FragmentWire.DecodeFragment | iotdb-core/datanode/src/main/java/org/apache/iotdb/db/queryengine/plan/planner/plan/PlanFragment.java:210-221 | a successful deserialize consumes at least one byte and stays inside the buffer |
| FragmentWire.StreamLayoutRoundTrip | iotdb-core/datanode/src/main/java/org/apache/iotdb/db/queryengine/plan/planner/plan/PlanFragment.java:190-221 | deserialize reads back what serialize(DataOutputStream) wrote, with or without a type provider and templated or not: the same id, type provider and tree, consuming exactly the layout |
| FragmentWire.StreamLayoutShape | iotdb-core/datanode/src/main/java/org/apache/iotdb/db/queryengine/plan/planner/plan/PlanFragment.java:190-208 | serialize(DataOutputStream) writes the id, then the flag byte 1 or 0 for the type provider, and ends with the tree |
| FragmentWire.BufferLayoutShape | iotdb-core/datanode/src/main/java/org/apache/iotdb/db/queryengine/plan/planner/plan/PlanFragment.java:179-188 | serialize(ByteBuffer) writes the id, then the untemplated tree, then the flag byte |
| FragmentWire.StreamRoundTripWithoutTypeProvider | iotdb-core/datanode/src/main/java/org/apache/iotdb/db/queryengine/plan/planner/plan/PlanFragment.java:190-221 | the round trip when the presence flag is 0 |
| FragmentWire.StreamRoundTripWithTypeProvider | iotdb-core/datanode/src/main/java/org/apache/iotdb/db/queryengine/plan/planner/plan/PlanFragment.java:190-221 | the round trip when the presence flag is 1 |
| FragmentWire.StreamTypeProviderPrefix | iotdb-core/datanode/src/main/java/org/apache/iotdb/db/queryengine/plan/planner/plan/PlanFragment.java:192-205 | in the stream layout with a type provider, the flag byte is 1, the type provider reads back, and the tree follows it |
| FragmentWire.DecodeFragmentWithTypeProvider | iotdb-core/datanode/src/main/java/org/apache/iotdb/db/queryengine/plan/planner/plan/PlanFragment.java:210-221 | deserialize with flag 1 yields the id, the type provider and the tree decoded with that type provider |
| FragmentWire.BufferLayoutFlagIsTreeByte | iotdb-core/datanode/src/main/java/org/apache/iotdb/db/queryengine/plan/planner/plan/PlanFragment.java:179-188 | serialize(ByteBuffer) writes the tree before the presence flag, so the byte deserialize takes as the flag is the first byte of the tree's payload |
| FragmentWire.ByteBuffer.Get | iotdb-core/datanode/src/main/java/org/apache/iotdb/db/queryengine/plan/planner/plan/PlanFragment.java:212 | the byte at the cursor and the cursor after it, or underflow |
| FragmentWire.ByteBuffer.GetInt | iotdb-core/datanode/src/main/java/org/apache/iotdb/db/queryengine/plan/planner/plan/PlanFragment.java:236 | the big-endian int at the cursor and the cursor after it, or underflow |
| FragmentWire.ByteBuffer.Wrap | iotdb-core/datanode/src/main/java/org/apache/iotdb/db/queryengine/plan/planner/plan/PlanFragment.java:210 | a buffer over the given bytes, positioned at its start |
| FragmentWire.ByteBuffer.GetPayload | iotdb-core/datanode/src/main/java/org/apache/iotdb/db/queryengine/plan/planner/plan/PlanFragment.java:211-215 | the payload the codec reads at the cursor and the cursor after it, or a decoding error |
| FragmentWire.OutputStream.Write | iotdb-core/datanode/src/main/java/org/apache/iotdb/db/queryengine/plan/planner/plan/PlanFragment.java:190-208 | written bytes are appended to the stream |
| FragmentWire.DeserializeHelper | iotdb-core/datanode/src/main/java/org/apache/iotdb/db/queryengine/plan/planner/plan/PlanFragment.java:224-241 | the recursive reader returns what DecodeNode specifies and leaves the cursor after the node |
| PlanFragments.PlanFragment.constructor | iotdb-core/datanode/src/main/java/org/apache/iotdb/db/queryengine/plan/planner/plan/PlanFragment.java:57-67 | a new fragment holds its id and tree, has no type provider, is not the root and has index -1 |
| PlanFragments.PlanFragment.SetIndexInFragmentInstanceList | iotdb-core/datanode/src/main/java/org/apache/iotdb/db/queryengine/plan/planner/plan/PlanFragment.java:73-75 | sets the index; nothing else changes |
| PlanFragments.PlanFragment.SetPlanNodeTree | iotdb-core/datanode/src/main/java/org/apache/iotdb/db/queryengine/plan/planner/plan/PlanFragment.java:85-87 | sets the tree; nothing else changes |
| PlanFragments.PlanFragment.SetTypeProvider | iotdb-core/datanode/src/main/java/org/apache/iotdb/db/queryengine/plan/planner/plan/PlanFragment.java:93-95 | sets the type provider; nothing else changes |
| PlanFragments.PlanFragment.SetRoot | iotdb-core/datanode/src/main/java/org/apache/iotdb/db/queryengine/plan/planner/plan/PlanFragment.java:109-111 | sets the root flag; nothing else changes |
| PlanFragments.PlanFragment.TargetRegionForTreeModel | iotdb-core/datanode/src/main/java/org/apache/iotdb/db/queryengine/plan/planner/plan/PlanFragment.java:123-125 | the root's own region when it is partition-related, otherwise the first real region on the tree's frontier |
| PlanFragments.PlanFragment.TargetRegionForTableModel | iotdb-core/datanode/src/main/java/org/apache/iotdb/db/queryengine/plan/planner/plan/PlanFragment.java:127-130 | a mapped root answers from the distribution map; an unmapped partition-related root answers with its own region, even null or NOT_ASSIGNED; any other root answers with the first real region on the frontier |
| PlanFragments.PlanFragment.TargetLocation | iotdb-core/datanode/src/main/java/org/apache/iotdb/db/queryengine/plan/planner/plan/PlanFragment.java:135-137 | the first decided location on the tree's frontier |
| PlanFragments.PlanFragment.SerializeToStream | iotdb-core/datanode/src/main/java/org/apache/iotdb/db/queryengine/plan/planner/plan/PlanFragment.java:190-208 | appends exactly the stream layout: id, presence flag, type provider if any, then the tree, template-aware when the type provider is templated |
| PlanFragments.PlanFragment.SerializeToBuffer | iotdb-core/datanode/src/main/java/org/apache/iotdb/db/queryengine/plan/planner/plan/PlanFragment.java:179-188 | appends exactly the buffer layout: id, tree, presence flag, type provider if any |
| PlanFragments.PlanFragment.Deserialize | iotdb-core/datanode/src/main/java/org/apache/iotdb/db/queryengine/plan/planner/plan/PlanFragment.java:210-221 | succeeds iff DecodeFragment does; a fresh fragment with the decoded id, type provider and tree, default root flag and index, and the cursor after the fragment |
| PlanFragments.PlanFragment.ClearUselessField | iotdb-core/datanode/src/main/java/org/apache/iotdb/db/queryengine/plan/planner/plan/PlanFragment.java:243-246 | drops the tree and the type provider; nothing else changes |
| PlanFragments.PlanFragment.ClearTypeProvider | iotdb-core/datanode/src/main/java/org/apache/iotdb/db/queryengine/plan/planner/plan/PlanFragment.java:248-250 | drops the type provider only |
| PlanFragments.PlanFragment.Equals | iotdb-core/datanode/src/main/java/org/apache/iotdb/db/queryengine/plan/planner/plan/PlanFragment.java:252-262 | true iff the other fragment is not null and has the same id and the same tree; the type provider, root flag and index do not matter |
| QueryRouting.RemoveAINodeStatement | iotdb-core/datanode/src/main/java/org/apache/iotdb/db/queryengine/plan/statement/metadata/RemoveAINodeStatement.java:61-64 | REMOVE AINODE is a config statement whose query type is WRITE |
| QueryRouting.EffectiveTimeout | iotdb-core/datanode/src/main/java/org/apache/iotdb/db/queryengine/plan/Coordinator.java:290 | the caller's timeout when positive, otherwise the configured query-timeout threshold |
| QueryRouting.CreateQueryExecutionForTreeModel | iotdb-core/datanode/src/main/java/org/apache/iotdb/db/queryengine/plan/Coordinator.java:294-322 | sets the timeout and start time; a config execution iff the statement is an IConfigStatement, which copies its query type into the context; otherwise the tree-model planner gets the statement; no other context field changes |
| QueryRouting.CreateQueryExecutionForTableModel | iotdb-core/datanode/src/main/java/org/apache/iotdb/db/queryengine/plan/Coordinator.java:401-489 | a config execution iff the statement belongs to the closed list of relational config classes; otherwise a wrapped insert is bound to the context's query id, and every other statement goes to the planner unchanged |
| QueryRouting.CreateQueryExecutionForConvertedStatement | iotdb-core/datanode/src/main/java/org/apache/iotdb/db/queryengine/plan/Coordinator.java:375-399 | a tree-model statement run through the table model is always planned, never a config execution |
| QueryRouting.RemoveAINodeIsConfigInBothModels | iotdb-core/datanode/src/main/java/org/apache/iotdb/db/queryengine/plan/Coordinator.java:303-310 | REMOVE AINODE becomes a config execution in both models, and a WRITE in the tree model |
| Coordination.InitialContext | iotdb-core/datanode/src/main/java/org/apache/iotdb/db/queryengine/plan/Coordinator.java:227-234 | a new context carries the sql, both ids and the user flag, with no timeout, start time or query type |
| Coordination.BuildExecution | iotdb-core/datanode/src/main/java/org/apache/iotdb/db/queryengine/plan/Coordinator.java:235 | the factory sets the effective timeout and the start time and keeps the context's sql, ids and user flag |
| Coordination.RetryFlagged | iotdb-core/datanode/src/main/java/org/apache/iotdb/db/queryengine/plan/Coordinator.java:244-249 | the status keeps its code; its retry flag is set exactly for a non-query whose status needs a retry |
| Coordination.RunExecution | iotdb-core/datanode/src/main/java/org/apache/iotdb/db/queryengine/plan/Coordinator.java:214-256 | one execution: both releases happen whatever the outcome; failure iff building or starting throws; only a built query is registered, under its local id, and other entries are untouched; a non-query's timeout becomes Long.MAX_VALUE; the result carries the global id and the retry-flagged status |
| Coordination.MillisOfNanos | iotdb-core/datanode/src/main/java/org/apache/iotdb/db/queryengine/plan/Coordinator.java:537 | Java's long division by 1_000_000, truncating toward zero for both signs |
| Coordination.RecordCountsOfConcat | iotdb-core/datanode/src/main/java/org/apache/iotdb/db/queryengine/plan/Coordinator.java:534-556 | the numbers of slow-query and sampled records of a concatenated log are the sums of its parts' |
| Coordination.UserQueryTelemetry | iotdb-core/datanode/src/main/java/org/apache/iotdb/db/queryengine/plan/Coordinator.java:534-556 | exactly one slow-query record if the cost in ms reaches the threshold, else none; exactly one sampled record if there was no error, sampling is on, and the rate limiter is off or grants the request's length, else none; nothing else, and the slow-query record comes first; each record carries the request's content |
| Coordination.CleanupEvents | iotdb-core/datanode/src/main/java/org/apache/iotdb/db/queryengine/plan/Coordinator.java:526-559 | nothing for an unknown id; otherwise stop-and-cleanup first, followed only by at most one slow-query record and then at most one sampled record, each present exactly when the registered user query is slow or sampled |
| Coordination.SecondCleanupIsSilent | iotdb-core/datanode/src/main/java/org/apache/iotdb/db/queryengine/plan/Coordinator.java:526-559 | cleaning up the same id twice: the second time emits nothing and leaves the registry as the first left it |
| Coordination.WriteEntryIsUnlimitedAndInternal | iotdb-core/datanode/src/main/java/org/apache/iotdb/db/queryengine/plan/Coordinator.java:259-268 | the write entry point's execution is not a user query, and a non-query built there has no time limit |
| Coordination.NonQueryCleanupIsSilent | iotdb-core/datanode/src/main/java/org/apache/iotdb/db/queryengine/plan/Coordinator.java:236-242 | a non-query is never registered, so a later cleanup of its id emits nothing |
| Coordination.RecordedTime | iotdb-core/datanode/src/main/java/org/apache/iotdb/db/queryengine/plan/Coordinator.java:578-583 | the same registered ids; only the named execution's total changes |
| Coordination.TotalExecutionTime | iotdb-core/datanode/src/main/java/org/apache/iotdb/db/queryengine/plan/Coordinator.java:585-591 | -1 when no execution is registered under the id |
| Coordination.RecordedTimeIsReported | iotdb-core/datanode/src/main/java/org/apache/iotdb/db/queryengine/plan/Coordinator.java:578-591 | after recording t, a lookup reports the old total plus t, or still -1 on a miss; other ids report what they did before |
| Coordination.Coordinator.constructor | iotdb-core/datanode/src/main/java/org/apache/iotdb/db/queryengine/plan/Coordinator.java:174-175 | an empty registry and an id generator at its start |
| Coordination.Coordinator.CreateQueryId | iotdb-core/datanode/src/main/java/org/apache/iotdb/db/queryengine/plan/Coordinator.java:522-524 | the generator's next id, which no registered execution carries |
| Coordination.Coordinator.Execution | iotdb-core/datanode/src/main/java/org/apache/iotdb/db/queryengine/plan/Coordinator.java:214-256 | registry, trace and result are those of RunExecution with a fresh global id; the registry stays well filed |
| Coordination.Coordinator.ExecuteForTreeModel | iotdb-core/datanode/src/main/java/org/apache/iotdb/db/queryengine/plan/Coordinator.java:270-292 | execution with the caller's user flag and tree-model routing at the effective timeout |
| Coordination.Coordinator.ExecuteWriteForTreeModel | iotdb-core/datanode/src/main/java/org/apache/iotdb/db/queryengine/plan/Coordinator.java:259-268 | execution as a non-user query with tree-model routing at timeout Long.MAX_VALUE |
| Coordination.Coordinator.ExecuteForTableModel | iotdb-core/datanode/src/main/java/org/apache/iotdb/db/queryengine/plan/Coordinator.java:324-348 | execution with the caller's user flag and table-model routing at the effective timeout |
| Coordination.Coordinator.ExecuteTreeStatementForTableModel | iotdb-core/datanode/src/main/java/org/apache/iotdb/db/queryengine/plan/Coordinator.java:350-373 | execution as a non-user query with the converted-statement routing |
| Coordination.Coordinator.GetQueryExecution | iotdb-core/datanode/src/main/java/org/apache/iotdb/db/queryengine/plan/Coordinator.java:492-494 | the registered execution, or none iff the id is not registered |
| Coordination.Coordinator.AllQueryExecutions | iotdb-core/datanode/src/main/java/org/apache/iotdb/db/queryengine/plan/Coordinator.java:496-498 | every registered execution is returned, and each one returned is a query filed under its own local id |
| Coordination.Coordinator.QueryExecutionMapSize | iotdb-core/datanode/src/main/java/org/apache/iotdb/db/queryengine/plan/Coordinator.java:500-502 | the number of registered ids |
| Coordination.Coordinator.CleanupQueryExecution | iotdb-core/datanode/src/main/java/org/apache/iotdb/db/queryengine/plan/Coordinator.java:526-559 | removes the id from the registry and appends exactly CleanupEvents |
| Coordination.Coordinator.CleanupQueryExecutionById | iotdb-core/datanode/src/main/java/org/apache/iotdb/db/queryengine/plan/Coordinator.java:561-563 | the same with no request and no cause |
| Coordination.Coordinator.RecordExecutionTime | iotdb-core/datanode/src/main/java/org/apache/iotdb/db/queryengine/plan/Coordinator.java:578-583 | the registry becomes RecordedTime; nothing else changes |
| Coordination.Coordinator.GetTotalExecutionTime | iotdb-core/datanode/src/main/java/org/apache/iotdb/db/queryengine/plan/Coordinator.java:585-591 | the registered execution's total, or -1 |
| PartitionLog.ParseDecimalInt | iotdb-core/datanode/src/main/java/org/apache/iotdb/db/utils/writelog/PartitionLogReader.java:43 | Integer.parseInt: accepts exactly an optional sign followed by at least one digit whose signed value fits in an int, and returns that signed value |
| PartitionLog.ParseDecimalIntSigns | iotdb-core/datanode/src/main/java/org/apache/iotdb/db/utils/writelog/PartitionLogReader.java:43 | "12" is 12, "+7" and "007" are 7, "-0" is 0, and "--1" is rejected |
| PartitionLog.ParseDecimalIntRange | iotdb-core/datanode/src/main/java/org/apache/iotdb/db/utils/writelog/PartitionLogReader.java:43 | "-2147483648" is accepted and "2147483648" is rejected |
| PartitionLog.DigitsValueOfNatToDigits | iotdb-core/datanode/src/main/java/org/apache/iotdb/db/utils/writelog/PartitionLogReader.java:43 | the digits of a natural number read back as that number |
| PartitionLog.ParseDecimalIntOfToDecimal | iotdb-core/datanode/src/main/java/org/apache/iotdb/db/utils/writelog/PartitionLogReader.java:43 | every int's decimal form parses back to it |
| PartitionLog.NonNumericRegionIdIsRejected | iotdb-core/datanode/src/main/java/org/apache/iotdb/db/utils/writelog/PartitionLogReader.java:43 | a region id with a character that is neither a digit nor a leading sign is rejected |
| PartitionLog.Records | iotdb-core/datanode/src/main/java/org/apache/iotdb/db/utils/writelog/PartitionLogReader.java:50-60 | the first k records, where record i is the four longs at byte 32*i |
| PartitionLog.RecordAt | iotdb-core/datanode/src/main/java/org/apache/iotdb/db/utils/writelog/PartitionLogReader.java:52-55 | the i-th record is four longs read as a log record |
| PartitionLog.EncodeLog | iotdb-core/datanode/src/main/java/org/apache/iotdb/db/utils/writelog/PartitionLogReader.java:47-62 | a log of k records is 32k bytes long |
| PartitionLog.EncodeLogSlice | iotdb-core/datanode/src/main/java/org/apache/iotdb/db/utils/writelog/PartitionLogReader.java:52-55 | record i of an encoded log occupies bytes 32*i up to 32*i+32 |
| PartitionLog.LongsOfEncodeRecord | iotdb-core/datanode/src/main/java/org/apache/iotdb/db/utils/writelog/PartitionLogReader.java:52-55 | the four longs of an encoded record read back in order |
| PartitionLog.RecordAtOfEncodeLog | iotdb-core/datanode/src/main/java/org/apache/iotdb/db/utils/writelog/PartitionLogReader.java:52-55 | record i of an encoded log reads back as the i-th record |
| PartitionLog.RecordsOfEncodeLog | iotdb-core/datanode/src/main/java/org/apache/iotdb/db/utils/writelog/PartitionLogReader.java:50-60 | a log of k encoded records decodes to exactly those records, in order |
| PartitionLog.PutAll | iotdb-core/datanode/src/main/java/org/apache/iotdb/db/utils/writelog/PartitionLogReader.java:56-58 | putting records never removes a key |
| PartitionLog.Iterations | iotdb-core/datanode/src/main/java/org/apache/iotdb/db/utils/writelog/PartitionLogReader.java:50 | the loop starts ceil(fileLength / 32) times |
| PartitionLog.LoadedRecords | iotdb-core/datanode/src/main/java/org/apache/iotdb/db/utils/writelog/PartitionLogReader.java:50-60 | never more records than the bytes hold or the loop starts |
| PartitionLog.ReadOutcome | iotdb-core/datanode/src/main/java/org/apache/iotdb/db/utils/writelog/PartitionLogReader.java:47-62 | read succeeds iff every iteration the loop starts finds a whole 32-byte record; otherwise it fails with end-of-file |
| PartitionLog.WholeLogLoadsEveryRecord | iotdb-core/datanode/src/main/java/org/apache/iotdb/db/utils/writelog/PartitionLogReader.java:47-62 | a log of exactly k records, read with its own length, loads all k without error |
| PartitionLog.TruncatedLogFails | iotdb-core/datanode/src/main/java/org/apache/iotdb/db/utils/writelog/PartitionLogReader.java:47-62 | a log whose last record is cut short fails with end-of-file after loading the whole records |
| PartitionLog.LastRecordWins | iotdb-core/datanode/src/main/java/org/apache/iotdb/db/utils/writelog/PartitionLogReader.java:56-58 | a key's entry is the time index of the last record carrying that key |
| PartitionLog.OtherKeysUnchanged | iotdb-core/datanode/src/main/java/org/apache/iotdb/db/utils/writelog/PartitionLogReader.java:56-58 | keys no record produces keep their presence and value |
| PartitionLog.NewKeysCarryReaderIds | iotdb-core/datanode/src/main/java/org/apache/iotdb/db/utils/writelog/PartitionLogReader.java:56 | every added key carries the reader's region and partition ids |
| PartitionLog.PutAllStep | iotdb-core/datanode/src/main/java/org/apache/iotdb/db/utils/writelog/PartitionLogReader.java:56-59 | one more iteration puts one more record onto the fold |
| PartitionLog.ShortIterationFails | iotdb-core/datanode/src/main/java/org/apache/iotdb/db/utils/writelog/PartitionLogReader.java:50-55 | an iteration that finds less than a whole record is where read fails |
| PartitionLog.LoopExitSucceeds | iotdb-core/datanode/src/main/java/org/apache/iotdb/db/utils/writelog/PartitionLogReader.java:50 | when the loop condition fails, read has succeeded |
| PartitionLog.FileTimeIndexMap.Put | iotdb-core/datanode/src/main/java/org/apache/iotdb/db/utils/writelog/PartitionLogReader.java:58 | the map with the entry put |
| PartitionLog.LogInputStream.Open | iotdb-core/datanode/src/main/java/org/apache/iotdb/db/utils/writelog/PartitionLogReader.java:48-49 | a stream over the file's bytes, positioned at its start |
| PartitionLog.LogInputStream.ReadLong | iotdb-core/datanode/src/main/java/org/apache/iotdb/db/utils/writelog/PartitionLogReader.java:52-55 | the big-endian long at the cursor, or end-of-file when fewer than 8 bytes remain |
| PartitionLog.ReadLogRecord | iotdb-core/datanode/src/main/java/org/apache/iotdb/db/utils/writelog/PartitionLogReader.java:52-55 | the four readLong calls of one iteration give record i when a whole 32-byte record remains at byte 32*i, leaving the cursor after it, and end-of-file otherwise |
| PartitionLog.PartitionLogReader.Open | iotdb-core/datanode/src/main/java/org/apache/iotdb/db/utils/writelog/PartitionLogReader.java:39-45 | succeeds iff the region id parses as an int, failing with NumberFormatException otherwise; a reader holds the captured length, the parsed region id and the partition id |
| PartitionLog.PartitionLogReader.Read | iotdb-core/datanode/src/main/java/org/apache/iotdb/db/utils/writelog/PartitionLogReader.java:47-62 | the outcome is ReadOutcome, and the map is the old map with the loaded records put in file order |

## Left out

- Thread pools, executors, client managers and the `ConcurrentHashMap`'s concurrency are not modelled. Each coordinator operation is one atomic step.
- Planners, analyzers, visitors, `IQueryExecution.start` and `getStatus` are not modelled. Their observable behaviour is an `ExecutionOutcome` parameter to `Execution`: whether building or starting throws, whether the execution is a query, and its status.
- `MPPQueryContext`'s constructor never fails, so `queryContext != null` always holds in the `finally` block. The model always releases front-end memory.
- Memory release, the schema read lock, stop-and-cleanup and the slow-query and sampled-query loggers are modelled only as the ghost event trace.
- The `SetThreadName` scopes and the debug logs (`[QueryStart]`, `[CleanUpQuery]`) are not modelled at all; they change no state the model keeps.
- `System.currentTimeMillis` is the `startTime` parameter.
- The query-id generator is modelled as a counter: the next query number paired with the data node's id.
- The sampling rate limiter is an oracle parameter `tryAcquire`.
- Coordination.IsSampled: the rate limiter is asked for `|content|` permits, a count of Unicode characters; Java passes `queryRequest.length()`, a count of UTF-16 code units, which is larger for characters outside the Basic Multilingual Plane.
- Coordination.Coordinator.CleanupQueryExecution: `stopAndCleanup` cannot throw in the model. In the source an exception there skips `queryExecutionMap.remove`, leaving the execution registered, and skips the telemetry.
- `StatusUtils.needRetry` is not modelled: a status needs a retry when its code is in the configured retryable set.
- `CommonUtils.getContentOfRequest` is not modelled: the request's content when there is a request, otherwise the execution's sql.
- `ExecutionResult.queryId` is taken to be the global query id.
- `IQueryExecution.getTotalExecutionTime` and `recordExecutionTime` belong to classes outside this model. They are modelled as a total that starts at 0 and grows by each recorded time.
- Coordination.Coordinator.AllQueryExecutions: returns a set of executions rather than a list. It does not state that the list's length equals the map's size.
- Payload codecs of plan nodes, fragment ids and type providers are not modelled. They are function-valued parameters whose round trip is a hypothesis of the lemmas.
  - The decoder treats a payload decoder that consumes nothing, or overruns the buffer, as malformed input. This keeps the recursion well founded.
  - `serializeUseTemplate` is the template-aware codec that the type provider selects.
- `generateTypeProvider`, `generateTableModelTypeProvider`, `hashCode`, `toString` and the plain getters are not modelled. They are value computations outside the placement, framing and equality logic.
- `equals` compares classes with `getClass`. The model has one fragment class, so the null check stands for this.
- `PlanNode.equals` is taken as structural equality of the node datatype.
- PlanFragments.PlanFragment.TargetRegionForTreeModel, TargetRegionForTableModel and TargetLocation require a tree. With a null tree the source throws a NullPointerException, which the model does not represent.
- PlanFragments.PlanFragment.SerializeToStream and SerializeToBuffer require a tree. With a null tree the source writes the id (and, for the stream, the type-provider flag and type provider) and then throws a NullPointerException; the model does not represent that partial write.
- Whether a node is partition-related, i.e. an `IPartitionRelatedNode`, is an attribute of the node. The class hierarchy of plan nodes is not part of this model.
- PartitionLog.ParseDecimalInt accepts only ASCII digits. `Integer.parseInt` also accepts other Unicode decimal digits.
- Opening the file, closing the stream, and the stream left open when `read` throws are not modelled. The file's bytes are the `contents` parameter of `Read`; the constructor's captured `fileLength` is kept apart from them.
- The `long` counter `readLength` cannot overflow for any real file length, so it is an unbounded integer.
