# gRPC-Go core protocols in Dafny

A model of the parts of this gRPC implementation whose correctness rests on an invariant over whole runs, and proofs
of those invariants. `dafny verify dfyconfig.toml` checks the project.

- **Client retry and replay** (`RetryPolicy.dfy`, `Replay.dfy`): the retry decision and its throttler, and the stream
  that swaps attempts under a sending and a receiving goroutine, replays buffered operations and commits.
- **Autosharding balancer** (`ByteOrder.dfy`, `Sharding.dfy`, `SliceMap.dfy`, `EndpointMap.dfy`, `EndpointSharding.dfy`,
  `Autosharding.dfy`): assignments from the sharding server, the index and picker built from them, the child balancer
  over endpoints, and the balancer that keeps a cached index, clients and channels.
- **Buffers and framing** (`Buffers.dfy`, `Reader.dfy`, `Framing.dfy`): reference-counted buffers and their views, the
  reader over several buffers, and length-prefixed messages.
- **Connection and server lifecycles** (`SubConn.dfy`, `ServerStop.dfy`, `HandlerQuota.dfy`, `PickerWrapper.dfy`).
- **Health service** (`Health.dfy`).
- **Authorization policies** (`Rbac.dfy`): translator, engines, and the meaning of a policy.

One shape recurs. An object is a class whose methods are proved against a specification; one step of it, a critical
section, an atomic operation, a channel operation or a call, is proved equal to a function `Next` of its fields. What the
network, the clock, the application and random choices decide is part of a step's label. `Run` iterates `Next`, and
`AnyRun`, `AnyUse`, `AnyStream` and `AnyReads` drive the object through any list of steps: it arrives where `Run` does,
and what the module promises holds there. Further theorems are lemmas about `Next` and `Run`. A function that model and
specification share has a law of its own, which says in other words what it computes: the lemmas whose names end in
`Means`, `Decides` or `TakesEffect`.

Where the code does not do what its documentation says, the model follows the code:

- `Buffer.Slice` is documented to panic outside the view; the code checks the capacity behind it
  (`Buffers.Arena.Slice`). A range past the view with the view's length returns the buffer itself, which shows the bytes
  asked for only by coincidence (`Buffers.SlicePastView`).
- Access to a released buffer is documented to panic; it does so exactly while the object is not reused, since objects
  are recycled (`Buffers.Arena.Ref` panics exactly on an object that is not live; `Buffers.StaleReference`).
- A SubConn without addresses that is asked to connect stays in CONNECTING with no attempt at work
  (`SubConn.ConnectingWithoutAddressesSticks`) until the addresses change, it is torn down or the channel ends
  (`SubConn.StuckExactly`, `SubConn.StuckForGood`); `SubConn.AnyRun` proves that this is the only way to be stuck.
- READY implies a transport only while the channel's context lives: `updateAddrs` after the end of that context leaves
  READY with no transport, in exactly one case (`SubConn.BareExactly`, `SubConn.BareReached`).
- A negative retry buffer limit makes the first operation call a nil cleanup function (`Replay.PanicsExactlyBelowZero`);
  a commit between a write and its acknowledgement leaves one payload reference unreleased
  (`Replay.LeaksExactlyOnCommitRace`, `Replay.CommitRaceLeaks`).
- An endpoint without addresses and one with a single empty address share a key (`EndpointMap.KeyIff`).
- Two policy rules of one name in one list: the first is lost (`Rbac.DuplicateNameLosesRule`). The pattern `*` does not
  match text with a line break (`Rbac.StarIsAlmostNonEmpty`).

## Model

| member | source | states |
|---|---|---|
| RetryPolicy.ConvertRetryPolicy | service_config.go:271-302 | an invalid policy, spelled out, is an error; an absent one is absent, and a valid one keeps its codes and the smaller of its own and the channel's maximum attempts |
| RetryPolicy.RetryThrottler.constructor | clientconn.go:1169-1176 | a full bucket with half of it as threshold |
| RetryPolicy.RetryThrottler.Throttle | clientconn.go:1777-1788 | takes one token, never below zero, and refuses exactly at or below half of the maximum |
| RetryPolicy.RetryThrottler.SuccessfulRPC | clientconn.go:1790-1800 | adds the token ratio, never above the maximum |
| RetryPolicy.FailuresRefuse | clientconn.go:1777-1788 | from a full bucket n failures leave n tokens fewer, and retries are refused exactly from half of the bucket on |
| RetryPolicy.SuccessesRefill | clientconn.go:1790-1800 | n successes add n times the ratio, up to the maximum |
| RetryPolicy.ShouldRetry | stream.go:813-907 | exactly when an attempt is retried by policy and when transparently, and what each costs |
| RetryPolicy.NextKeepsTokens | clientconn.go:1777-1800 | potential argument: every admitted retry has paid a token that was full or earned |
| RetryPolicy.NextKeepsCalls | stream.go:813-931 | one decision keeps every call within its attempt limit and its single unprocessed retry |
| RetryPolicy.NextCounts | stream.go:813-931 | a retry by policy counts for its call, its budget and the channel, an unprocessed one for its call, a success for the channel, and nothing else changes |
| RetryPolicy.FreshRetries | stream.go:813-849 | on a fresh call a stream the server did not process is tried again, whatever the policy |
| RetryPolicy.RetryLimits | stream.go:813-931 | for any interleaving of calls on a channel: at most maxAttempts - 1 policy retries per call, at most one unprocessed retry, at most half the bucket plus ratio times successes admitted in all, tokens within bounds |
| RetryPolicy.ConfiguredLimits | service_config.go:271-302 | from the service config to any run on the channel: at most min(policy, channel maximum) - 1 policy retries of a call, and no channel with an invalid policy |
| Replay.ClientStream.CommitAttemptLocked | stream.go:791-802 | releases every buffered reference once, empties the buffer, sets committed, once |
| Replay.ClientStream.CleanUp | stream.go:791-802 | the loop releases exactly the references the buffered operations hold, each once |
| Replay.ClientStream.BufferForRetryLocked | stream.go:1052-1064 | keeps the operation, or commits and cleans up when the limit is exceeded |
| Replay.ClientStream.OverrunLocked | stream.go:1057-1061 | over the limit: commit, then clean up the operation |
| Replay.ClientStream.ReplayBufferLocked | stream.go:1043-1050 | the new attempt sees the longest prefix of the buffer it accepts |
| Replay.ClientStream.RetryOnce | stream.go:910-931 | one round of the retry loop is the round that `Replay.RoundDecides` describes |
| Replay.ClientStream.RetryLocked | stream.go:910-931 | the loop is the iteration of those rounds, on which `Replay.RetriesUntilExhausted` and `Replay.RetriesUntilAccepted` are proved |
| Replay.ClientStream.Finish | stream.go:1196-1261 | commits and ends the attempt, once |
| Replay.RoundEffect | stream.go:910-931 | one failed round changes only attempts, budget and cancellation; the others end the loop as specified |
| Replay.RoundDecides | stream.go:910-931 | a round gives up exactly if the retry is refused, which commits, or the call is cancelled, which does not; otherwise it makes one attempt, which sees what it accepts of the buffer, and swaps exactly if that is all of it |
| Replay.RetriesUntilExhausted | stream.go:910-931 | as long as attempts fail with a listed code, each round makes one attempt more; the round after the last one the policy allows gives up and commits |
| Replay.RetriesUntilAccepted | stream.go:910-931 | the loop ends with the first attempt that accepts the whole buffer, and that attempt has exactly the buffer |
| Replay.RetryReplays | stream.go:910-1050 | for every policy of more than one attempt that lists the code: a run from the start whose second attempt replayed the buffer and took the message that had failed |
| Replay.ReceiveRetries | stream.go:910-987 | likewise a run whose receive fails on the first attempt and is delivered from the second, to which the stream is then committed |
| Replay.RetryLoop | stream.go:910-931 | whatever the rounds: the buffer and references are kept or committed, a swap leaves a live attempt that has replayed the whole buffer, giving up leaves a dead one |
| Replay.NextKeeps | stream.go:943-987 | every step of either goroutine or of the environment keeps the invariant |
| Replay.FinishDecides | stream.go:1196-1261 | finishing commits and ends exactly the current attempt, once |
| Replay.TopDecides | stream.go:943-965 | where an operation runs: the committed attempt, the current one, or a first one made for it unless the call was cancelled |
| Replay.ApplyDecides | stream.go:943-987 | a write that succeeds is in the log of its attempt and nowhere else; one that fails ends the attempt, and is an error unless it closes the sending side |
| Replay.SendDecides | stream.go:943-987 | a sending operation ends exactly if kept, run on the committed attempt, without an attempt, or given up; it starts over exactly if its attempt was replaced, by another or by its own retry |
| Replay.ReceiveDecides | stream.go:943-987 | the same for a receiving operation, which changes nothing but the stream and what is delivered |
| Replay.OutsideDecides | stream.go:791-808 | the end of a stream ends its attempt only, a cancellation is remembered, commit and finish leave both goroutines where they are |
| Replay.KeepDecides | stream.go:1052-1064 | an operation is kept as long as the messages kept are within the limit; the first one over it commits and empties the buffer |
| Replay.BufferWithinLimit | stream.go:1052-1064 | over every run the messages kept for replay stay within the limit |
| Replay.ReceivedIsDelivered | stream.go:943-987 | what an attempt received is delivered, once and in order, exactly if it is still the current one, and commits the stream |
| Replay.ReplayIsExact | stream.go:910-1064 | in every reachable state of every interleaving the live current attempt has seen stream creation and then the application's operations, in order and each once; the buffer is complete; all deliveries come from one attempt |
| Replay.CommittedIsStable | stream.go:791-808 | from a committed state, any run keeps committed, the attempt and the empty buffer, so the unlocked read of the attempt is stable |
| Replay.ReferencesConserved | stream.go:1066-1135 | over every run each payload reference is in exactly one place and released at most once |
| Replay.LeaksExactlyOnCommitRace | stream.go:968-979 | a step leaves a reference unreleased if and only if the stream was committed between the write and its acknowledgement |
| Replay.CommitRaceLeaks | stream.go:968-979 | a run from the start that leaks, for every configuration, buffer limit from zero up and message size |
| Replay.NegativeLimitPanics | stream.go:1052-1064 | a negative limit reaches a call of a nil cleanup |
| Replay.PanicsExactlyBelowZero | stream.go:1052-1064 | some run calls a nil cleanup if and only if the limit is negative |
| ByteOrder.TotalOrder | balancer/autosharding/slice_map.go:64-79 | keys are totally and strictly ordered byte by byte |
| ByteOrder.LessMeans | balancer/autosharding/slice_map.go:64-79 | a key is less exactly if it is a proper prefix, or smaller at the first byte in which the two differ |
| Sharding.OverlapIff | balancer/autosharding/internal/sharding/sharding.go:363-472 | two valid slices share a key exactly when neither ends before the other begins |
| Sharding.ValidMeans | balancer/autosharding/internal/sharding/sharding.go:383-418 | valid are exactly the slices with keys up to 512 bytes that cover some key and name only endpoints that were sent |
| Sharding.ChunksConcatenate | balancer/autosharding/internal/sharding/sharding.go:363-382 | names and slices of an update are those of its chunks, one chunk after the other |
| Sharding.ValidOnesMeans | balancer/autosharding/internal/sharding/sharding.go:383-418 | of every slice sent exactly the valid copies are kept |
| Sharding.PendingMeans | balancer/autosharding/internal/sharding/sharding.go:226-302 | the chunks of an update are those since the last metadata message or reconnect, all of them and in order |
| Sharding.SortByStart | balancer/autosharding/internal/sharding/sharding.go:363-472 | a permutation sorted by start key |
| Sharding.SweepIsExact | balancer/autosharding/internal/sharding/sharding.go:363-472 | comparing with the largest end so far and the next start finds every overlap and no other |
| Sharding.Sweep | balancer/autosharding/internal/sharding/sharding.go:363-472 | the largest end so far and the open-ended mark stay right |
| Sharding.DropOverlapping | balancer/autosharding/internal/sharding/sharding.go:363-472 | keeps exactly the slices that overlap no other |
| Sharding.ValidateAssignment | balancer/autosharding/internal/sharding/sharding.go:363-472 | a slice survives if and only if it is valid, was sent once and shares no key with another valid slice |
| Sharding.BuildAssignment | balancer/autosharding/internal/sharding/sharding.go:484-537 | a partition of all keys that says of every key what the server said, with gaps filled |
| Sharding.Client.HandleMetadata | balancer/autosharding/internal/sharding/sharding.go:300-347 | reports exactly for a newer generation with a surviving slice, and the partition says of every key what the surviving slices say |
| Sharding.AnyStream | balancer/autosharding/internal/sharding/sharding.go:226-347 | over any messages and reconnects, exactly the updates that are newer than all before and leave a slice are reported, in order, each as a well-formed assignment that says of every key what the server said; generations strictly increase |
| SliceMap.BuildSliceMap | balancer/autosharding/slice_map.go:83-135 | the index of known endpoints per slice, and the pool of all |
| SliceMap.KnownMeans | balancer/autosharding/slice_map.go:83-135 | the positions listed for a slice are those of its endpoints that the resolver knows |
| SliceMap.Lookup | balancer/autosharding/slice_map.go:64-79 | the binary search finds the slice that owns the key |
| SliceMap.OwnerIsUnique | balancer/autosharding/slice_map.go:64-79 | one slice owns a key |
| SliceMap.IndicesOnto | balancer/autosharding/picker.go:57-86 | positions that are distinct and in range are all taken |
| SliceMap.IsPoolInFallback | balancer/autosharding/picker.go:90-97 | exactly when all endpoints of the pool are failing |
| SliceMap.NewPicker | balancer/autosharding/picker.go:57-86 | position i of the snapshot is the endpoint with index i, in any map order; each slice's fallback status is that of its own pool |
| SliceMap.PickFromPool | balancer/autosharding/picker.go:140-175 | for every random start: a READY endpoint if the pool has one, else wait having woken an idle one, else an endpoint's error |
| SliceMap.Pick | balancer/autosharding/picker.go:101-136 | which pool a key scans, and each error exactly when it applies |
| SliceMap.FromScratchUsable | balancer/autosharding/slice_map.go:83-135 | an index from a validated assignment is a partition with all positions in range |
| EndpointMap.EncodeInjective | resolver/map.go:201-212 | base64 of section 4 of RFC 4648 loses nothing |
| EndpointMap.LetterMeans | resolver/map.go:201-212 | the alphabet of section 4 of RFC 4648 |
| EndpointMap.GroupMeans | resolver/map.go:201-212 | four sextets hold the 24 bits of a group; what carries no data is padded |
| EndpointMap.SortSpec | resolver/map.go:201-212 | sorting gives a sorted permutation |
| EndpointMap.JoinInjective | resolver/map.go:201-212 | joining with spaces loses nothing when the parts have none |
| EndpointMap.EncodeEndpoint | resolver/map.go:201-212 | computes the key |
| EndpointMap.KeyIff | resolver/map.go:201-212 | keys are equal exactly when the address multisets are, or both are blank |
| EndpointMap.EndpointMap.Get | resolver/map.go:215-221 | the value stored under the key |
| EndpointMap.EndpointMap.Set | resolver/map.go:224-230 | changes the value of exactly the endpoints with that key |
| EndpointMap.EndpointMap.Delete | resolver/map.go:278-281 | removes exactly the endpoints with that key |
| EndpointSharding.Balancer.UpdateClientConnState | balancer/endpointsharding/endpointsharding.go:137-200 | children of endpoints that stay are kept, new ones made, dropped ones closed, each for the first time, and all are reported |
| EndpointSharding.Balancer.CloseExcept | balancer/endpointsharding/endpointsharding.go:182-187 | the loop over the children in any order closes exactly those without a place in the update, none of them closed before |
| EndpointSharding.Balancer.Close | balancer/endpointsharding/endpointsharding.go:217-222 | every child ever created has then been closed |
| EndpointSharding.StaysAccounted | balancer/endpointsharding/endpointsharding.go:137-200 | after an update every child ever created is in use or closed, and not both |
| EndpointSharding.Balancer.NextChildren | balancer/endpointsharding/endpointsharding.go:117-200 | whatever the rotation, one child per key, kept with its identity if there was one |
| EndpointSharding.OneChildEach | balancer/endpointsharding/endpointsharding.go:137-200 | the children of any list: one per key, keyed by their addresses, old identities kept and new ones fresh |
| EndpointSharding.NewIdsInUse | balancer/endpointsharding/endpointsharding.go:137-200 | every child an update creates is in use |
| EndpointSharding.Balancer.ChildUpdate | balancer/endpointsharding/endpointsharding.go:347-358 | exactly this child takes the new state, and the report is about all |
| EndpointSharding.EveryEndpointReported | balancer/endpointsharding/endpointsharding.go:251-306 | every endpoint with a key of its own is reported |
| Autosharding.FilterEndpoints | balancer/autosharding/autosharding.go:216-278 | exactly the endpoints with addresses that share neither hostname nor addresses with an earlier one kept, at consecutive positions, states carried over; the flag is set exactly when positions changed |
| EndpointSharding.HostMeans | balancer/autosharding/autosharding.go:200-210 | an endpoint goes by its hostname, or by its first address if it has none |
| Autosharding.FilteredMeans | balancer/autosharding/autosharding.go:216-278 | an endpoint with addresses is left out exactly if it clashes with one that is kept, and no two that are kept clash |
| Autosharding.CarriedMeans | balancer/autosharding/autosharding.go:244-278 | a known endpoint keeps its state at its new position; a new one is idle and cannot leave idle yet |
| Autosharding.AggregateStates | balancer/autosharding/autosharding.go:455-566 | the aggregated state, as counted and as said of the endpoints, and the idle endpoint that is woken, in any map order |
| Autosharding.AggregateMeans | balancer/autosharding/autosharding.go:455-566 | said of the endpoints: READY exactly if one is; else failing if two fail; else connecting if one connects or one of several fails; else idle if none fails and one is idle; else failing |
| Autosharding.BuildPicker | balancer/autosharding/autosharding.go:548-566 | whether the index was cached or rebuilt, the picker is the one a build from scratch gives, with the fallback setting given |
| Autosharding.Balancer.HandleNewEndpoints | balancer/autosharding/autosharding.go:151-278 | the endpoint map of the filtered endpoints; the cached index is marked exactly when positions changed |
| Autosharding.Balancer.Publish | balancer/autosharding/autosharding.go:455-566 | nothing exactly while inhibited; failing exactly after a bad resolver update or a sharding error without fallback; queueing exactly before any result; else the good picker for the current endpoints, assignment and fallback setting |
| Autosharding.ShownIsUnique | balancer/autosharding/autosharding.go:455-566 | endpoints, assignment and configuration leave no choice of what to publish, whatever is cached and in whatever order maps are walked |
| Autosharding.Balancer.EndUpdate | balancer/autosharding/autosharding.go:151-198 | updates are let through again, and what the current state asks for is published |
| Autosharding.ApplyReports | balancer/autosharding/autosharding.go:642-669 | each endpoint reported takes the state of one of its reports and can leave idle; the others and all positions stay |
| Autosharding.AppliedIsMerged | balancer/autosharding/autosharding.go:642-669 | with one report per hostname, the order of the reports plays no part |
| Autosharding.Balancer.UpdateState | balancer/autosharding/autosharding.go:642-669 | reported endpoints take their state and can leave idle, the others stay, and what the new state asks for is published; nothing happens once closed |
| Autosharding.Balancer.OnAssignment | balancer/autosharding/autosharding.go:414-449 | only results of the current client generation are installed and published, and installed generations never go back |
| Autosharding.Balancer.ResolverError | balancer/autosharding/autosharding.go:568-589 | the error is kept exactly without a good update |
| Autosharding.Balancer.HandleNewConfiguration | balancer/autosharding/autosharding.go:285-408 | rejected exactly without endpoints or channel factory, which leaves no client, channel or result; otherwise client and channel are replaced exactly when target or key changed |
| Autosharding.Configure | balancer/autosharding/autosharding.go:296-408 | a new channel exactly without a client or with a new key, and present exactly if the factory does not fail; a new client exactly with a new channel or target; opening and closing in the order of the code comes to the account: exactly what is replaced, or rejected, is closed |
| Autosharding.NextLifeMeans | balancer/autosharding/autosharding.go:296-408 | which client and channel there are after a configuration update: none when rejected, else the same channel exactly with a client and an unchanged key, and the same client exactly with that and an unchanged target |
| Autosharding.Account | balancer/autosharding/autosharding.go:296-408 | the account a change of client and channel has to come to: what is new is opened, what is gone is closed, a client before its channel; nothing is closed twice, no channel while an open client uses it, and the books stay balanced |
| Autosharding.Balancer.Close | balancer/autosharding/autosharding.go:601-636 | closing the two handles the balancer holds leaves no client and no channel open; no endpoint or result is left |
| Autosharding.HandlesAreOpen | balancer/autosharding/autosharding.go:601-636 | the handles held are those of the open client and channel, and closing them is what the account asks for |
| Autosharding.Policy.ReportInline | balancer/autosharding/autosharding.go:151-198 | the child's children for the filtered endpoints, their states in the endpoint map, every listed endpoint able to leave idle, and the update one stage further |
| Autosharding.Policy.ReportLater | balancer/autosharding/autosharding.go:642-669 | one child's new state, all children's states in the endpoint map, and what that asks for is published |
| Autosharding.Policy.BeginUpdate | balancer/autosharding/autosharding.go:151-176 | the filtered endpoints and their map, with child updates inhibited |
| Autosharding.Policy.ApplyConfig | balancer/autosharding/autosharding.go:285-408 | client, channel, ledger and results after a configuration update |
| Autosharding.Policy.Shut | balancer/autosharding/autosharding.go:601-636 | client, channel and all children are closed, and nothing is left |
| Autosharding.Policy.Handle | balancer/autosharding/autosharding.go:151-669 | each event changes exactly what the cache-free model says, and publishes exactly what it asks for |
| Autosharding.AnyRun | balancer/autosharding/autosharding.go:151-669 | over every sequence of events, state and ledger are those of a model without a cached index, and after each event exactly what the state asks for is published: index as from scratch, positions a bijection, all endpoints able to leave idle, state and fallback right; every child is in use or closed, not both; after Close every client, channel and child ever created is closed |
| Autosharding.PublishedIsUnique | balancer/autosharding/autosharding.go:151-669 | the events determine everything that is published |
| Autosharding.GenerationsAdvance | balancer/autosharding/autosharding.go:296-449 | over every run neither the client generation nor the generation of the installed result goes back |
| Autosharding.UpdateTakesEffect | balancer/autosharding/autosharding.go:151-408 | after the stages of a resolver update the endpoints are the filtered ones, and there is a client exactly if there is an endpoint and a channel factory |
| Autosharding.ResultTakesEffect | balancer/autosharding/autosharding.go:414-449 | exactly the results of the current client are installed and answered; a resolver error is kept exactly without endpoints or client |
| Autosharding.ChildTakesEffect | balancer/autosharding/autosharding.go:642-669 | a child's new state becomes that of its endpoint, which can then leave idle |
| Autosharding.CloseIsFinal | balancer/autosharding/autosharding.go:601-669 | after Close no event publishes anything or brings an endpoint, a result or a client back |
| Autosharding.AnyService | balancer/autosharding/autosharding.go:151-669 | whatever the server sends and whatever happens when: every routing picker with an assignment says of every key what one of the server's due updates said |
| Autosharding.Route | balancer/autosharding/picker.go:101-136 | through any published picker, key k is served by the live endpoints of the one slice that covers it, and the no-assignment answer never comes |
| Autosharding.RouteByServer | balancer/autosharding/picker.go:101-136 | from the server's update to the call: key k is served by the known endpoints of the surviving slice that covers it, rejected if that slice has none, and where no slice covers it goes to any endpoint exactly with fallback |
| Buffers.Arena.NewBuffer | mem/buffers.go:107-122 | pooled and counted exactly above the threshold, showing the given bytes |
| Buffers.Arena.Ref | mem/buffers.go:149-153 | panics exactly on a freed buffer, else one reference more |
| Buffers.Arena.Free | mem/buffers.go:155-181 | panics exactly on a freed buffer, else one reference less; the slice goes back to the pool exactly when no buffer covering it is left |
| Buffers.Arena.DropRef | mem/buffers.go:155-181 | the recursive release, through the root of a view |
| Buffers.Arena.Share | mem/buffers.go:201-210 | a new view with one reference; its root gains one |
| Buffers.Arena.Slice | mem/buffers.go:187-211 | panics exactly on a freed buffer or outside the capacity; the empty buffer, the buffer itself or a new view; the bytes asked for, but for a range past the view that has its length |
| Buffers.Arena.Split | mem/buffers.go:213-226 | panics exactly on a freed buffer or past the view; the two views are the two parts |
| Buffers.Arena.Read | mem/buffers.go:228-241 | panics exactly on a freed buffer; copies the bytes, which are still leased, keeps the rest, frees at the end |
| Buffers.DropKeeps | mem/buffers.go:155-181 | releasing a reference, through the root if it was a view's last, keeps the invariant and every other holder's view |
| Buffers.ReturnedIffUnheld | mem/buffers.go:36-46 | a slice is with the pool exactly when nobody holds a buffer covering it |
| Buffers.AnyUse | mem/buffers.go:107-241 | over any operations up to the first that panics, which happens exactly on a freed buffer or outside the bounds: objects, memory and pool returns are those of the model, a count is handles plus live views, no slice is returned twice, and one is returned exactly when unheld |
| Buffers.StaleReference | mem/buffers.go:45-46 | once the object is reused, a reference through a released pointer succeeds |
| Buffers.SlicePastView | mem/buffers.go:58-61 | such a range after a split is accepted and reads back the left part |
| Reader.Len | mem/buffer_slice.go:53-59 | the sum of the lengths |
| Reader.CopyTo | mem/buffer_slice.go:79-85 | fills the array with the concatenated bytes, as many as fit, and touches nothing else |
| Reader.Materialize | mem/buffer_slice.go:89-97 | the concatenated bytes |
| Reader.Reader.constructor | mem/buffer_slice.go:121-127 | all bytes unread |
| Reader.Reader.Remaining | mem/buffer_slice.go:144-146 | the exact unread length |
| Reader.Reader.Reset | mem/buffer_slice.go:150-156 | frees what is held, starts over |
| Reader.Reader.Close | mem/buffer_slice.go:160-165 | frees what is held, nothing unread |
| Reader.Reader.FreeFirstBufferIfEmpty | mem/buffer_slice.go:167-176 | drops the first buffer exactly at its end |
| Reader.Reader.Read | mem/buffer_slice.go:178-199 | the next bytes, as many as fit, and end of file exactly when none are left |
| Reader.Reader.ReadByte | mem/buffer_slice.go:202-218 | the next byte |
| Reader.Reader.Discard | mem/buffer_slice.go:296-315 | skips up to n bytes, with an error exactly when there are fewer |
| Reader.Reader.Peek | mem/buffer_slice.go:327-345 | the next n bytes as non-empty views without moving, or an error exactly when there are fewer |
| Reader.AnyReads | mem/buffer_slice.go:121-345 | any operations over any buffers answer as a cursor over the concatenation, and each buffer is freed once |
| Framing.MsgHeader | rpc_util.go:877-893 | header and payload are the frame of the message |
| Framing.PutUint32 | rpc_util.go:890-893 | the four bytes written are the base-256 digits of the length modulo 2^32 |
| Framing.CutMeans | internal/transport/transport.go:465-536 | a clean end becomes an unexpected one; any other error stays |
| Framing.LengthFits | rpc_util.go:877-893 | the length field is right exactly below 2^32 bytes |
| Framing.Parser.ReadHeaderPart | internal/transport/transport.go:241-366 | up to the wanted bytes from one buffer, or the error that ends the stream |
| Framing.Parser.ReadPart | internal/transport/transport.go:261-382 | up to the wanted bytes from one buffer, split if longer |
| Framing.Parser.ReadMessageHeader | internal/transport/transport.go:465-488 | the next five bytes; an end inside them is unexpected |
| Framing.Parser.Read | internal/transport/transport.go:500-536 | the next n bytes; an end inside them is unexpected |
| Framing.Parser.RecvMsg | rpc_util.go:783-807 | one message off the byte stream as specified, every error included |
| Framing.ReceiveStream | rpc_util.go:783-807 | all messages up to the first error, whatever the buffers |
| Framing.FramesFirst | rpc_util.go:783-807 | framed messages come back first, whatever follows |
| Framing.CutInside | rpc_util.go:783-807 | a cut inside a message is an unexpected end, never a clean one |
| Framing.TooLarge | rpc_util.go:783-807 | a message above the limit ends with ResourceExhausted |
| Framing.RoundTrip | rpc_util.go:783-893 | however the bytes are split, the same messages and then the end |
| SubConn.AddrConn.ResetTransport | clientconn.go:1356-1384 | a new attempt exactly under a live context |
| SubConn.AddrConn.Connect | clientconn.go:1006-1024 | an attempt exactly from Idle |
| SubConn.AddrConn.UpdateAddrs | clientconn.go:1042-1099 | restarts under a new context exactly when connecting or connected to a lost address |
| SubConn.AddrConn.Abandon | clientconn.go:1082-1090 | the context is cancelled for a new one and the transport let go |
| SubConn.AddrConn.TryNext | clientconn.go:1482-1515 | the next address, the end of the list, or cancelled |
| SubConn.AddrConn.DialFails | clientconn.go:1557-1566 | on to the next address |
| SubConn.AddrConn.DialSucceeds | clientconn.go:1557-1568 | the transport is up and waits to be installed |
| SubConn.AddrConn.Install | clientconn.go:1568-1600 | closed when cancelled, Idle when already closed, else installed and READY unless a health check manages the state |
| SubConn.AddrConn.AfterFailure | clientconn.go:1399-1411 | TRANSIENT_FAILURE and backing off, unless cancelled |
| SubConn.AddrConn.Wake | clientconn.go:1413-1424 | timer, reset or cancellation ends the wait |
| SubConn.AddrConn.GoIdle | clientconn.go:1426-1431 | Idle after the wait, unless cancelled |
| SubConn.AddrConn.Finish | clientconn.go:1433-1439 | the backoff starts over |
| SubConn.AddrConn.OnClose | clientconn.go:1524-1551 | a closing transport takes down the connection exactly when it is the installed one under a live context |
| SubConn.AddrConn.SetConnectivityState | clientconn.go:1667-1674 | a health report counts only for the installed transport |
| SubConn.AddrConn.ResetConnectBackoff | clientconn.go:1688-1694 | resets the backoff and wakes those waiting |
| SubConn.AddrConn.TearDown | clientconn.go:1710-1763 | Shutdown, no transport, context cancelled |
| SubConn.AddrConn.EndChannel |  clientconn.go:1214-1269 | the end of the channel's context cancels all contexts derived from it |
| SubConn.AddrConn.GetReadyTransport | clientconn.go:1697-1704 | an open transport whenever READY while the channel lives |
| SubConn.AddrConn.SetState | clientconn.go:1309-1338 | reports exactly the changes, nothing after Shutdown |
| SubConn.AnyRun | clientconn.go:1006-1763 | after any interleaving the state is that of the step model, and: at most one attempt under a live context dials or waits, captured contexts are current or cancelled, READY has an open transport while the channel lives, every change is reported and nothing follows Shutdown, only a SubConn without addresses can be stuck |
| SubConn.Perform | clientconn.go:1006-1763 | each step of the object is the step of the model |
| SubConn.CanGetReady | clientconn.go:1006-1600 | no dead end: from every safe state with addresses, without a transport, not shut down, while the channel lives, there is a list of Connect calls, goroutine steps and dial outcomes whose run is READY |
| SubConn.ConnectingWithoutAddressesSticks | clientconn.go:1482-1515 | from every Idle state with an empty list under a live context, connecting leads to CONNECTING with no attempt at work |
| SubConn.StuckExactly | clientconn.go:1006-1763 | a step leaves that state if and only if it is an update to other addresses, a teardown or the end of the channel |
| SubConn.StuckForGood | clientconn.go:1006-1763 | any run without such a step stays there |
| SubConn.BareExactly | clientconn.go:1042-1099 | a step leads to READY without a transport if and only if it is an update, in READY after the channel's context ended, to other addresses, at least one, that lack the connected one |
| SubConn.BareReached | clientconn.go:1082-1098 | there is such a run from the start |
| ServerStop.Server.Serve | server.go:909-927 | refused once listeners are gone, else counted |
| ServerStop.Server.Accept | server.go:954-998 | the connection is counted before its goroutine starts |
| ServerStop.Server.EndLoop | server.go:920-927 | the accept loop is no longer counted |
| ServerStop.Server.HandleRawConn | server.go:1003-1007 | dropped when quitting |
| ServerStop.Server.HandshakeFails | server.go:1010-1015 | the connection is no longer counted |
| ServerStop.Server.HandshakeSucceeds | server.go:1003-1030 | in the table before the wait group lets go |
| ServerStop.Server.EndRawConn | server.go:993-997 | the connection's goroutine is no longer counted |
| ServerStop.Server.AddConn | server.go:1158-1177 | refused and closed without a table; else in the table, and drained once if the server is draining, which closes an HTTP handler's transport |
| ServerStop.Server.RemoveConn | server.go:1179-1194 | removed, its address with the last one |
| ServerStop.Server.BeginCallback | server.go:1092-1095 | the handler is counted, while the table is there |
| ServerStop.Server.Dispatch | server.go:1102-1111 | never sends on the closed worker channel |
| ServerStop.Server.HandlerReturns | server.go:1096-1100 | exactly this handler is no longer counted |
| ServerStop.Server.EndStreams | server.go:1085-1090 | the transport is closed before it is removed |
| ServerStop.Server.Stop | server.go:1690-1695 | quit is fired first |
| ServerStop.Server.CloseListeners | server.go:1695-1700 | no more listening |
| ServerStop.Server.AfterServe | server.go:1700-1709 | a graceful stop drains each transport in the table once, unless another has; a Stop closes them |
| ServerStop.Server.AfterConns | server.go:1711-1722 | the table and the worker channel go exactly when the table is empty |
| ServerStop.Server.AfterHandlers | server.go:1724-1732 | returns with no handler left |
| ServerStop.AnyRun | server.go:909-1767 | after any interleaving with any number of Stop and GracefulStop calls the state is that of the step model, and: no panic, callbacks only for transports in the table, every transport in it drained exactly once when draining, table gone and no handler left when GracefulStop has returned |
| ServerStop.GracefulClosesNothing | server.go:1700-1757 | over every run: as long as no Stop has dealt with the transports, none that serves is closed unless it is an HTTP handler's, and such a one is closed once drained |
| ServerStop.SweepCloses | server.go:1700-1757 | a Stop closes every transport in the table and no other; a GracefulStop drains each once and closes exactly those of HTTP handlers |
| ServerStop.Perform | server.go:909-1767 | each step of the object is the step of the model |
| ServerStop.NothingStartsAfterTheEnd | server.go:1711-1722 | from any state without a table and with all transports gone, no run starts a handler or brings one back |
| ServerStop.CanFinish | server.go:1690-1738 | no dead end: from every state there is a list of steps whose run brings a call of stop to its return |
| HandlerQuota.AtomicSemaphore.Acquire | server.go:1978-1983 | blocks exactly when the quota is used up |
| HandlerQuota.AtomicSemaphore.Wake | server.go:1978-1983 | the blocked acquirer takes the token |
| HandlerQuota.AtomicSemaphore.Release | server.go:1985-1994 | owes a send exactly when the acquirer waits for it |
| HandlerQuota.AtomicSemaphore.Send | server.go:1985-1994 | never blocks |
| HandlerQuota.AnyRun | server.go:1973-2000 | after any interleaving: at most the quota runs, the counter is never below -1, no send blocks, and a waiting acquirer will be woken exactly when the quota is not zero |
| HandlerQuota.Unblocks | server.go:1973-2000 | the run of at most one release, one send and one wake, in this order, lets a waiting acquirer go on |
| PickerWrapper.Wrapper.Swap | picker_wrapper.go:63-69 | replaces the generation; panics exactly after close |
| PickerWrapper.Wrapper.Close | picker_wrapper.go:205-208 | no generation; panics exactly when closed before |
| PickerWrapper.Wrapper.CloseChannel | picker_wrapper.go:63-69 | closes a channel that was open |
| PickerWrapper.Wrapper.Begin | picker_wrapper.go:105-109 | a new RPC knows no channel and was not blocked |
| PickerWrapper.Wrapper.Load | picker_wrapper.go:111-155 | asks the current generation unless it has no picker or was asked before |
| PickerWrapper.Wrapper.Answer | picker_wrapper.go:157-202 | each outcome of a pick, and whether the RPC was blocked |
| PickerWrapper.Wrapper.Wake | picker_wrapper.go:119-140 | a blocked RPC that cannot go on waits for the current generation or for a close that is due |
| PickerWrapper.Wrapper.ContextDone | picker_wrapper.go:123-136 | the context's error, with the last balancer error if there was one |
| PickerWrapper.AnyRun | picker_wrapper.go:53-215 | after any interleaving the state is that of the step model, and: every replaced generation closed once or about to be, generations asked by an RPC strictly advance, no RPC sleeps through a newer picker |
| PickerWrapper.Perform | picker_wrapper.go:53-215 | each step of the object is the step of the model |
| PickerWrapper.PanicsExactly | picker_wrapper.go:63-208 | a run panics if and only if something is swapped in after close; no channel is closed twice |
| PickerWrapper.NewPickerUnblocks | picker_wrapper.go:61-155 | from every safe state, the run of a swap, the close that is due, a wake and a load makes a blocked RPC ask the new picker |
| PickerWrapper.LoadedMeans | picker_wrapper.go:111-155 | when an RPC asks, waits or ends as it loads the current generation |
| PickerWrapper.AnsweredMeans | picker_wrapper.go:157-202 | which answer of a picker ends an RPC and how, and which lets it go on |
| PickerWrapper.ExpiredMeans | picker_wrapper.go:119-136 | an expired context ends a waiting RPC with its own error, and says whether the balancer had failed before |
| Health.Server.Check | health/server.go:61-70 | the status, or unknown service |
| Health.Server.Watch | health/server.go:90-115 | registered with the current status pending, unknown service if there is none |
| Health.Server.Receive | health/server.go:117-130 | takes the update and sends it unless it was the last sent |
| Health.Server.ContextDone | health/server.go:130-132 | the watch ends |
| Health.Server.Put | health/server.go:150-162 | the slot that was emptied is still empty, so the send does not block; the new status is pending |
| Health.Server.Unregister | health/server.go:107-114 | exactly this watcher is gone |
| Health.Server.SetServingStatusLocked | health/server.go:150-162 | the status is set and exactly the watchers of the service lie ahead |
| Health.Server.Drain | health/server.go:152-158 | an update not yet taken is cleared; receives may come before the slot is filled |
| Health.Server.Unlock | health/server.go:139-148 | once every watcher is told, all registered watchers are up to date |
| Health.Server.SetServingStatus | health/server.go:139-148 | takes the lock, and is ignored after Shutdown |
| Health.Server.SetAll | health/server.go:169-190 | takes the lock to set all known services to one status |
| Health.AnyRun | health/server.go:53-190 | after any interleaving, receives inside setters included, the state is that of the step model, and: pending update or last taken is current for every registered watcher that a setter at work has not yet to tell, nothing sent twice in a row, no send of a setter ever blocks, every known service NOT_SERVING or about to be while shut down |
| Health.Perform | health/server.go:53-190 | each step of the object is the step of the model |
| Health.SetterFinishes | health/server.go:150-190 | from every state with a setter at work, its own steps bring it to its end without waiting, and what it leaves is as if done at once: all its services set and exactly their watchers told |
| Health.SetTakesEffect | health/server.go:139-162 | a status set ends as the service's and pending for each of its watchers, or changes nothing once shut down |
| Health.SetAllTakesEffect | health/server.go:169-190 | Shutdown and Resume end with every known service set, and with statuses ignored or taken from then on |
| Health.ReceivedMeans | health/server.go:117-130 | an update is sent exactly if it differs from the last one taken, and the watch ends exactly if that send fails |
| Health.BlocksExactly | health/server.go:150-162 | a send blocks exactly if the slot is taken |
| Rbac.MatcherMeans | authz/rbac_translator.go:113-135 | the matcher of a pattern accepts what the pattern stands for |
| Rbac.GetStringMatcher | authz/rbac_translator.go:113-163 | never an empty prefix or suffix |
| Rbac.StarIsAlmostNonEmpty | authz/rbac_translator.go:115-119 | exactly where `*` differs from any text that is not empty |
| Rbac.PeerMeans | internal/xds/rbac/matchers.go:445-480 | a principal matches one of the peer's names from the first source that has any |
| Rbac.ParsePrincipalNames | authz/rbac_translator.go:165-177 | one matcher per principal, in order |
| Rbac.ParsePaths | authz/rbac_translator.go:190-200 | one matcher per path, in order |
| Rbac.ParseHeaderValues | authz/rbac_translator.go:202-211 | one matcher per value, in order |
| Rbac.ParsePeer | authz/rbac_translator.go:165-188 | anyone, or any of the principals |
| Rbac.HeaderMeans | authz/rbac_translator.go:202-246 | a header permission says of the original metadata what the header says, pseudo-headers aside |
| Rbac.JoinedMeans | internal/xds/matcher/matcher_header.go:38-48 | one value stands for itself, and a comma joins what comes before with what comes after |
| Rbac.JoinedSplits | internal/xds/matcher/matcher_header.go:38-48 | values without commas can be read back from what header matchers see |
| Rbac.LowerMeans | authz/rbac_translator.go:235-239 | lower case forgets the case of letters and nothing else |
| Rbac.UnsupportedMeans | authz/rbac_translator.go:213-246 | pseudo-headers, gRPC's own and hop-by-hop headers are exactly those that cannot be named |
| Rbac.ParseHeaders | authz/rbac_translator.go:229-246 | all headers, or the first that is refused |
| Rbac.ParseRequest | authz/rbac_translator.go:248-268 | any of the paths and all of the headers |
| Rbac.ParseRules | authz/rbac_translator.go:270-287 | the last rule of each name, or the first that is refused |
| Rbac.TranslatePolicy | authz/rbac_translator.go:362-398 | refused exactly when bad, with the right error; deny engine first, then allow |
| Rbac.MatchersFromPermissions | internal/xds/rbac/matchers.go:78-144 | one matcher per permission that accepts exactly its requests, or an error exactly if one has an empty prefix or suffix somewhere |
| Rbac.MatcherFromPermission | internal/xds/rbac/matchers.go:78-144 | the same for one permission, however and, or and not are nested |
| Rbac.ValidMatcherMeans | internal/xds/rbac/matchers.go:78-144 | refused is exactly a prefix or suffix that every text has |
| Rbac.PermissionMeans | internal/xds/rbac/matchers.go:78-144 | and, or and not compose as their names say; a rule on dynamic metadata holds exactly if inverted |
| Rbac.MatchersFromPrincipals | internal/xds/rbac/matchers.go:146-225 | one matcher per principal that accepts exactly its requests, or an error exactly if one has an empty prefix or suffix somewhere |
| Rbac.MatcherFromPrincipal | internal/xds/rbac/matchers.go:146-225 | the same for one principal |
| Rbac.NewPolicyMatcher | internal/xds/rbac/matchers.go:51-71 | accepts exactly the requests that one of the permissions and one of the principals accept, or an error |
| Rbac.NewEngine | internal/xds/rbac/rbac_engine.go:129-155 | an engine whose every policy decides as configured, or an error exactly for an invalid one |
| Rbac.NewChainEngine | internal/xds/rbac/rbac_engine.go:56-66 | one engine per configuration, in order, deciding as configured, or an error exactly for an invalid one |
| Rbac.FindMatchingPolicy | internal/xds/rbac/rbac_engine.go:182-189 | a policy that matches, exactly when some does |
| Rbac.IsAuthorized | internal/xds/rbac/rbac_engine.go:82-114 | engines built from these configurations authorize exactly when every allow configuration has a matching policy and no deny configuration has |
| Rbac.RpcDataMeans | internal/xds/rbac/rbac_engine.go:191-250 | the engine sees the metadata without TE and with method and path as pseudo-headers |
| Rbac.Authorize | authz/rbac_translator.go:362-398 | translation and evaluation authorize a request exactly when no deny rule matches and some allow rule does, the last rule of each name counting; that is what the policy says if and only if no match that decides is lost to a later rule of its name; every policy that translates gives valid engines |
| Rbac.DuplicateNameLosesRule | authz/rbac_translator.go:280-284 | with a repeated name a denied request is let through |

## Left out

- The HTTP/2 transport, TLS, dialing, name resolution and the xDS client: a transport may fail, close or deliver bytes at
  any time.
- Stats, channelz, tracing, binary logging, metrics and audit logging, with the policy errors that come from audit
  options.
- JSON, protobuf and compression; codecs and marshalling are not modelled.
- Timers, backoff durations, jitter and random choices: any value may come.
- Options, registries, credentials and status tables are not modelled.
- `AddressMapV2`, `balancer/base` and `balancer/grpclb`.
- What child pickers and child balancers do inside: only their callbacks count.
- `mem.ReadAll`, `mem.Copy`, `MaterializeToBuffer` and the methods of `SliceBuffer` and `emptyBuffer` are not modelled.
- Buffers: buffer objects are entries of `Arena.bufs` by identity rather than Dafny objects, so aliasing is identity
  of keys; the 32-bit reference counter is unbounded.
- Buffers.AnyUse: operations on a live buffer nobody holds are not performed, since the source demands a reference.
- Framing: waiting for data is not modelled, the stream's end is always in the queue; an `emptyBuffer` in the queue,
  which the transport never puts there, is not modelled.
- RetryPolicy: floating point is modelled over reals.
- Replay: `Header` and `RecvMsg` are one receiving operation; deadlines are cancellations.
- SubConn: whether the connected address is among new ones is part of the step, instead of comparing addresses.
- ServerStop.Server.AfterServe: transports are marked by a pass over all of them instead of over the nested maps.
- Rbac: `strings.ToLower` is modelled on ASCII letters; the missing-metadata, missing-peer and missing-method errors of
  an incoming context are not modelled, nor are matchers on addresses, ports and server names.
- Autosharding.AnyService: the results come from the message stream of one sharding client; `Autosharding.AnyRun` takes
  well-formed results from any.
- EndpointMap: iteration order and `Len`, `Keys`, `Values`, `All` are not modelled.
