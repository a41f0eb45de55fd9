# Stout, modelled and proved in Dafny

Stout is the daemon that spools and spawns workers for the Cocaine runtime. This
project models the parts of it whose correctness cannot be read off one function
body, and proves what they promise:

* **The MTN address pool** (`MtnPool`, `MtnRuns`). A transactional store of network
  allocations, the containers that take and return them, refills, restarts and
  garbage collection. A step keeps "no address is held twice and every held one is
  marked used" exactly when a stated condition on its inputs holds; along every run of
  such steps no address is handed out twice.
* **The spawn/kill handshake** (`SpawnProtocol`). Every interleaving of the goroutine
  that spawns a worker with any number of goroutines that kill it, over an unbuffered
  channel, two contexts and a compare-and-swap flag.
* **The connection loop** (`MessagePack`, `Framing`, `Connection`). How a byte stream is
  cut into messages of multiplexed channels, and how long a channel lives while other
  goroutines detach it.
* **The generated codec of the Porto profile** (`ProfileDecoder`,
  `DecoderLoops`, `ProfileRefinement`, `ProfileRoundTrip`, `ProfileLimits`,
  `ProfileCodec`, `ProfileReorder`). Round trip into a target that already holds
  something, independence of entry order and of unknown entries, and the size bound.
* **Coalesced downloads** (`SingleFlight`), **the process reaper** (`Reaper`), **spawn
  admission** (`Admission`), **the attach-stream demultiplexer** (`Demux`) and **journal
  pruning** (`Journal`).

Code that changes things in place is a class or a method with loops, proved against a
specification function; protocols are step relations, and their theorems are about
every state of every run. Calls into Porto, Docker, bolt, HTTP and the kernel are
parameters (`Faults`, `Posts`, `Chances`, `Chunks`, `Buffering`) or actions of a step
relation, so a theorem holds for everything they can answer.

## What does not hold as one might expect

Where a natural claim is false of the code, the code is kept and a lemma says exactly
when the claim holds.  Where it takes a run, a stream or a target to see it fail,
another lemma gives one.

* Decoding a profile into a target whose map fields share a map object can lose one of
  the two maps (`ProfileRoundTrip.SharedMapsClash`). It yields the profile exactly when
  fields that share a map are given equal maps (`ProfileRoundTrip.RoundTrip`). Order
  independence needs that no two fields share a map (`ProfileReorder.ReorderExactly`).
* `Reader.Skip` sizes an object from five bytes when it finds that many buffered, but an
  extension with a four-byte length has a header of six. So an unknown profile field with
  such a value can make the stream decoder fail. A profile with one more entry is another
  stream, buffered in another way: even a harmless entry can move such a value to where it
  is met with five bytes buffered (`ProfileReorder.MovedAlong`). The outcome stays the same
  exactly when, in the new stream, the new value and the unknown ones before and behind it
  can be skipped (`ProfileReorder.UnknownExactly`). A skipped message argument with such a
  value can leave the connection loop in the middle of the message, because the error is
  ignored (`Connection.Framed`, `Connection.ThrownOff`).
* The stream decoder refuses an empty map key, the byte-slice decoder does not
  (`MessagePack.ReadMapKeyEnc`).
* Strings of 4 GiB and more do not survive encoding (`ProfileRoundTrip.StringRoundTrip`), and
  a profile with such a string, or with as many entries in a map or list, never comes back
  (`ProfileLimits.NeverBack`): decoding it fails or yields another profile, even in a target
  that held the very same one before.
* A refill overwrites stored entries (`MtnRuns.RefillOverwrites`). It is safe exactly when
  the allocator returns no id that is held at the moment (`MtnRuns.StepExactly`).
* The garbage collector frees an entry whose container is created but not yet running
  (`MtnRuns.GcIsEarly`), and every entry of the box when listing the containers fails. It
  is safe exactly when every held entry of the box has its address among the live ones
  (`MtnRuns.StepExactly`).
* A container whose creation fails after it took an address leaves the entry marked
  used (`MtnRuns.CreateContainer`).
* A channel that is detached while the loop is handling the message that opened it gets a
  dispatcher all the same; any other absent channel never gets one again
  (`Connection.ComesBackExactly`).
  Channel 0 can never be opened, since the highest channel starts at 0.
* A worker that dies before the handler listens for `SIGCHLD` can stay a zombie
  (`Reaper.MissedAtStart`). No wakeup is lost exactly when no signal comes in while nobody
  listens and a child is dead (`Reaper.NoLostWakeup`).
* The Porto box leaves `Spawn` between increment and decrement (`Admission.Leaks`). It
  refuses every later spawn exactly when ten have left like that (`Admission.ShutOut`).
* A header of the attach stream that arrives in two reads is misread. The output is right
  for every stream exactly when header reads are short only at its end
  (`Demux.FullReadsExactly`).

## Model

| member | source | states |
|---|---|---|
| MessagePack.ReadMapHeaderEnc | vendor/github.com/tinylib/msgp/msgp/read_bytes.go:159-200 | on every well-formed object the map header reader yields the number of entries and stops before the first, or refuses what is not a map |
| MessagePack.ReadArrayHeaderEnc | vendor/github.com/tinylib/msgp/msgp/read_bytes.go:220-256 | the same for arrays |
| MessagePack.ReadStringEnc | vendor/github.com/tinylib/msgp/msgp/read_bytes.go:829-896 | a string of any of the four forms is read back with what follows it, everything else is refused |
| MessagePack.ReadMapKeyEnc | vendor/github.com/tinylib/msgp/msgp/read_bytes.go:203-215 | keys may be strings or binaries; the stream reader refuses an empty one |
| MessagePack.ReadUintEnc | vendor/github.com/tinylib/msgp/msgp/read_bytes.go:514-590 | every unsigned and non-negative signed form yields its value, everything else is refused |
| MessagePack.SkipEnc | vendor/github.com/tinylib/msgp/msgp/read.go:295-337 | a skip drops exactly one object of any nesting, or fails exactly when it meets a four-byte-length extension with five bytes buffered |
| MessagePack.PortableSkips | vendor/github.com/tinylib/msgp/msgp/read_bytes.go:1142-1197 | objects without such extensions can be skipped however the stream is buffered, the byte-slice skip takes all objects, and with five bytes always buffered no other object can be skipped |
| ProfileRefinement.DecodeProfileRefine | isolate/porto/profile_decodable.go:790-1011 | on every well-formed object, from a slice or a stream buffered in any way, whatever follows it and whatever the target holds, the byte decoder does what the decoder of parse trees does, errors and partial writes included, if it gets past every value it has no field for, and fails if it does not |
| ProfileRefinement.DecodeLayerRefine | isolate/porto/profile_decodable.go:274-325 | the same for a layer |
| ProfileRefinement.DecodeInfoRefine | isolate/porto/profile_decodable.go:98-144 | the same for the extended info with its array of layers |
| ProfileRefinement.DecodeVolumeRefine | isolate/porto/profile_decodable.go:1172-1235 | the same for an extra volume with its map |
| ProfileDecoder.ProfileHarmless | isolate/porto/profile_decodable.go:334-554 | every decoder gets past every value of an object without four-byte-length extensions, and the byte-slice decoder past every value |
| ProfileRoundTrip.StringRoundTrip | vendor/github.com/tinylib/msgp/msgp/write_bytes.go:205-230 | a string is read back with what follows it exactly when it is shorter than 2^32 bytes |
| ProfileRoundTrip.ProfileTreeEnc | isolate/porto/profile_decodable.go:722-787 | for every profile and every map iteration order, the bytes the encoder appends are the encoding of a well-formed object |
| ProfileRoundTrip.DecodeMarshalled | isolate/porto/profile_decodable.go:790-1011 | decoding what was marshalled always succeeds, leaves exactly what followed, and leaves in each map object the last map written to it, despite slice reuse and map clearing |
| ProfileRoundTrip.RoundTrip | isolate/porto/profile_decodable.go:722-1011 | unmarshalling a marshalled profile whose lengths fit into any target yields the profile, nil and empty identified, exactly when map fields of the target that share an object receive equal maps |
| ProfileRoundTrip.SharedMapsClash | isolate/porto/profile_decodable.go:825-855 | a profile and a target with one map object for two fields, into which it does not survive |
| ProfileLimits.NeverBack | isolate/porto/profile_decodable.go:722-1011 | of a profile with a length of 2^32 or more anywhere, decoding the marshalled bytes fails or leaves another profile in the target, whatever that held and however the bytes are read |
| ProfileCodec.LayerSizeBound | isolate/porto/profile_decodable.go:328-331 | the size estimate of a layer is at least the length of its encoding |
| ProfileCodec.InfoSizeBound | isolate/porto/profile_decodable.go:147-153 | the same for the extended info |
| ProfileCodec.VolumeSizeBound | isolate/porto/profile_decodable.go:1238-1247 | the size estimate of an extra volume is at least the length of its encoding, whatever orders the two walk its map in |
| ProfileCodec.ProfileSizeBound | isolate/porto/profile_decodable.go:1014-1049 | the same for a whole profile, for every order of the estimate and every order of the encoder |
| ProfileCodec.AppendMap | isolate/porto/profile_decodable.go:736-740 | the loop over a map appends its header and each of its entries once, in some order |
| ProfileCodec.Marshal | isolate/porto/profile_decodable.go:722-787 | what is appended is the encoding of the profile along some walk that visits every map entry once, and it fits into the room reserved by the estimate, which walks the maps in an order of its own |
| ProfileCodec.VisitsSize | isolate/porto/profile_decodable.go:1017-1022 | the estimate for a map does not depend on the order it is walked in |
| ProfileCodec.Msgsize | isolate/porto/profile_decodable.go:1014-1049 | the accumulated size is the same for every walk of the profile, and at least the length of what any walk prints |
| ProfileCodec.UnmarshalLayer | isolate/porto/profile_decodable.go:274-325 | the loop over the entries of a layer computes the decoder of its specification, in the target left by an error too |
| ProfileCodec.UnmarshalLayers | isolate/porto/profile_decodable.go:115-133 | the loop over the array of layers reuses the cells of the target as specified |
| ProfileCodec.UnmarshalBinds | isolate/porto/profile_decodable.go:903-921 | the loop over the binds reuses the cells of the target as specified |
| ProfileCodec.UnmarshalInfo | isolate/porto/profile_decodable.go:98-144 | the loop over the extended info computes its specification |
| ProfileCodec.Target.UnmarshalMapAt | isolate/porto/profile_decodable.go:825-855 | a map field is cleared and refilled in place, so that every field sharing the object sees it |
| ProfileCodec.Target.UnmarshalVolumes | isolate/porto/profile_decodable.go:982-1001 | the extra volumes are decoded in place, cell by cell, as specified |
| ProfileCodec.Target.Unmarshal | isolate/porto/profile_decodable.go:790-1011 | the loop over the profile leaves the target and the unread bytes its specification says, on success and on error |
| ProfileCodec.Transfer | isolate/porto/profile_decodable.go:722-1011 | a profile marshalled and unmarshalled into another object arrives exactly when all its lengths fit and variables of the object that share a map are to receive equal maps; when they fit it is read to its end |
| ProfileCodec.RoundTripExactly | isolate/porto/profile_decodable.go:722-1011 | along every walk of every profile: it comes back into a target exactly when all its lengths fit and variables of the target that share a map are to receive equal maps |
| ProfileCodec.WalksFits | isolate/porto/profile_decodable.go:722-787 | whether all lengths of a profile fit the format does not depend on the walk, map by map |
| ProfileReorder.LayerSame | isolate/porto/profile_decodable.go:274-325 | entries of a layer permuted, unknown ones added or dropped: the same result |
| ProfileReorder.InfoSame | isolate/porto/profile_decodable.go:98-144 | the same at the level of the extended info and inside its layers |
| ProfileReorder.VolumeSame | isolate/porto/profile_decodable.go:1172-1235 | the same for an extra volume |
| ProfileReorder.FieldsCommute | isolate/porto/profile_decodable.go:799-1008 | two different fields of the profile can be decoded in either order, the outcome of errors included, when they share no map |
| ProfileReorder.Reorder | isolate/porto/profile_decodable.go:790-1011 | from two slices or from two streams, each buffered in its own way: permuting entries and adding or dropping unknown ones, at all four levels at once, changes neither the decoded profile nor whether decoding fails, if both objects can be got through; whichever cannot is refused |
| ProfileReorder.ReorderHarmless | isolate/porto/profile_decodable.go:799-1008 | so without four-byte-length extensions, or from slices, order and unknown entries never matter, however the two streams are buffered |
| ProfileReorder.UnknownExactly | isolate/porto/profile_decodable.go:544-551 | an unknown entry put into a profile that decodes leaves the outcome unchanged exactly when, as the new stream is buffered, its value can be skipped where it stands and so can the unknown values before and behind it |
| ProfileReorder.MovedAlong | vendor/github.com/tinylib/msgp/msgp/read.go:295-337 | a profile that decodes and, with a harmless entry in front, does not |
| ProfileReorder.ReorderExactly | isolate/porto/profile_decodable.go:799-1008 | for what the decoder can be sent and get through, order is irrelevant for a target exactly when no two of its fields share a map object |
| ProfileReorder.ReorderExactlyTree | isolate/porto/profile_decodable.go:799-1008 | the same for every target on objects of any size |
| Framing.NextEnc | isolate/conn_handler.go:93-112 | of every valid message the head is read as sent, and the reader is left at the arguments |
| Framing.PairsEnc | isolate/initialdispatch.go:49-71 | the loop over string pairs yields the map of the entries, later duplicates winning |
| Framing.SpoolEnc | isolate/initialdispatch.go:88-113 | a well-formed spool message is accepted with the profile bytes and name that were sent, and consumed exactly |
| Framing.SpawnEnc | isolate/initialdispatch.go:114-157 | a well-formed spawn message is accepted with the profile, name, executable and maps that were sent, and consumed exactly |
| Framing.DropEnc | isolate/conn_handler.go:145-148 | an ignored skip leaves the reader behind the object exactly when the object can be sized, and otherwise stuck inside it |
| Framing.TurnExactly | isolate/conn_handler.go:138-165 | whoever handles a message (new, attached or detached), the reader is at the next message afterwards exactly when every skip gets past its object |
| Connection.Framed | isolate/conn_handler.go:115-184 | for every well-sent stream, whatever is detached meanwhile and whatever the boxes answer, the loop is at a message boundary at the top of every turn exactly when every skip gets past its object, and then sees exactly the channels, numbers and requests sent |
| Connection.PortableIsClear | isolate/spawndispatch.go:40-50 | messages without four-byte-length extensions always satisfy that condition |
| Connection.ThrownOff | isolate/spooldispatch.go:35-48 | a well-sent stream that does not satisfy it |
| Connection.Lifetime | isolate/conn_handler.go:138-183 | in every state of every run, channels have been opened in strictly increasing order, and only opened channels up to the highest have a dispatcher |
| Connection.DeadForever | isolate/conn_handler.go:138-183 | an opened channel without a dispatcher never gets one again, also while a later message for it is being handled, unless the loop is handling the message that opened it |
| Connection.ComesBackExactly | isolate/conn_handler.go:163-183 | an absent channel can get a dispatcher again exactly when the loop is handling the message that opened it |
| Connection.ConversationIsRun | isolate/conn_handler.go:115-184 | whatever a peer sends, the turns of the loop with the detaches meanwhile are a run of the channels' life, and open the channels it records |
| Connection.OpenedInOrder | isolate/conn_handler.go:138-158 | whatever bytes arrive, the loop opens channels in strictly increasing order |
| Connection.ConnectionHandler.TakeTurn | isolate/conn_handler.go:138-183 | one turn does to the reader and to the sessions what the specification says, with detaches before the look-up and during handling |
| Connection.ConnectionHandler.HandleConn | isolate/conn_handler.go:115-185 | the loop produces the specified turns and stops where the specification stops |
| MtnPool.Allocbuffer | isolate/mtn.go:111-115 | the buffer size is at least 1, and the configured one when that is positive |
| MtnPool.AddAllocsMeaning | isolate/mtn.go:203-221 | merging reported allocations keeps old entries unchanged, adds the new ids unused, and nothing else |
| MtnPool.MergedKeeps | isolate/mtn.go:191-225 | no stored entry is lost or altered by start-up, so used marks survive restarts |
| MtnPool.MergedIdempotent | isolate/mtn.go:191-225 | merging the same report twice changes nothing more |
| MtnPool.RequestedMeaning | isolate/mtn.go:280-320 | a successful request yields unused entries of its network under their own ids, and at least one when at least one was asked for |
| MtnPool.RequestedCount | isolate/mtn.go:280-320 | distinct ids give one entry per request |
| MtnPool.UsesShape | isolate/mtn.go:372-430 | whatever is handed out is stored, marked used, under its own id in its own network, and comes from the free entries when there are any |
| MtnPool.BoundShape | isolate/mtn.go:479-525 | a refill keeps every entry under its own id in its own network |
| MtnPool.Refill | isolate/mtn.go:479-525 | a successful refill loses no free entry, adds exactly the requested ids, and with distinct ids leaves at least the buffer size free |
| MtnPool.FindFree | isolate/mtn.go:379-396 | the cursor finds the first unused entry in key order, and nothing exactly when none is unused |
| MtnPool.PutAll | isolate/mtn.go:508-519 | every requested entry is put, in any order, unless the store refuses one of them |
| MtnPool.PutAllTakeOne | isolate/mtn.go:409-424 | the same, with exactly the first one put taken by the box; none is taken exactly when there is none |
| MtnPool.MtnState.PoolInit | isolate/mtn.go:191-225 | on success the store is the merge, on every error it is unchanged |
| MtnPool.MtnState.RequestAllocs | isolate/mtn.go:280-320 | the loop collects the answers by id and fails on the first failed request; a success is never empty |
| MtnPool.MtnState.UsedAllocations | isolate/mtn.go:334-370 | every used entry is returned once, with total = free + used and used = number returned |
| MtnPool.MtnState.CountFreeAllocs | isolate/mtn.go:463-477 | the count is the number of unused entries of the network, whose bucket then exists |
| MtnPool.MtnState.GetDbAlloc | isolate/mtn.go:372-430 | the first free entry in key order is taken, or one of the newly requested; each error is returned exactly for its cause, so a grant exactly when there is none, and with a buffer of at least one the last, "BUG" error is unreachable whatever fails |
| MtnPool.MtnState.FreeDbAlloc | isolate/mtn.go:432-461 | exactly one entry loses its used mark, or the store is unchanged, and it does exactly when the entry exists and the store fails at nothing |
| MtnPool.MtnState.BindAllocs | isolate/mtn.go:479-525 | on success the store is the refill, on every error it is unchanged; it succeeds exactly when the store fails at nothing it has to do and the requests, if any are needed, succeed |
| MtnPool.MtnState.UseAlloc | isolate/mtn.go:527-546 | on success an entry has been handed out, on every error the store is unchanged; it succeeds exactly when the transaction begins and commits and nothing denies an entry, and the error is never the "BUG" one |
| MtnPool.MtnState.UnuseAlloc | isolate/mtn.go:548-554 | the entry is freed exactly when it exists and the store fails at nothing, otherwise the store is unchanged |
| MtnRuns.LiveIps | isolate/porto/box.go:370-388 | exactly the addresses of running and starting containers are collected |
| MtnRuns.NotLiveMeaning | isolate/porto/box.go:389-401 | the filter keeps exactly the allocations whose address is not live |
| MtnRuns.RemoveLive | isolate/porto/box.go:389-401 | the deletion loop with its index step back is that filter, order kept |
| MtnRuns.ReleaseAll | isolate/porto/box.go:402-410 | the release loop frees exactly the entries of this box it was given, but for the releases that fail |
| MtnRuns.CollectGarbage | isolate/porto/box.go:363-410 | a collection pass frees exactly the used entries of this box with no live address, but for the releases that fail |
| MtnRuns.CollectedExactly | isolate/porto/box.go:363-410 | entry by entry: what a pass frees, and that it leaves everything else as it was |
| MtnRuns.Container.Cleanup | isolate/porto/container.go:133-139 | the address is released at most once, and the flag is set even when the release fails |
| MtnRuns.CreateContainer | isolate/porto/container_config.go:283-309 | an entry is taken exactly when the network is managed here and asked for; a failure afterwards leaves it taken with no container |
| MtnRuns.StepExactly | isolate/mtn.go:372-546 | each step (restart, refill, creation, clean-up, collection, loss of a container) keeps "no entry held twice, every held entry marked used" exactly when no id it requests is held and no held entry is collected |
| MtnRuns.NoDoubleHandOut | isolate/porto/container_config.go:283-300 | along every run of such steps no entry is held by two containers and every held one is marked used |
| MtnRuns.ShapeAlways | isolate/mtn.go:379-395 | along every run whatsoever, entries are stored under their own id and network |
| MtnRuns.ReleaseAgain | isolate/porto/container.go:133-139 | a second release would be harmless exactly when nobody holds the entry now |
| MtnRuns.FlagIsNeeded | isolate/porto/container.go:76-80 | a run after which a second release takes the address from another container |
| MtnRuns.RefillOverwrites | isolate/mtn.go:508-519 | a refill answered with an id in use frees the address of its holder |
| MtnRuns.GcIsEarly | isolate/porto/box.go:363-410 | a run after which a collection takes the address of a container that is not up yet |
| SpawnProtocol.Reached | isolate/initialdispatch.go:213-268 | the invariant of the handshake: who has the process, and what flag, kills and replies then are, in every state of every interleaving |
| SpawnProtocol.AtMostOnce | isolate/initialdispatch.go:194-266 | at most one kill and at most one terminal reply, none for a cancelled spawn, and the reply says what happened |
| SpawnProtocol.KilledExactlyOnce | isolate/spawndispatch.go:52-83 | after a handled kill or a cancelled connection, in every quiescent state every spawned process has been killed exactly once and answered exactly once |
| SpawnProtocol.AliveUntilAsked | isolate/spawndispatch.go:52-83 | a process nobody has asked to kill is alive and on offer |
| SpawnProtocol.KillerMove | isolate/spawndispatch.go:58-82 | a killer that is not through can always take a step |
| SpawnProtocol.SpawnerMove | isolate/initialdispatch.go:213-266 | so can the spawner, unless it is rightly waiting |
| SpawnProtocol.ComesToRest | isolate/initialdispatch.go:213-268 | without input from outside every interleaving ends after a bounded number of steps |
| SingleFlight.Reached | isolate/porto/repository.go:69-98 | the invariant of the lists, channels and the mutex in every state of every interleaving |
| SingleFlight.OneFetchPerDigest | isolate/porto/repository.go:70-90 | a digest is in progress exactly when a fetch of it is live, and no two fetches of a digest overlap |
| SingleFlight.SendNeverBlocks | isolate/porto/repository.go:82-84 | whoever holds the mutex can always go on |
| SingleFlight.OneResult | isolate/porto/repository.go:69-98 | every registered caller is sent exactly one result, of a fetch of the digest it asked for |
| SingleFlight.AllServed | isolate/porto/repository.go:69-98 | when nothing moves any more nobody waits and nothing is in progress |
| SingleFlight.ComesToRest | isolate/porto/repository.go:69-98 | between two inputs from outside every interleaving ends after a bounded number of steps |
| Reaper.TableIsExact | isolate/process/box.go:228-248 | whenever the mutex is free the table holds exactly the workers started and not reaped, and no insert replaces an entry |
| Reaper.NoLostWakeup | isolate/process/box.go:110-176 | before shutdown a signal, a token or the handler is on its way to every dead child in every state of a run, although signals merge, if and only if no signal comes in while nobody listens and a child is dead |
| Reaper.AtRest | isolate/process/box.go:110-130 | then, when everything is at rest, the table holds exactly the running workers |
| Reaper.NeverDeaf | isolate/process/box.go:111-117 | that is so when no child exits before the handler listens |
| Reaper.MissedAtStart | isolate/process/box.go:95-113 | a run in which a worker that dies at once stays a zombie with nobody coming |
| Reaper.Box.Wait | isolate/process/box.go:132-176 | a round removes from the table exactly the pids collected before the answer that ends it |
| Admission.Admitted | isolate/process/box.go:211-223 | in every interleaving at most ten spawns are past the check and still queued, at most as many as the semaphore's size hold it, and the counter is the number of spawns between increment and decrement plus those that slipped out |
| Admission.NothingLost | isolate/process/box.go:211-223 | in the process box none slips out |
| Admission.ShutOut | isolate/porto/box.go:721-767 | in the Porto box, from a reachable state on no spawn ever gets past the check if and only if at least ten have slipped out |
| Admission.Leaks | isolate/porto/box.go:727-759 | every number of lost spawns up to ten is reached |
| Demux.ReadHeader | isolate/docker/container.go:191-195 | a short read leaves the rest of the buffer as it was |
| Demux.CollectOutput | isolate/docker/container.go:191-213 | the loop writes what the specification says for every input and every way the reads are cut |
| Demux.AllPayload | isolate/docker/container.go:191-213 | for every stream of frames cut off anywhere, and whatever the buffer holds, exactly the payload that is there is written, in order |
| Demux.FullReadsExactly | isolate/docker/container.go:191-213 | of every stream and every cut exactly the payload is written, if and only if header reads are short only at the end of the stream |
| Journal.StringsAreSorted | isolate/porto/journal.go:86 | looking at neighbours decides whether the whole list is sorted |
| Journal.SortStrings | isolate/porto/journal.go:87 | the list is sorted and a permutation of what it was |
| Journal.SearchStrings | isolate/porto/journal.go:106-109 | binary search finds the first position not before the string |
| Journal.In | isolate/porto/journal.go:106-109 | the search decides membership |
| Journal.Record.UpdateFromPorto | isolate/porto/journal.go:77-94 | for every list, in any order and with duplicates, the layers are the old ones restricted to the listed names, manifests and identifier unchanged |
| Journal.Record.Insert | isolate/porto/journal.go:63-68 | the layer has this digest, the others are as before |
| Journal.Record.InsertManifestLayers | isolate/porto/journal.go:47-51 | the manifest has these layers, the others are as before |

## Left out

- HTTP calls, JSON decoding of their answers, and recovery of the database file: the pool takes the returned allocations or the error as parameters. A request that fails in transport is a failed request here; the code also reads the missing response.
- JSON encoding of stored allocations and of the journal: taken to be lossless.
- bolt: a transaction is a copy that is committed or dropped; bucket and key names may not be empty. Its source is not part of this model.
- Waits, timeouts, backoff, metrics, logging and buffer pools.
- Porto and Docker clients, volumes, layer import, checksum verification and the file system steps of a fetch.
- Clean-up calls on one container are sequential and a collection pass is one step: the code synchronises neither.
- Frames after a terminal reply, and terminal replies of a spool channel: nothing sets the stream's `closed` flag, so the code limits neither.
- Encoding of replies, the start notification of the output collector, and removal of dead containers from the box's map.
- The Docker and process profiles: the same generated shape with fewer fields.
- `EncodeMsg`: it writes the fields `MarshalMsg` appends, in the same order.
- ProfileReorder.ReorderExactly: that sharing matters is stated for targets with fewer than 2^32 extra-volume cells, because no array reaches the cells beyond; the other direction is for all targets.
- Framing.SpoolEnc: on input that ends inside a string the model leaves the reader at the start of that string, the code at the end of the input; either way the next read ends the connection.
- Reaper.NoLostWakeup: errors of `Wait4` other than an interruption and "no child" are not among the handler's steps.
- SpawnProtocol.KilledExactlyOnce: takes `Spawn` and `Kill` to return.
- Journal.SortStrings: an insertion sort stands for the library's sort, whose source is not part of this model.
