# canon-proxy: a model and its proofs

canon-proxy polls a Canon camera over PTP/IP, records the images it sees in a
database and uploads them through a queue of workers. Five parts have to agree:
the camera, the poller's index of what it has seen, the image table, the
in-memory queue, and the workers. This project models them in Dafny and proves
what holds over every input, every packet stream, every handle graph and every
interleaving, and, where a promise does not hold, exactly when it does.

Verify with `dafny verify dfyconfig.toml`.

| file | what it models |
|---|---|
| `Bytes`, `Ptp` | little-endian integers; PTP arrays, UTF-16 strings, ObjectInfo datasets |
| `Transport`, `Transactions` | packet framing, the receive loops, the transaction wrappers |
| `Session` | connecting, the handshake, retries, who owns the two sockets |
| `HandleUrl`, `Objects` | handle URLs, object enumeration over any handle graph |
| `Enumeration`, `Listing` | what an enumeration and a whole listing find, record, ask and fail at, from the camera's answers alone |
| `Poller`, `DeltaPolling`, `PollRuns` | the seen-index, and delta polling against rescanning everything |
| `ImageTable` | the table with two unique keys, FindOrCreate, the status statements |
| `Gate`, `Pipeline` | the pause gate, and the pipeline as a machine of atomic actions |
| `Tokens`, `Uploads`, `Attempts`, `Pausing` | what holds in every run of that machine |
| `Alone` | what its processes do from beginning to end when nobody interrupts them |
| `ExactlyOnce`, `Repeats`, `AtLeastOnce` | the promise of exactly one upload: where it fails and exactly when it holds |
| `Startup` | Queue and ClearQueue called alone, and recovery after a restart |
| `Progress`, `Discover` | upload progress; the addresses probed for a camera |

Code that updates fields or arrays in the repository is a class or a method with
loops here, proved against a function; the lemmas are about that function. The
pipeline, where many goroutines interleave, is a state machine: each map, channel
or gate operation and each SQL statement is one step, and any number of producers,
schedulers, workers, ClearQueue calls and discovery calls take steps in any order.
FindOrCreate is two steps, its lookups and its write: only FindOrCreate itself
changes keys, and the source calls it from one goroutine.

Where the code and its documentation disagree, the model follows the code:

- `docs/architecture.md:9` promises that each file is uploaded exactly once.
  `ExactlyOnce.UploadedTwice` is a run in which one is uploaded twice.
  `Repeats.LastUploadIff` says exactly when a file that a worker records as done is not
  uploaded again, and `AtLeastOnce.DoneMeansUploaded` exactly when a file that is done
  has been uploaded. A file is known by its name, under which the backend stores it;
  its URL changes with the handle the camera gives it.
- The layout comment at `internal/canon/ptp.go:104-107` puts ParentObject at bytes
  38-41; the code reads bytes 32-35. `Ptp.ObjectInfoRoundTrip` says exactly when
  the result is right all the same.
- The log text at `internal/canon/transport.go:140-168` speaks of stale packets;
  a stale response is not skipped but ends the data phase
  (`Transport.StaleResponseAborts`).
- A bound on the number of distinct URLs does not make delta polling equal to
  rescanning, because an eviction leaves its URL in the ring. URLs and evictions
  of at most 50,000 together are enough (`PollRuns.DeltaEqualsFull`); with one more
  there is a run that differs (`PollRuns.TwoUrlsOvertake`).

## Model

| member | source | states |
|---|---|---|
| Ptp.ArrayRoundTrip | internal/canon/ptp.go:80-98 | encoding a uint32 array and parsing it, whatever follows it, gives the array back exactly when it has at most 2^20 elements |
| Ptp.ParseUint32Array | internal/canon/ptp.go:80-98 | on every byte string the loop stays in bounds and returns the parsed array, empty when the count is zero, too large or not backed by bytes |
| Ptp.ArrayElements | internal/canon/ptp.go:80-98 | on every byte string the parsed array has the announced elements, each spelled low byte first at its place, or none when the count is above the guard or not all of it is there |
| Ptp.UnitsRoundTrip | internal/canon/ptp.go:147-179 | UTF-16 with surrogate pairs (RFC 2781, sections 2.1 and 2.2) decodes to the string it encodes |
| Ptp.Surrogates | internal/canon/ptp.go:147-179 | the surrogate pair of U+10437, and halves of pairs read as U+FFFD |
| Ptp.StringRoundTrip | internal/canon/ptp.go:147-169 | a PTP string of up to 254 units, anywhere in a dataset, parses back to itself and leaves the offset right behind it |
| Ptp.ParseString | internal/canon/ptp.go:147-169 | on every byte string and offset the loop stays in bounds and returns the decoded string and the next offset |
| Ptp.UnterminatedString | internal/canon/ptp.go:147-169 | a string without its terminator, or cut off by the end of the data, parses to the same string |
| Ptp.EmptyString | internal/canon/ptp.go:147-155 | a single zero byte, and the end of the data, parse to the empty string |
| Ptp.EncodeUtf16LE | internal/canon/ptp.go:172-179 | the bytes written are the units of the string and a terminator, low byte first |
| Ptp.PlainUtf16 | internal/canon/ptp.go:172-179 | byte for byte: each character's code, low byte first, and two zero bytes |
| Ptp.ObjectInfoRoundTrip | internal/canon/ptp.go:109-127 | format, file name and date string of any ObjectInfo dataset survive; the parent handle does exactly when the bytes read in its place happen to agree |
| Ptp.ParentHandleLost | internal/canon/ptp.go:114-117 | a dataset whose parent handle is not recovered |
| Ptp.ShortObjectInfo | internal/canon/ptp.go:109-121 | a dataset that breaks off in its fixed fields has no name and no date, and its format once that has arrived |
| Transport.FrameRoundTrip | internal/canon/transport.go:19-54 | receiving inverts sending, and leaves the rest unread, for exactly the packets whose length fits 32 bits |
| Transport.ReceiveIff | internal/canon/transport.go:30-54 | bytes are received exactly when the length they begin with is at least 8 and has arrived, and then they are the frame of the packet; otherwise the error and what is left unread |
| Transport.FrameBytes | internal/canon/transport.go:19-27 | length, kind and payload stand at bytes 0, 4 and 8, low byte first |
| Transport.RequestBytes | internal/canon/transport.go:66-80 | data phase, operation, transaction and parameters stand at bytes 0, 4, 6 and 10 of a request, low byte first |
| Transport.PingBytes | internal/canon/transport.go:113-114 | a ping and a pong, byte for byte |
| Transport.Channel.SendPacket | internal/canon/transport.go:19-27 | appends the framed packet to what was written, or reports that the write failed |
| Transport.Channel.RecvPacket | internal/canon/transport.go:30-54 | consumes exactly one packet, or fails as a short or malformed stream makes it fail |
| Transport.Channel.NextTxID | internal/canon/transport.go:56-59 | IDs go up by one and wrap at 2^32 |
| Transport.Channel.SendCmdRequest | internal/canon/transport.go:66-80 | writes the request packet with the data phase and all parameters in order, or reports that the write failed |
| Transport.Channel.RecvData | internal/canon/transport.go:123-186 | the loop returns, leaves unread and pongs what the packet-by-packet reference does |
| Transport.Channel.RecvResponse | internal/canon/transport.go:84-119 | the same for the response loop |
| Transport.DriveOver | internal/canon/transport.go:84-186 | over framed packets the byte loop does what the loop over whole packets does, one pong per ping |
| Transport.PayloadReceived | internal/canon/transport.go:123-186 | any payload, split in any way, with any pings, unknown packets and data packets of other transactions in between, is returned whole, the rest of the stream stays unread and each ping gets one pong |
| Transport.DataSucceedsIff | internal/canon/transport.go:134-184 | recvData succeeds exactly when the first packet it stops at ends the data |
| Transport.HugeAnnouncements | internal/canon/transport.go:144-151 | an announced length above the integer limit is refused, one between that and what can be allocated crashes the process, and any other is accepted |
| Transport.ShortPackets | internal/canon/transport.go:97-172 | an end packet without a transaction ends the data, a start packet without a length changes nothing, a response without a transaction fails |
| Transport.StaleResponseAborts | internal/canon/transport.go:174-179 | a response of another transaction aborts the data phase, while a data packet of another is passed over |
| Transactions.FetchData | internal/canon/objects.go:388-401 | a transaction with a data phase takes the next ID, sends one request and consumes one answer; when the request cannot be written it fails and reads nothing |
| Transactions.RunCommand | internal/canon/session.go:278-303 | the same for a transaction without a data phase |
| Transactions.GetStorageIDs | internal/canon/objects.go:343-356 | the parsed array of the answer to one GetStorageIDs transaction |
| Transactions.GetObjectHandles | internal/canon/objects.go:358-371 | the parsed array of the answer to one GetObjectHandles transaction with the three parameters in order |
| Transactions.GetObjectInfo | internal/canon/objects.go:373-386 | the parsed dataset of the answer to one GetObjectInfo transaction |
| Transactions.StaysInStep | internal/canon/objects.go:343-401 | whether the camera sends data and a response, data and an error, or an error alone, the wrapper returns what the answer calls for and consumes exactly that answer |
| Transactions.RunInStep | internal/canon/objects.go:343-401 | over any run of transactions each gets the answer meant for it, failures included, and the run consumes exactly the answers |
| Transactions.IDsAreFresh | internal/canon/transport.go:56-59 | IDs run 1, 2, 3, ...; two transactions share an ID exactly when a multiple of 2^32 lies between them |
| Session.Client.CloseConns | internal/canon/session.go:134-143 | both channels closed and forgotten |
| Session.Client.OpenChannels | internal/canon/session.go:65-93 | both channels are open and acknowledged, with the event request carrying the number acknowledged, or every socket opened on the way is closed |
| Session.Client.RecvInitCommandAck | internal/canon/session.go:320-350 | the connection number of a well-formed acknowledgement, else failure |
| Session.Client.RecvInitEventAck | internal/canon/session.go:359-372 | success exactly on an event acknowledgement |
| Session.Client.RunSessionCommands | internal/canon/session.go:278-303 | succeeds exactly when all three commands are answered with OK, with IDs 1, 2, 3 |
| Session.Client.Handshake | internal/canon/session.go:95-131 | succeeds exactly when the camera goes along with every step; otherwise nothing stays installed or open |
| Session.Client.Connect | internal/canon/session.go:53-253 | in either mode: both channels installed or none, nothing else open, never more than two sockets, at most one listener ever |
| Session.Client.EnsureConnected | internal/canon/session.go:19-51 | keeps that state over up to six attempts, with the outcome, the waits and the unread bytes of the retry rule |
| Session.Client.DownloadImage | internal/canon/client.go:208-227 | over the connection there is or the one the retry rule makes: writes exactly the request for the URL's object, when it goes out, and the pongs; returns the data of that transaction or, when it fails, leaves both channels closed |
| Session.ServedByHandle | internal/canon/client.go:208-227 | from a camera that serves objects by their handles, downloading by the URL of a handle gets exactly that object, whatever its split and noise, and stays in step |
| Session.ConnectsIff | internal/canon/session.go:29-50 | connecting succeeds exactly when one of six attempts is made and goes through; a listener made by one serves the later ones; it gives up exactly when all six are made and none goes through |
| Session.WaitsDouble | internal/canon/session.go:29-49 | the waits are 1, 2, 4, 8, 16 seconds, all five before giving up |
| Session.WelcomeIsAccepted | internal/canon/session.go:61-132 | a camera that acknowledges both channels and answers the three commands with OK, with any noise in between, is accepted, what follows is still unread, and it has been sent the init request and then OpenSession, SetRemoteMode and SetEventMode under IDs 1, 2, 3 |
| HandleUrl.HandleRoundTrip | internal/canon/client.go:108-123 | parsing the URL of a handle gives the handle back, for every host, port and 32-bit handle |
| HandleUrl.ParseHandleIff | internal/canon/client.go:113-123 | a handle is read exactly from what ends in a slash and the digits of a 32-bit number |
| Objects.Enumerator.EnumerateObjectsDepth | internal/canon/objects.go:224-341 | images, new folders and requests of the recursion are those of the reference scan; it ends on every handle graph, cyclic ones included |
| Objects.Enumerator.EnumerateHandles | internal/canon/objects.go:235-340 | the same for the loop over one listing, which stops at the first error |
| Objects.Enumerator.EnumerateHandle | internal/canon/objects.go:237-338 | the same for one handle: known, virtual container, virtual leaf, folder, image or other |
| Objects.Enumerator.ListImages | internal/canon/objects.go:148-206 | the same over all storages, with the root fallback of a full scan |
| Listing.ListingIff | internal/canon/objects.go:139-207 | a full listing without error returns exactly the images at most nine edges below the folders of a volume, below the root of one without folders, or below the root it falls back to, each with the camera's name and date, the URL of its handle and the folder it lies in |
| Listing.RecordsIff | internal/canon/objects.go:139-341 | the folders it records are exactly the containers it comes to |
| Listing.ListingFails | internal/canon/objects.go:139-207 | a full listing fails exactly when the camera refuses something it must ask below one of those starts |
| Listing.ScanAsks | internal/canon/objects.go:224-341 | one enumeration asks for exactly the listings of the virtual handles and containers it comes to, and for the datasets of everything but virtual containers |
| Listing.ScanFails | internal/canon/objects.go:224-341 | one enumeration fails exactly when it gets no answer to one of these |
| Enumeration.DeltaScan | internal/canon/objects.go:224-341 | where no known handle is a container and the full scan meets no error, the delta scan is the full scan with known images and all requests about them removed, in the same order |
| Enumeration.DeltaListing | internal/canon/objects.go:139-207 | a delta listing is the full listing without known images exactly when the root fallbacks, which it never takes, add no unknown image |
| Enumeration.FallbackIsNotTaken | internal/canon/objects.go:174-194 | a camera on which a delta listing misses an image that a full listing returns |
| Enumeration.EmitsExactlyReachable | internal/canon/objects.go:224-341 | a scan without error emits exactly the images at most nine edges below the parent through containers |
| Enumeration.EmittedIsReached | internal/canon/objects.go:224-341 | every emitted image lies on such a path |
| Enumeration.ReachedIsEmitted | internal/canon/objects.go:224-341 | every image on such a path is emitted |
| Enumeration.EmitsOnce | internal/canon/objects.go:224-341 | no image is emitted twice exactly when each has only one path, as in a tree |
| Poller.Poller.MarkImage | internal/canon/poller.go:264-288 | one image updates ring, set and handles together, dropping the oldest URL and its handle past 50,000 |
| Poller.Poller.EvictHandle | internal/canon/poller.go:112-121 | forgets the URL and its handle, but leaves the ring alone; a URL without a handle changes nothing |
| Poller.Poller.PollOnce | internal/canon/poller.go:210-301 | full first, delta after; asks what that listing asks; marks and emits in listing order; an error leaves the index as it was |
| Poller.ActionsKeepInv | internal/canon/poller.go:112-295 | in every interleaving of marks and evictions each seen URL is in the ring, the ring holds at most 50,000, and each skipped handle has a seen URL |
| Poller.SkipsWhatWasSeen | internal/canon/poller.go:112-288 | in every interleaving of marks and evictions of proper URLs a delta scan skips exactly the handles whose URLs have been seen and not forgotten, except handle 0 |
| Poller.EmitsFirstSightings | internal/canon/poller.go:264-295 | while the ring has room an image is emitted exactly when its URL was seen neither before the poll nor earlier in it |
| Poller.RingIsRecent | internal/canon/poller.go:264-295 | without evictions the ring is the last 50,000 emitted URLs, the set its elements, and any 50,001 consecutive emissions have distinct URLs |
| DeltaPolling.PollAgreesIff | internal/canon/poller.go:264-295 | marking the whole listing and marking only the unknown images emit the same exactly when the ring overtakes no skipped image |
| DeltaPolling.PollAgrees | internal/canon/poller.go:264-295 | with room in the ring the two agree, on the index as well |
| DeltaPolling.DeltaInStep | internal/canon/poller.go:210-301 | from any index, while what the run emits fits the ring, delta polling and rescanning emit the same and end with the same index |
| PollRuns.OvertakenIff | internal/canon/poller.go:276-287 | the ring overtakes a skipped image exactly when it drops more URLs before the poll comes to it than stand before its URL |
| PollRuns.EveryPollAgreesIff | internal/canon/poller.go:210-301 | over any run of polls without error every delta poll emits what a full poll would exactly when it skips no overtaken image |
| PollRuns.DeltaEqualsFull | internal/canon/poller.go:210-301 | over any run of polls, with evictions between them, without error, root fallback or a listed handle turning into a container: if the URLs the camera shows and the evictions are at most 50,000 together, delta polling emits what rescanning everything and dropping seen URLs emits, in the same order |
| PollRuns.TwoUrlsOvertake | internal/canon/poller.go:112-121 | the bound is tight: two URLs and 49,999 evictions make the runs differ |
| DeltaPolling.VolumesCanonical | internal/canon/objects.go:139-341 | every listed image carries the URL of its handle |
| ImageTable.ImageRepo.Execute | internal/db/image.go:196-295 | each selected row and no other changes, as the statement means it (a fresh row, a retry ready from its time on, a finished row without one, the rest of the row untouched); the result counts the selected rows, and the table keeps its keys and rows |
| ImageTable.ImageRepo.FindOrCreate | internal/db/image.go:48-144 | by the tables before and after: a new discovered row with the sighting's fields; the old row under the new URL; a finished row started over as the file seen now, or refused when the name is taken; any other row with only its gaps filled; all other rows as they were, and the flags |
| ImageTable.SightingAchieves | internal/db/image.go:48-144 | that the decision and the write of the machine's two steps achieve the same |
| ImageTable.ChangeKeepsInv | internal/db/image.go:196-295 | every status statement keeps both keys unique, every row, and no retry time on finished rows |
| ImageTable.WriteKeepsInv | internal/db/image.go:48-144 | so does every write of FindOrCreate, however old its lookups are |
| ImageTable.OnlyReuseCollides | internal/db/image.go:92-107 | the only write that can violate a key is the rename of a finished row, and it does exactly when another row has the name |
| ImageTable.CopyIsStoredIff | internal/db/image.go:117-143 | the returned copy is the stored row exactly when no differing date or folder was already stored while something else was filled in |
| ImageTable.SettlesAfterTwo | internal/db/image.go:48-144 | repeating a call reaches a fixed table after at most two calls |
| ImageTable.RunsKeepTable | internal/db/image.go:48-295 | every run of calls and statements keeps keys unique, removes no row and leaves no retry time on finished rows |
| Gate.PauseGate.Pause | internal/pipeline/pipeline.go:70-77 | afterwards the pipeline is paused and its current gate open, a new one unless it was paused already, with every other gate as it was |
| Gate.PauseGate.Resume | internal/pipeline/pipeline.go:79-86 | closes the current gate, which is never closed already; afterwards every gate is closed |
| Gate.WaitersAreReleased | internal/pipeline/pipeline.go:51-92 | in every run only the current gate can be open, exactly while paused, and the next Resume releases every waiter |
| Pausing.NobodyPasses | internal/pipeline/pipeline.go:322-332 | in every run after a pause that nobody ends, a scheduler or worker that comes to the gate waits there through the rest of the run, unless its context is cancelled |
| Pausing.PauseHolds | internal/pipeline/pipeline.go:70-77 | in every such run no upload and no round is started, but for at most one by each process that had passed the gate before |
| Pipeline.RetryBackoff | internal/pipeline/pipeline.go:24-28 | 5, 10 and 20 seconds for the three retries |
| Tokens.OneTokenEach | internal/pipeline/pipeline.go:97-232 | in every interleaving a URL is in inChannel exactly when one token for it exists (reserved, in the channel, or taken and not cleared), so the channel holds no URL twice and at most 512 images |
| Tokens.StepKeepsTokens | internal/pipeline/pipeline.go:97-232 | every single action of every process keeps that |
| Uploads.QueueIsCovered | internal/db/image.go:161-175 | in every interleaving retry counts stay within 0 to 3, the fresh and ready lists are disjoint, and 20 seconds after the last failure they cover every queued row |
| Uploads.StepKeepsInv | internal/pipeline/pipeline.go:97-347 | every action keeps the table, gate and retry invariants |
| Uploads.StepKeepsWaits | internal/pipeline/pipeline.go:70-92 | no action leaves a process waiting for a gate that was never made |
| Uploads.NoWaiterIsLost | internal/pipeline/pipeline.go:322-332 | in every interleaving a process that waits for a gate can go on, or waits for the current one while paused, and Resume lets it go on |
| Uploads.StepKeepsFlightIff | internal/pipeline/pipeline.go:191-320 | a step leaves an uploading row that nobody uploads exactly when it rebinds an uploading row to a URL that is not being uploaded |
| Uploads.UploadingMeansInFlight | internal/pipeline/pipeline.go:191-320 | without such a step a row is uploading only while some worker is between its uploading write and its final write |
| Uploads.StrandedByRename | internal/db/image.go:64-73 | from any state in which a worker is about to record an upload, a sighting under a new URL strands the row |
| ExactlyOnce.UploadStranded | internal/db/image.go:64-73 | from any fresh pipeline with one queued image there is a run that leaves it uploading with nobody uploading it |
| Attempts.StepCounts | internal/pipeline/pipeline.go:237-320 | every action keeps the row, and the worker that has it, in step with the number of failures |
| Attempts.FourAttempts | internal/pipeline/pipeline.go:308-320 | an image that always fails, one worker at a time, is whenever no worker has it queued for its n-th retry after n = 1, 2, 3 failures and failed from the fourth on, never earlier |
| Attempts.GivenUpAfterFour | internal/pipeline/pipeline.go:308-320 | when it becomes failed for the first time it has failed exactly four times |
| Alone.FailureAlone | internal/pipeline/pipeline.go:308-320 | a failed transfer queues the image's row for a retry that is ready exactly from 5, 10 or 20 seconds later on, or the fourth time fails it, and changes no other row |
| Alone.PausedPutsBack | internal/pipeline/pipeline.go:174-186 | a worker that takes an image while paused leaves its row queued and starts no upload |
| Alone.CancelledAtGate | internal/pipeline/pipeline.go:187-190 | so does one whose context is cancelled while it waits with an image |
| Alone.CancelledBefore | internal/pipeline/pipeline.go:237-241 | and one that finds it cancelled before the transfer |
| Alone.RoundAlone | internal/pipeline/pipeline.go:206-234 | an uninterrupted round of the scheduler queues the fresh rows and then those ready for a retry |
| Alone.ListsRows | internal/db/image.go:161-175 | the two lists hold exactly the queued rows that never failed, and those that have and whose time has come |
| Alone.RetriesOfRow | internal/pipeline/pipeline.go:243-246 | the retry count a worker goes by is that of the row with the file's name |
| ExactlyOnce.UploadedTwice | internal/pipeline/pipeline.go:174-232 | from any fresh pipeline with one queued image there is a run that uploads its file twice |
| ExactlyOnce.Round | internal/pipeline/pipeline.go:174-196 | a worker uploads what it takes from the channel whatever the status of the row |
| AtLeastOnce.FileDoneIff | internal/pipeline/pipeline.go:287-293 | a step makes a file that is not done done exactly when it is a worker's final write that meets the file's row |
| AtLeastOnce.UploadsConserved | internal/pipeline/pipeline.go:287-293 | in every interleaving the uploads of a file are the final writes after them and the workers that have yet to make theirs |
| AtLeastOnce.DoneMeansUploaded | internal/pipeline/pipeline.go:97-320 | in every interleaving a file has been uploaded by the time it is done exactly as long as no worker that has uploaded another file makes its final write to the file's row before that |
| AtLeastOnce.MistakenDone | internal/db/image.go:56-87 | a run with such a write: a file is done of which no upload has completed |
| AtLeastOnce.UrlDoneIff | internal/db/image.go:64-73 | a step makes a row done, or about to be, under a URL that had none exactly when it ends an upload under it or gives it to a done row |
| AtLeastOnce.UrlDoneMeansUploaded | internal/pipeline/pipeline.go:97-320 | in every interleaving a URL without a done row gets none exactly as long as neither happens |
| AtLeastOnce.DoneUnderNewUrl | internal/db/image.go:64-73 | a run in which a done row is given a URL from which nothing was uploaded |
| Repeats.UploadedAgainIff | internal/pipeline/pipeline.go:97-320 | the file of a finished row can be uploaded once more, by a run that leaves the row alone, exactly when a slot of the channel or a process still carries its URL or, under whatever URL, its file |
| Repeats.LastUploadIff | internal/pipeline/pipeline.go:97-320 | in every interleaving a file that a worker records as done is not uploaded again exactly when no slot and no other process carries the URL or the file |
| Repeats.NeverAgain | internal/pipeline/pipeline.go:97-320 | when nothing carries it, the row stays done and its file is not uploaded again, until Queue is called with it or the camera reuses its URL or name |
| Startup.Daemon.Queue | internal/pipeline/pipeline.go:115-134 | paused: the rows are marked queued; otherwise the channel and the set take each image that is not in it yet while there is room |
| Startup.EnqueueKeeps | internal/pipeline/pipeline.go:115-134 | Queue keeps channel and set in agreement, keeps what was queued in its place, adds only what it was given, and leaves an image out only when the channel is full |
| Startup.EnqueuedLast | internal/pipeline/pipeline.go:122-133 | it takes the images in the order they come in |
| Startup.QueueAlone | internal/pipeline/pipeline.go:115-134 | a producer of the machine that nobody interrupts, in Queue or in a scheduler's round, does what the method does |
| Alone.QueueCall | internal/pipeline/pipeline.go:115-134 | so does a whole call of Queue, paused or not |
| Startup.Daemon.ClearQueue | internal/pipeline/pipeline.go:97-111 | empties channel and set and counts what it reset and drained |
| Startup.ClearedTable | internal/pipeline/pipeline.go:97-111 | afterwards no row is queued, the queued and drained rows are discovered, and the others are as they were |
| Alone.ClearCall | internal/pipeline/pipeline.go:97-111 | a call of ClearQueue in the machine that nobody interrupts does what the method does |
| Startup.Daemon.Recover | cmd/canon-proxy/main.go:135-190 | row by row and from the pairings: an uploading row is queued again; a discovered row with a folder that some pairing uploads by itself is queued for the path of the last such pairing; every other row is as it was; the channel holds fresh queued images only, each once, and leaves one out only when full |
| Startup.AutoFoldersIff | cmd/canon-proxy/main.go:161-166 | a folder uploads by itself exactly when some pairing of it says so, to the path of the last that does |
| Startup.NothingIsLeftBehind | cmd/canon-proxy/main.go:135-190 | recovery leaves no row uploading and none discovered in an auto-upload folder, gives those the folder's path, and changes no other row |
| Startup.CrashIsRecoverable | cmd/canon-proxy/main.go:135-140 | a crash at any point of any run leaves a table from which a new run starts, with every row as it was but the uploading ones queued, so what holds in every run holds across crashes |
| Progress.Store.UpdateProgress | internal/store/store.go:104-122 | adds to the counter of one URL and notifies exactly when a further tenth of the total is reached |
| Progress.Store.Upload | internal/pipeline/pipeline.go:281-291 | an upload read through any buffers makes exactly these updates |
| Progress.Store.TrackUpload | internal/pipeline/pipeline.go:281-291 | when the tracking of an upload ends, its counter is gone and the others are as they were |
| Progress.AtMostTenNotices | internal/store/store.go:93-131 | whatever other uploads do in between, the counter is the number of bytes read, never above the total, with at most ten notices, none for an empty file and at least one for a complete one |
| Progress.CountsEveryByte | internal/store/store.go:93-131 | over any run each notice about an upload is for a further tenth |
| Discover.Inc | internal/canon/discover.go:191-198 | in place, the successor of the address |
| Discover.SuccessorValue | internal/canon/discover.go:191-198 | which is addition of one modulo 256 to the number of bytes |
| Discover.NarrowedSize | internal/canon/discover.go:168-176 | a subnet of at most 1024 addresses is scanned whole, of a larger one 256 addresses |
| Discover.ContainsIff | internal/canon/discover.go:169-186 | counting up from the base, the loop condition fails after exactly the subnet, also where the next address wraps to 0.0.0.0 |
| Discover.SubnetIsListed | internal/canon/discover.go:168-186 | every address of the subnet, narrowed to a /24 when larger than 1024, once and in order, the local address among them |
| Discover.AddHosts | internal/canon/discover.go:168-186 | the loop over one prefix ends and adds that list without repeating an address |
| Discover.LocalSubnetHosts | internal/canon/discover.go:145-189 | the loop over all prefixes |
| Discover.ProbedOnce | internal/canon/discover.go:145-189 | an address is probed exactly when some local subnet contains it, and only once |

## Left out

- Storage backends, the web server and its page, configuration, logging, mDNS and ARP discovery: I/O and thin wrappers.
- Real sockets: a connection is the byte sequence the camera sends, in which reading past the end fails as a closed or timed-out socket does. Deadlines, keepalive and the event drain are not modelled.
- Context cancellation inside the receive loops, the poller and acceptWithContext; it is modelled in the retry loop, in the settle wait and in the pipeline.
- SQL itself: a statement is one atomic update that fails only when a unique key would be violated. The two lookups of FindOrCreate are one step.
- Time: a number that never decreases, in seconds.
- discoverDCIMFolders: the folders of each storage are an input, and so are the storage IDs that listImages starts from.
- A camera that changes during one enumeration: within one it gives the same answer to the same request; between polls it may change in every way.
- isVideoFilename, and the video flag of an image; parsePTPDate: a capture date stays the string it is read from.
- Destination paths, and deletion from the camera with its EvictHandle after an upload: the machine of `Pipeline` has neither camera nor poller; `Poller` lets evictions come between any two marks.
- The handshake is written out twice in the source, once for each mode; here it is shared, and the listener is made first in server mode.
- Repeats.UploadedAgainIff: is about pipelines whose context is not cancelled; once it is, workers stop.
- PollRuns.DeltaEqualsFull: evictions come between polls, not between two images of one poll; Poller.ActionsKeepInv covers evictions at any point.
- Poller.Poller.PollOnce: connecting, cancellation and evictions between two images of one poll are not in it.
- Objects.Enumerator.ListImages: the requests of getStorageIDs and discoverDCIMFolders are not in it.
- Transport.Channel.RecvData: pongs are taken to be written, since the source ignores it when they are not; a write that fails is taken to write nothing. Running out of memory below the allocation limit is not an outcome, and the model goes on after a crash where the process ends.
- Progress.CountsEveryByte: does not model the overflow of 64-bit counters, which needs files of 900 petabytes.
- Host strings: an address stands for its text form, and a prefix for one IPv4 address of an interface that is up and not a loopback; IPv4-mapped prefixes are not modelled.
- boundedCache, LogBroadcaster, parseGUID, and the settings and pairing repositories: they would only add easy members.
