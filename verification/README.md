# Resumable file transfer: a model and its proofs

HCMUS socket is a client and a threaded TCP server that exchange files in
length-prefixed frames. Uploads and downloads survive lost connections and
killed processes: partial data stays in `<name>.part`, and for uploads a
`<name>.part.meta` file says how much of it counts. This project models that
protocol and the shared state behind it in Dafny, and proves what the code
promises about every run.

`dafny verify dfyconfig.toml` checks everything.

## How the model is built

**A transfer** is a system of a client, a server, the two queues of frames
between them and a small disk (`UploadSystem`, `DownloadSystem`). The server's
and the client's steps are the file operations and frames of the source, in its
order (`UploadSteps`). A *schedule* lists every choice of the environment:
which side moves next, how each file operation goes, where a connection is cut
and what of the queues is still delivered, when a process is killed, when a new
attempt begins and over what source file. Running a schedule is a function, so
a theorem about all schedules is a theorem about all interleavings, all points
of interruption and all sequences of attempts. Connection loss leaves the
`finally` blocks to run; a kill does not. Beside safety, `UploadCompletion` and
`DownloadCompletion` prove that after any such history an attempt in which
nothing fails completes in every interleaving, within a bound on its steps.
`UploadAnswers` and `DownloadAnswers` say what every refusal is answered, that the
answer reaches the caller, and why a call can raise at all.

**The handlers themselves** are imperative: `UploadHandler`, `UploadClient`,
`DownloadHandler` and `DownloadClient` hold the source's methods and loops,
proved to be runs of the same steps (the upload client: to exchange the same
frames), with what a success means, and the answer to every request and frame that
is turned down, as their postcondition. SHA-256 (FIPS 180-4, section 6.2) is an arbitrary function of
the bytes; a hasher's state is the bytes it was fed.

**The disk** of one (user, filename) key is a record of its target, part,
metadata and temporary file; `shared` says that the target and `.part` are two
names of one inode. `FileSystem` has names, inodes and all keys at once and
proves that it shows each key that record, and that keys do not disturb each
other. `Cleanup` is the removal of expired pairs.

**The wire** is `Packing`, `Utf8`, `Fields`, `Messages` (payload codecs) and
`Framing` (frames, the preface, and the send and receive loops over sockets that
take and deliver data in pieces of any size). `Layouts` says where every field
stands and has the frames the protocol document spells out.

**Shared state** is a small-step system over any number of threads
(`FilenameLocks`, `Workers`), or a class whose operations run under one lock
together with all sequences of its operations (`Registry`, `TokenBucket`).
`Identity`, `IdentitySystem` and `Sessions` put the session state machines, the
registry and logging clients together; `SessionAnswers` says what each packet is
answered and how a session ends. The token bucket computes with `real`.

| part | modules |
|---|---|
| vocabulary | Protocol, Transfer, Tiling, Files |
| resumable upload | UploadSteps, UploadSystem, UploadInvariant, UploadProof, UploadTheorems, UploadRetries, UploadProgress, UploadCompletion, UploadAnswers, UploadHandler, UploadClient |
| resumable download | DownloadSystem, DownloadProof, DownloadTheorems, DownloadCompletion, DownloadAnswers, DownloadHandler, DownloadClient |
| disk | FileSystem, Cleanup |
| wire format | Packing, Utf8, Fields, Messages, Framing, Layouts |
| shared state | FilenameLocks, TokenBucket, Registry, Workers |
| sessions | Identity, IdentitySystem, Sessions, SessionAnswers |

## What does not hold

Four properties one would expect are false of the code. The model keeps the code
as it is, shows a concrete run, and proves exactly when the property holds.

- **A download may return with a wrong file.** The client asks for the size of
  its `.part` file, but for 0 when that size cannot be read
  (`src/hcmus_socket/client/download.py:64-68`). It hashes the bytes before the
  offset and appends after the end of the file, so with an unreadable size a
  checked download is appended to the old content
  (`DownloadTheorems.UnreadSizeBreaksDownload`). `DownloadTheorems.PublishedFile`:
  in every reachable state a destination has the right size if and only if the
  call that linked it knew the size of its `.part`. Positions, quiescence and the
  invariant need no such condition.
- **The resume offset of an upload may go back.** If the source changes between
  attempts but keeps its size, the server hashes the old bytes, reports
  CHECKSUM_MISMATCH and discards the pair
  (`src/hcmus_socket/server/upload.py:330-341`, `UploadProgress.ChangedSourceDrops`).
  A step lowers the offset if and only if it is the removal in such a discard
  (`UploadProgress.DropsOnlyByDiscard`); over one unchanged file it never happens.
- **`close` may return before every slot is free.** A worker leaves the table of
  workers before it releases its slot (`src/hcmus_socket/server/app.py:125-127`),
  and `close` joins only the workers it finds in the table
  (`Workers.CloseMayPrecedeRelease`). Without the interrupt described next, all
  continuations return with every slot free if and only if free slots and workers in
  the table add up to `max_clients` when the snapshot is taken (`Workers.CloseFreesEverySlot`).
- **An interrupted start loses track of its worker.** `Thread.start` waits after it
  has launched the thread, and a KeyboardInterrupt there, which is how the server
  is stopped, reaches the except block that takes the worker from the table and
  releases its slot (`src/hcmus_socket/server/app.py:70-77`) while the worker runs
  and releases it again. Slots are conserved and never released too often if and
  only if there is no such interrupt (`Workers.ConservationExactly`); after one, the
  semaphore can be released once too often (`Workers.InterruptOverReleases`) and
  `close` can return while the worker serves a session
  (`Workers.InterruptOutlivesClose`).

## Where code and protocol document differ

The model follows the code.

- An upload resumes from `uploaded_bytes` of the metadata, not from the size of
  `.part` (`src/hcmus_socket/server/upload.py:156-169`,
  `docs/PHASE2_PROTOCOL.md:450`).
- A download offset beyond the file gives INVALID_PAYLOAD, not OFFSET_MISMATCH
  (`src/hcmus_socket/server/download.py:142-150`, `docs/PHASE2_PROTOCOL.md:516-517`).
- Usernames may begin with `_` or `-` (`src/hcmus_socket/messages.py:34`,
  `docs/PHASE2_PROTOCOL.md:233`).
- A wrong USER_ID inside a transfer returns the session to IDLE and does not
  close it (`src/hcmus_socket/server/session.py:342-346`,
  `docs/PHASE2_PROTOCOL.md:168`).
- The download client hashes `[0, start_offset)` but appends at the end of
  `.part` (`src/hcmus_socket/client/download.py:96-128`).

## Model

| member | source | states |
|---|---|---|
| UploadTheorems.CrashInvariant | src/hcmus_socket/server/upload.py:114-299 | In every state reached by any schedule of attempts, lost connections, kills between any two disk or network steps and cleanups, with no failing unlink: metadata is never torn, and a `.part` and `.part.meta` that are both there name this user and file, satisfy uploaded_bytes <= size of `.part` <= total_size, and the first uploaded_bytes of `.part` are the chunk bytes persisted since the last restart from 0 |
| UploadTheorems.UploadEndToEnd | src/hcmus_socket/client/upload.py:73-148 | Whenever upload_file has returned, whatever the history and even if the source changed between attempts, the published file has the size and the digest of the final source |
| UploadRetries.RetriedUploadEndToEnd | src/hcmus_socket/client/upload.py:37-148 | Whenever upload_file has returned after any number of interrupted attempts over one unchanged source, the published file is the source byte for byte; nothing is assumed of the digest |
| UploadTheorems.Quiescence | src/hcmus_socket/client/upload.py:151-191 | When upload_file has returned or raised with its session open, nothing is in flight either way, and after at most the two unlink calls of its finally block the server is in its dispatcher again (or its session has ended) without sending anything more |
| UploadTheorems.NextRequest | src/hcmus_socket/server/session.py:194-217 | So whatever is asked next, of this or another kind, the server takes it up in its dispatcher with nothing else in the queues, unless its session ends |
| UploadTheorems.PositionsAgree | src/hcmus_socket/client/upload.py:107-136 | In every reachable state the chunks in flight tile exactly the bytes from the server's position to the client's, and the server is never about to report OFFSET_MISMATCH, SIZE_MISMATCH or INVALID_STATE |
| UploadTheorems.NeverResumeMismatch | src/hcmus_socket/server/upload.py:131-168 | Since this client always sends hint 0, without failing unlinks no run ever reports RESUME_METADATA_MISMATCH |
| UploadTheorems.TargetStep | src/hcmus_socket/server/upload.py:368-400 | One step of anything leaves a published file's bytes as they are, or removes the file in the rollback of the very call that linked it |
| UploadTheorems.PublishedIsImmutable | src/hcmus_socket/server/upload.py:93-102 | From any point of any run at which a published file is past its call's rollback, no continuation of the run changes or removes it, also when `.part` still aliases its inode after a kill |
| UploadProgress.NothingPersistedTwice | src/hcmus_socket/server/upload.py:274-299 | For attempts of one declared size, whatever their sources hold, without expiry and failing unlinks: the bytes whose metadata was saved over all attempts since the last discard never exceed the size and equal the offset the server resumes from and acknowledges until the file is published, so total_size - uploaded_bytes is what is left to do |
| UploadProgress.DropsOnlyByDiscard | src/hcmus_socket/server/upload.py:410-414 | In every reachable state one step lowers the offset of an unpublished upload if and only if it removes the data file in a discard |
| UploadProgress.DiscardFollowsMismatch | src/hcmus_socket/server/upload.py:330-341 | A discard of an unpublished upload begins with a report of CHECKSUM_MISMATCH and in no other way |
| UploadProgress.OffsetNeverDecreases | src/hcmus_socket/server/upload.py:120-231 | Between any two points of a run without such a report or discard the offset the next attempt resumes from does not go back |
| UploadProgress.OneFileNeverDecreases | src/hcmus_socket/server/upload.py:120-231 | If all attempts read one unchanged file, no report of a wrong digest occurs, so the offset never goes back |
| UploadProgress.ChangedSourceDrops | src/hcmus_socket/server/upload.py:330-341 | A concrete run with two sources of one size and different digests in which the offset falls from 1 to 0 |
| UploadCompletion.RetryCompletes | src/hcmus_socket/client/upload.py:37-148 | After any history of interrupted attempts over one file that left it unpublished, a new attempt in which nothing fails, on a new session or on the one that stayed open, returns with exactly that file published, within 30 * size + 129 steps |
| UploadCompletion.AnyInterleaving | src/hcmus_socket/client/upload.py:73-148 | In every interleaving of the two programs in which nothing fails, the attempt completes or has as much less to do as steps were taken |
| UploadCompletion.SomeStep | src/hcmus_socket/server/upload.py:225-299 | An attempt on its way never gets stuck: until it is complete client or server can take a step |
| UploadTheorems.ReachableInv | src/hcmus_socket/server/upload.py:53-414 | The full invariant of client, server, both queues and disk holds after every schedule from a server start |
| UploadProof.StepKeeps | src/hcmus_socket/server/upload.py:53-414 | Every single step of client, server, network, kill or cleanup keeps that invariant |
| UploadProof.DecidingDisk | src/hcmus_socket/server/upload.py:114-196 | The resume decision keeps the disk invariant for every combination of `.part`, `.part.meta` and request |
| UploadProof.SwapDisk | src/hcmus_socket/common/partial_transfer.py:59-66 | Replacing the metadata keeps it: the recorded offset and the accepted bytes advance together |
| UploadProof.WritingDisk | src/hcmus_socket/server/upload.py:274-288 | A chunk write, torn or complete, keeps it |
| UploadProof.PublishingDisk | src/hcmus_socket/server/upload.py:368-400 | Linking, unlinking, rolling back and dropping the metadata keep it |
| UploadAnswers.ExpiredPairIsRemoved | src/hcmus_socket/server/upload.py:104-108 | From any state in which an attempt begins without a target: an expired pair is removed before the server decides where to resume, both files are gone then, and the decision is to begin a new pair |
| UploadAnswers.ExpiredPairStartsOver | src/hcmus_socket/server/upload.py:104-231 | In every run, whatever the disk does after an expired pair was found, the offset the server acknowledges next is 0 |
| UploadAnswers.TakenNameIsRefused | src/hcmus_socket/server/upload.py:93-102 | A request for a published name raises FILE_EXISTS at the client after the four steps it takes to say so, leaves the disk alone and the session usable |
| UploadAnswers.ReportReachesCaller | src/hcmus_socket/client/upload.py:151-170 | In every run, an ERROR the server has about the request or the checksum makes the call raise with that code, with nothing left in either queue and the session open |
| UploadAnswers.FileErrorReachesCaller | src/hcmus_socket/server/upload.py:417-440 | In every run, a PermissionError of the server raises ACCESS_DENIED at the client and any other OSError FILE_IO_ERROR, and the disk is as it was |
| UploadAnswers.MismatchReachesCaller | src/hcmus_socket/server/upload.py:330-341 | In every run, a checksum that does not fit what the server received raises CHECKSUM_MISMATCH at the client, and no pair and no target is left |
| UploadAnswers.UnknownPairStartsOver | src/hcmus_socket/server/upload.py:114-153 | Half a pair, unreadable metadata and a pair of another user, file or size are never resumed: whatever is there is removed first, and the upload begins with no pair |
| UploadAnswers.ForeignPairIsRefused | src/hcmus_socket/server/upload.py:131-140 | Only a client that asked to resume is told RESUME_METADATA_MISMATCH instead, and the pair stays |
| UploadAnswers.KnownPair | src/hcmus_socket/server/upload.py:143-196 | A pair of this user, file and size is resumed from the offset it records with that prefix in the digest if as much is there and no more than declared, is removed and reported otherwise, and is kept when it cannot be looked at |
| UploadAnswers.WrongFrameIsAnswered | src/hcmus_socket/server/upload.py:233-366 | Whatever any peer sends in place of the next chunk or a fitting checksum is answered with exactly one ERROR with the code of the first thing wrong; the server is idle then, with the pair kept after a misplaced chunk and gone otherwise |
| UploadAnswers.FailedWriteIsReported | src/hcmus_socket/server/upload.py:274-288 | A chunk that cannot be written is reported with the code of the error and the disk stays as it is |
| UploadAnswers.StrayFrameIsRefused | src/hcmus_socket/server/session.py:326-349 | What is left of a failed attempt reaches the dispatcher frame by frame; each is answered once and none touches the disk |
| UploadAnswers.AnswerIsJudged | src/hcmus_socket/client/upload.py:151-186 | What the client waits for completes its wait, an ERROR about it raises on an open session, any other frame closes it |
| UploadAnswers.ReplaceIsRetried | src/hcmus_socket/common/partial_transfer.py:59-66 | Up to five failing replaces of the metadata are made up for, the sixth ends the session, and the old metadata stays in place throughout |
| UploadAnswers.SyncedThenLinked | src/hcmus_socket/server/upload.py:351-373 | After a fitting checksum the bytes are synced before they are linked: there is no target after the first operation and one, an alias of `.part`, after the second |
| UploadAnswers.UnlinkedThenConfirmed | src/hcmus_socket/server/upload.py:373-400 | Then `.part` goes, then its metadata, and the size is acknowledged last |
| UploadAnswers.FailedUnlinkIsUndone | src/hcmus_socket/server/upload.py:388-400 | An unlink that fails takes the target back, keeps the pair and is reported |
| UploadAnswers.RaisedForACause | src/hcmus_socket/client/upload.py:151-170 | In every reachable state a call that raised did so with ACCESS_DENIED, FILE_IO_ERROR, CHECKSUM_MISMATCH, FILE_EXISTS, and then the target exists, or RESUME_METADATA_MISMATCH, and then an unlink failed; no other code is ever seen |
| UploadHandler.ComputePrefixHash | src/hcmus_socket/common/partial_transfer.py:84-104 | The hasher was fed exactly the first min(length, size) bytes, and their number is returned |
| UploadHandler.Session.WriteTemp | src/hcmus_socket/common/partial_transfer.py:50-58 | Either the temporary file holds the complete new metadata, or the call raises and the pair is as it was |
| UploadHandler.Session.TryReplace | src/hcmus_socket/common/partial_transfer.py:59-66 | One os.replace: on success the new metadata is in place at once; on failure nothing of the pair has changed |
| UploadHandler.Session.SavePartMetadata | src/hcmus_socket/common/partial_transfer.py:27-68 | All or nothing: on return the metadata says exactly (user, file, total, uploaded) and on an exception it is the old one; nothing else on disk has changed but the temporary file |
| UploadHandler.Session.StartUpload | src/hcmus_socket/server/upload.py:64-108 | An OS error and an existing target are reported with their codes and touch nothing; otherwise it goes on, and an expired pair is gone by then while one that is not expired is as it was |
| UploadHandler.Session.DecideResume | src/hcmus_socket/server/upload.py:110-196 | What is found is told apart (nothing, half a pair, unreadable or torn metadata, a pair of another file, an impossible one, a usable one) and decides the rest: start over with the pair removed, report RESUME_METADATA_MISMATCH or the OS error, or resume with exactly the recorded bytes in the digest |
| UploadHandler.Session.OpenPartial | src/hcmus_socket/server/upload.py:198-231 | When the receive loop begins `.part` holds exactly the bytes hashed, no target exists, the offset is persisted and one ACK with it was sent; an error opening the file is reported and changes nothing |
| UploadHandler.Session.TakeChunk | src/hcmus_socket/server/upload.py:274-300 | A chunk that is accepted is appended to `.part` and to the digest, and its offset is persisted; a failing write is reported with its code and keeps the recorded bytes |
| UploadHandler.Session.OnChunk | src/hcmus_socket/server/upload.py:235-300 | One FILE_CHUNK: empty or too large, misplaced, or excess data is reported with its code and nothing else is done, except that the pair goes unless the chunk was only misplaced; any other chunk is stored |
| UploadHandler.Session.OnChecksum | src/hcmus_socket/server/upload.py:302-400 | Wrong sizes and a wrong digest are reported with their codes and the pair goes; otherwise the target holds what was received and one ACK with its size is sent, or the OS error is reported and the pair is kept |
| UploadHandler.Session.Publish | src/hcmus_socket/server/upload.py:368-414 | Without an error the target holds the received bytes, the pair is gone and one ACK is sent; an error of link or unlink is reported with its code and the disk is as before |
| UploadHandler.Session.RollBack | src/hcmus_socket/server/upload.py:388-400 | After a failing unlink the call removes the target it linked, keeps the pair and reports the error |
| UploadHandler.Session.Confirm | src/hcmus_socket/server/upload.py:373-414 | One ACK with the size is sent unless the connection broke; the target is left alone and the pair is gone either way |
| UploadHandler.Session.RemovePair | src/hcmus_socket/server/upload.py:488-492 | Removing the pair quietly leaves the target, and without failing unlinks removes both files |
| UploadHandler.Session.FailAndPurge | src/hcmus_socket/server/upload.py:410-467 | An error that makes resuming pointless is reported once, then the pair is removed; the target stays |
| UploadHandler.Session.TakeFrame | src/hcmus_socket/server/upload.py:233-366 | One round of the receive loop: a chunk in its place is stored, recorded and not answered; every other frame gets the one answer due to it, with the pair kept or removed as that answer demands |
| UploadHandler.Session.HandleUpload | src/hcmus_socket/server/upload.py:53-414 | Every run of handle_upload, against any peer and any file-system failures, is a run of the upload steps. Either the request is declined with the first reason there is, or the first frame sent acknowledges exactly the offset of what was found (0 after an expired pair), the frames that follow are stored, and the last one is answered with the ACK or ERROR due to it. A success has published exactly total bytes whose digest is the one the peer sent |
| UploadHandler.Session.Negotiate | src/hcmus_socket/server/upload.py:64-231 | Everything up to the acknowledged offset: an expired pair counts as none, and what is found decides the offset or the reason to decline |
| UploadHandler.Session.ReceiveAll | src/hcmus_socket/server/upload.py:233-414 | The receive loop stores chunk after chunk, and its last frame is answered by what was received until then: the pair records that much unless the answer removes it |
| UploadHandler.Session.DispatchUpload | src/hcmus_socket/server/session.py:336-349 | With what the dispatcher adds, the session is IDLE again after a result or a ProtocolError, and closed otherwise |
| UploadHandler.ServerMovesByAdvance | src/hcmus_socket/server/upload.py:53-414 | The server of the composed system moves by the same steps the handler is proved against |
| UploadClient.UploadFile | src/hcmus_socket/client/upload.py:37-148 | When it has the second answer, the frames sent after the request tile exactly the bytes read past the acknowledged offset and end in their checksum, even if the file changed meanwhile. It returns exactly on the ACK of the declared size and raises exactly on an ERROR about the request or the checksum, with its code; anything else closes the session, and a closed one sends nothing |
| UploadClient.Session.ExpectAck | src/hcmus_socket/client/upload.py:151-186 | It returns exactly on an ACK of the expected opcode and offset; an ERROR about that opcode raises its code on an open session; any other answer, or none, closes it |
| UploadClient.Session.HashPrefix | src/hcmus_socket/client/upload.py:84-97 | It feeds exactly the prefix to the digest, or closes the session |
| DownloadTheorems.PublishedFile | src/hcmus_socket/client/download.py:239-246 | In every reachable state, from an arbitrary stale `.part` and wherever calls are cut: a destination that exists has the size of the server's file if and only if the last call that asked for the file knew the size of its `.part`, and then it has the digest of the server's file |
| DownloadTheorems.DownloadEndToEnd | src/hcmus_socket/client/download.py:62-257 | Whenever download_file has returned it has announced the size and digest of the server's file, and the destination has that size if and only if, and that digest whenever, the call knew the size of its `.part` |
| DownloadTheorems.UnreadSizeBreaksDownload | src/hcmus_socket/client/download.py:64-68 | A concrete run that returns with a wrong destination: the size of a one-byte `.part` cannot be read, offset 0 is asked for, and the whole file is appended to it |
| DownloadTheorems.RetriedDownloadEndToEnd | src/hcmus_socket/client/download.py:62-257 | From no `.part` or one left by earlier downloads of the same file, after any interruptions and with every call knowing the size of its `.part`, `.part` is always a prefix of the file and a destination is the file itself; nothing is assumed of the digest |
| DownloadTheorems.Quiescence | src/hcmus_socket/client/download.py:305-326 | When download_file has returned or raised on an open connection nothing is on its way to the client, and after the at most one frame left for it the server is in its dispatcher with nothing to say |
| DownloadTheorems.NextRequest | src/hcmus_socket/server/session.py:194-217 | So whatever is asked next, of this or another kind, finds the server in its dispatcher with that request alone in front of it |
| DownloadTheorems.PositionsAgree | src/hcmus_socket/server/download.py:183-211 | The chunks in flight tile the file from the client's position to the server's, and neither end is ever about to report a position, size or order error |
| DownloadCompletion.RetryCompletes | src/hcmus_socket/client/download.py:62-257 | After any history of interrupted downloads of one file, a new call in which nothing fails, on a new session or on the one that stayed open, returns with exactly that file at the destination, within 10 * size + 171 steps |
| DownloadCompletion.AnyInterleaving | src/hcmus_socket/server/download.py:135-247 | In every interleaving of the two programs in which nothing fails, the call completes or has as much less to do as steps were taken |
| DownloadCompletion.SomeStep | src/hcmus_socket/client/download.py:143-187 | A call on its way never gets stuck |
| DownloadTheorems.ReachableInv | src/hcmus_socket/server/download.py:135-247 | The invariant of client, server, both queues and the local disk holds after every schedule, whether or not sizes could be read |
| DownloadProof.StepKeeps | src/hcmus_socket/client/download.py:62-264 | Every step of either end, of the network or a kill keeps that invariant |
| DownloadAnswers.UnservableIsRefused | src/hcmus_socket/server/download.py:89-150 | In every run, a request for a missing file raises FILE_NOT_FOUND at the client, one for a file the server cannot open ACCESS_DENIED or FILE_IO_ERROR by its error, one from beyond the end INVALID_PAYLOAD; `.part` is gone then and the session is free |
| DownloadAnswers.AbsentFile | src/hcmus_socket/server/download.py:108-116 | In every run over an absent file no destination appears and no call returns, and a call that raised was told FILE_NOT_FOUND unless its own stale `.part` could not be removed |
| DownloadAnswers.RaisedForACause | src/hcmus_socket/client/download.py:259-284 | In every reachable state a call that raised did so with one of six codes, FILE_EXISTS only with the destination there, FILE_NOT_FOUND only for an absent file, INVALID_PAYLOAD, CHECKSUM_MISMATCH and ACCESS_DENIED only for one that is there |
| DownloadAnswers.OwnPartsFit | src/hcmus_socket/client/download.py:61-93 | A client that only ever resumed downloads of the same file and knew the size of its `.part` each time is never told that offset or digest do not fit: it raises FILE_EXISTS, with the file itself at the destination, or an error of a file system |
| DownloadAnswers.AcknowledgementIsJudged | src/hcmus_socket/server/download.py:286-312 | The server goes on with the acknowledgement it waits for and nothing else: an ERROR ends the request unanswered, any other frame is answered once with its code |
| DownloadAnswers.WrongFrameRaises | src/hcmus_socket/client/download.py:143-226 | Whatever any server sends in place of the next chunk or a fitting checksum raises the code of the first thing wrong, after exactly the report due to it, on an open session with `.part` gone |
| DownloadAnswers.LocalErrorRaises | src/hcmus_socket/client/download.py:305-326 | An error of the client's own file system is told to the server and raised with its code, and `.part` is removed |
| DownloadAnswers.FailedWriteKeepsPart | src/hcmus_socket/client/download.py:180-184 | But a failing write of a chunk ends the session once it has been told, and everything received is kept for the next call |
| DownloadAnswers.PublishedInOrder | src/hcmus_socket/client/download.py:228-257 | What is buffered is written out and synced before the destination is linked, `.part` goes after that, and the acknowledgement is sent last |
| DownloadClient.DownloadFile | src/hcmus_socket/client/download.py:37-264 | Against any server: an existing destination is refused before anything is sent; a return has seen FILE_INFO, chunks that deliver the rest contiguously and a matching checksum, has sent exactly the request and two acknowledgements, and has linked what `.part` held plus that data; a call that does not return raises what its first answer, the file system or the refused frame calls for |
| DownloadClient.DownloadedFile | src/hcmus_socket/client/download.py:95-128 | The linked file has the announced size if and only if the server started where `.part` ended, and then it has the digest the server sent |
| DownloadClient.AskedSizeDecides | src/hcmus_socket/client/download.py:61-68 | With a server that starts where it is asked to, the destination is right in size exactly when the client asked for the size of its `.part` |
| DownloadClient.Session.Ask | src/hcmus_socket/client/download.py:70-93 | One request; the call goes on exactly with a FILE_INFO; an ERROR raises its code, anything else INVALID_PAYLOAD, and no answer closes the session |
| DownloadClient.Session.Prepare | src/hcmus_socket/client/download.py:95-141 | When the loop begins `.part` is the old one, or empty if a restart from 0 was announced, the digest holds its first start_offset bytes and FILE_INFO is acknowledged; a local error is reported with its code |
| DownloadClient.Session.HashExisting | src/hcmus_socket/client/download.py:109-119 | The digest is fed exactly the first min(start_offset, size) bytes |
| DownloadClient.Session.TakeFrame | src/hcmus_socket/client/download.py:143-226 | A chunk is taken only at the expected offset and within the announced size, a checksum only if size and digest match; every other frame raises the code due to it, after the report due to it, and a failing write closes the session and keeps `.part` |
| DownloadClient.Session.ReceiveAll | src/hcmus_socket/client/download.py:143-237 | The loop ends well only with total bytes received, contiguous chunks buffered behind the old content, and a checksum over everything fed to the digest; otherwise the frame it ended with decides what is reported and raised, and a lost connection keeps everything received |
| DownloadClient.Session.TakeFile | src/hcmus_socket/client/download.py:143-257 | The rest of the file is received and published as a whole: a return has linked the old content plus contiguous data of the announced size, any other end is explained by a frame, the file system or a lost connection |
| DownloadClient.Session.Publish | src/hcmus_socket/client/download.py:228-257 | A return means the destination is `.part` with everything buffered, `.part` is gone, and ACK(FILE_CHECKSUM) was sent; a local error is reported with its code |
| DownloadClient.Session.RemoveStalePart | src/hcmus_socket/client/download.py:259-261 | A ProtocolError removes `.part` and is raised with its own code, or becomes FILE_IO_ERROR with `.part` kept if that fails |
| DownloadClient.Session.ReportFailure | src/hcmus_socket/client/download.py:305-326 | A failure is reported once and raised with its code; a fatal one, or a failing report, closes the session and keeps `.part` |
| DownloadHandler.Session.HandleDownload | src/hcmus_socket/server/download.py:75-247 | A missing file is answered FILE_NOT_FOUND, one that cannot be opened with the code of that error, an offset beyond the end INVALID_PAYLOAD, each once and with nothing else sent. Otherwise the file is offered at the offset asked for, the chunks sent tile the rest and end in its digest, and the acknowledgements decide the result; every run follows the server steps of the composed system |
| DownloadHandler.Session.Offer | src/hcmus_socket/server/download.py:152-259 | The part of a request after it was found servable: what is sent, and how each answer of the peer ends it |
| DownloadHandler.Session.StreamChunks | src/hcmus_socket/server/download.py:183-200 | The chunks sent tile the file from the offset to its end |
| DownloadHandler.Session.AwaitAck | src/hcmus_socket/server/download.py:160-171 | It goes on exactly after the ACK of the expected opcode and offset; another ACK or frame is answered once with its code, an ERROR is not answered |
| DownloadHandler.HashFile | src/hcmus_socket/server/download.py:173-181 | The digest of the whole file, whatever the offset |
| FileSystem.PathsDistinct | src/hcmus_socket/common/partial_transfer.py:19-24 | For accepted names the target, `.part` and `.part.meta` paths of one name are distinct, and those of different (user, name) keys never coincide |
| FileSystem.TempDistinct | src/hcmus_socket/common/partial_transfer.py:50-54 | A metadata temporary file never has the name of a `.part` or `.part.meta` |
| FileSystem.OtherView | src/hcmus_socket/server/session.py:301-308 | A file-system call of one key's transfer leaves the target, part, metadata and temporary file of every other key as they were |
| FileSystem.OwnView | src/hcmus_socket/server/upload.py:368-373 | On its own names the directory-and-inode disk does what the per-key disk of the upload model says: link aliases, unlink drops one name, replace is atomic |
| FileSystem.DoKeeps | src/hcmus_socket/server/namespace.py:46-81 | Only the target and `.part` of one key ever share an inode, and every accepted key's files keep their kind |
| FileSystem.AsIfAlone | src/hcmus_socket/server/session.py:351-373 | Whatever calls of different keys interleave on the shared disk, each key's files end exactly as if its calls had run alone |
| Cleanup.CleanupExpiredPartials | src/hcmus_socket/server/cleanup.py:10-74 | For any order of the walk exactly the files of expired pairs are removed, as far as they can be unlinked, and their number is returned |
| Cleanup.CleanupExpiredPartialPair | src/hcmus_socket/server/cleanup.py:77-107 | It returns true exactly for an expired pair, and then both members are gone unless they could not be unlinked |
| Cleanup.PairsTogether | src/hcmus_socket/server/cleanup.py:16-22 | A fresh member protects the whole pair; a pair that goes goes as a whole |
| Cleanup.TargetsAreKept | src/hcmus_socket/server/cleanup.py:36-48 | No file under an accepted name is ever removed |
| Cleanup.AgeDecides | src/hcmus_socket/server/cleanup.py:64-70 | A pair whose newest member is exactly as old as the limit stays, and is gone one second later |
| Cleanup.Newest | src/hcmus_socket/server/cleanup.py:66-66 | The newest modification time decides |
| Cleanup.PairOfMember | src/hcmus_socket/server/cleanup.py:39-56 | A file is a member of exactly the pair its name is grouped under |
| Cleanup.PairOfKey | src/hcmus_socket/server/cleanup.py:36-56 | The pair of a (user, filename) key is the `.part` and `.part.meta` its uploads write, and pairs of different keys have no file in common |
| Framing.SendAll | src/hcmus_socket/framing.py:28-38 | Through any partial sends the data is written once and in order; on a closed peer a strict prefix of it has been |
| Framing.RecvExact | src/hcmus_socket/framing.py:41-66 | For any segmentation it returns exactly the next size bytes, None at the end of the stream, and INVALID_FRAME when the stream ends inside |
| Framing.ReceiveFrame | src/hcmus_socket/framing.py:128-182 | For any segmentation, result and bytes used are those of parsing the stream. A LENGTH below 4 is INVALID_FRAME and one above the limit PAYLOAD_TOO_LARGE, each after exactly its four bytes; a frame that is returned stood at the front of the stream field by field, with a payload within the limit |
| Framing.Accepted | src/hcmus_socket/framing.py:128-182 | A stream is read as a frame if and only if LENGTH, OPCODE, USER_ID and payload stand in their places, the opcode is defined and the payload within the limit; then exactly its encoding is used up |
| Framing.Refused | src/hcmus_socket/framing.py:138-150 | A LENGTH below 4 or above the limit is refused with its own code after four bytes, whatever follows, and PAYLOAD_TOO_LARGE means nothing else |
| Framing.UnknownOpcode | src/hcmus_socket/framing.py:166-175 | A frame with an undefined opcode is used up whole, reported with that opcode, and the stream stays synchronized |
| Framing.EncodedFields | src/hcmus_socket/framing.py:101-115 | Where the fields of a serialized frame stand |
| Framing.SendFrame | src/hcmus_socket/framing.py:118-125 | A payload over the limit raises PAYLOAD_TOO_LARGE and writes nothing; otherwise the frame, laid out field by field, is written whole, or a strict prefix of it when the peer closes |
| Framing.OnePreface | src/hcmus_socket/framing.py:69-98 | Exactly one byte sequence passes as a preface, the one that is sent: 48 43 4D 55 00 02 00 00 |
| Framing.ParseEncoded | src/hcmus_socket/framing.py:101-182 | A serialized frame followed by anything is read back and exactly its bytes are used, an unknown opcode included |
| Framing.ParseCut | src/hcmus_socket/framing.py:41-66 | A frame cut before its last byte is the end of the stream if nothing of it arrived, INVALID_FRAME otherwise |
| Framing.ReadCut | src/hcmus_socket/framing.py:128-182 | Any list of frames cut at any byte is read as its whole frames, then a clean end exactly when the cut is between frames and INVALID_FRAME otherwise |
| Framing.ReadBack | src/hcmus_socket/framing.py:101-182 | The whole stream is read back as the list that was sent |
| Framing.ReceiveAll | src/hcmus_socket/framing.py:128-182 | The receiving loop, over any segmentation, yields exactly what the stream parses to |
| Framing.SendEach | src/hcmus_socket/framing.py:118-125 | Sending frames one after the other writes their concatenated encodings |
| Packing.UnpackPack | src/hcmus_socket/framing.py:21-25 | Big-endian integers of any width are read back as written |
| Packing.PackUnpack | src/hcmus_socket/framing.py:21-25 | Every byte string is the encoding of the integer it is read as |
| Packing.Positional | src/hcmus_socket/framing.py:21-25 | The value read is the sum of the bytes, each times 256 to the power of the number of bytes after it |
| Messages.CodecBijection | src/hcmus_socket/messages.py:273-705 | For every frame, message and pair of limits: decoding the frame gives the message if and only if making the message gives the frame |
| Messages.PayloadBijection | src/hcmus_socket/messages.py:273-643 | The same for payloads of every opcode, file lists of any length included |
| Messages.Extension | src/hcmus_socket/messages.py:131-136 | A strict extension of an accepted payload is accepted exactly for FILE_CHUNK within the chunk size |
| Messages.Prefix | src/hcmus_socket/messages.py:106-115 | A strict prefix of an accepted payload is accepted exactly for FILE_CHUNK with data left |
| Messages.LoginPayloads | src/hcmus_socket/messages.py:273-303 | LOGIN payloads accepted are exactly those made of valid usernames |
| Messages.ListingPayloads | src/hcmus_socket/messages.py:349-382 | FILE_LIST_RESP payloads accepted are exactly those made |
| Messages.UploadPayloads | src/hcmus_socket/messages.py:385-463 | FILE_UPLOAD and FILE_INFO payloads accepted are exactly those made |
| Messages.DownloadPayloads | src/hcmus_socket/messages.py:413-435 | FILE_DOWNLOAD payloads accepted are exactly those made |
| Messages.ChunkPayloads | src/hcmus_socket/messages.py:466-508 | FILE_CHUNK payloads accepted are exactly those made |
| Messages.ChecksumPayloads | src/hcmus_socket/messages.py:511-544 | FILE_CHECKSUM payloads accepted are exactly those made |
| Messages.AckPayloads | src/hcmus_socket/messages.py:547-576 | ACK payloads accepted are exactly those made, undefined opcodes are not |
| Messages.ErrorPayloads | src/hcmus_socket/messages.py:579-643 | ERROR payloads accepted are exactly those made; the failed opcode may be undefined, the code may not |
| Layouts.Layout | src/hcmus_socket/messages.py:293-643 | For every kind of message: a payload is accepted if and only if every field stands at its offset, in its width and order, and is admissible |
| Layouts.MadeLayout | src/hcmus_socket/messages.py:273-616 | And those are exactly the payloads that are written |
| Layouts.Rejected | src/hcmus_socket/messages.py:101-136 | A rejected payload is INVALID_PAYLOAD, but INVALID_USERNAME or INVALID_FILENAME when its form is in order as far as the name and the name is what is wrong |
| Layouts.NotMade | src/hcmus_socket/messages.py:273-616 | What cannot be written is refused with INVALID_USERNAME or INVALID_FILENAME for a name and INVALID_PAYLOAD for anything else, numbers first |
| Layouts.FrameRules | src/hcmus_socket/messages.py:147-165 | Around the payload: LOGIN under USER_ID 0 only, payloads within the limit, FILE_DELETE not spoken, each with its code |
| Layouts.ListExample | docs/PHASE2_PROTOCOL.md:735-739 | The LIST frame of the protocol document, byte by byte |
| Layouts.UploadExample | docs/PHASE2_PROTOCOL.md:741-756 | Its FILE_UPLOAD frame, byte by byte |
| Layouts.AckExample | docs/PHASE2_PROTOCOL.md:758-772 | Its ACK frame, byte by byte |
| Layouts.LoginExample | tests/test_messages.py:167-170 | The LOGIN frame of the tests, byte by byte |
| Layouts.OpcodeValues | docs/PHASE2_PROTOCOL.md:204-215 | The opcodes of the document's table |
| Layouts.FileErrorValues | docs/PHASE2_PROTOCOL.md:647-667 | The file error codes of its table |
| Layouts.NamesAreSafe | src/hcmus_socket/messages.py:168-250 | An accepted filename names an entry of its own directory: no separator, no NUL, neither `.` nor `..`, at most 255 bytes; a username is such a name of at most 32 bytes without dots |
| Messages.ReadEntries | src/hcmus_socket/messages.py:377-380 | The entry loop reads the entries the list begins with, or fails with the first bad one |
| Messages.ParseFileListResponse | src/hcmus_socket/messages.py:370-382 | The imperative parser accepts what the codec accepts, with the same errors |
| Messages.MakeFileListResponse | src/hcmus_socket/messages.py:349-367 | The imperative maker writes what the codec writes, with the same errors in the same order |
| Messages.PayloadReader.Read | src/hcmus_socket/messages.py:106-115 | It takes the next bytes and advances past them, or fails and stays |
| Messages.PayloadReader.Filename | src/hcmus_socket/messages.py:239-250 | It takes a length-prefixed valid filename, or fails with the code of the first rule it breaks |
| Fields.TakePutEntries | src/hcmus_socket/messages.py:349-382 | Entries written are read back, whatever follows |
| Fields.PutTakeEntries | src/hcmus_socket/messages.py:370-382 | Entries read are valid, as many as announced, and are what was written |
| Utf8.ValidIffEncoded | src/hcmus_socket/messages.py:206-250 | Names accepted as text are exactly the encodings of sequences of Unicode scalar values |
| Protocol.OpcodeOf | src/hcmus_socket/protocol.py:39-56 | A raw opcode denotes an opcode if and only if it is that opcode's value |
| Protocol.ErrorOf | src/hcmus_socket/protocol.py:59-85 | Likewise for error codes |
| FilenameLocks.MutualExclusion | src/hcmus_socket/server/filename_locks.py:28-50 | In every run of any number of threads at most one is inside `hold` for a key |
| FilenameLocks.EntriesCountUsers | src/hcmus_socket/server/filename_locks.py:32-50 | Every thread between increment and decrement uses the entry in the map, whose count is their number; whenever the guard is free the keys in the map are exactly those in use |
| FilenameLocks.NothingLeaks | src/hcmus_socket/server/filename_locks.py:44-50 | Once all threads are out, interrupted or not, the registry is empty |
| FilenameLocks.NobodyWaitsInVain | src/hcmus_socket/server/filename_locks.py:39-46 | A waiting thread can enter, or another thread is inside for the same key: no lock is lost |
| FilenameLocks.EverybodyGetsOut | src/hcmus_socket/server/filename_locks.py:28-50 | From every reachable state all threads can leave, without a new call or an interrupt and within the steps their calls have left, and the registry is empty then: no deadlock |
| FilenameLocks.InterruptedGivesUp | src/hcmus_socket/server/filename_locks.py:39-50 | A thread interrupted while it waits leaves without the lock, which stays with its holder, and gives back its count |
| FilenameLocks.SomebodyMoves | src/hcmus_socket/server/filename_locks.py:28-50 | As long as anyone is in a call, somebody can go on |
| FilenameLocks.StepLowers | src/hcmus_socket/server/filename_locks.py:28-50 | Every step but a new call has its thread closer to the end of its call, so calls end whatever the scheduling |
| FilenameLocks.ReachableInv | src/hcmus_socket/server/filename_locks.py:28-50 | The invariant behind these holds after every run |
| FilenameLocks.StepKeeps | src/hcmus_socket/server/filename_locks.py:32-50 | Every step of every thread keeps the invariant behind these |
| FilenameLocks.CreateKeeps | src/hcmus_socket/server/filename_locks.py:33-36 | A new entry is used by nobody yet and is protected by the guard |
| FilenameLocks.PopKeeps | src/hcmus_socket/server/filename_locks.py:47-50 | A key is popped only when nobody works with its entry |
| TokenBucket.WindowBound | src/hcmus_socket/throttling.py:68-130 | In every window of every run of interleaved consume, try_consume and snapshot calls, with any clock readings, backward ones too, the bytes admitted are at most burst + rate * growth of the highest reading; the level stays between 0 and burst and the totals are the sums over the calls |
| TokenBucket.GoKeeps | src/hcmus_socket/throttling.py:71-102 | One lock section accounts for exactly what it admits and waits |
| TokenBucket.StepKeeps | src/hcmus_socket/throttling.py:68-130 | Every call and lock section keeps level and totals |
| TokenBucket.LoneCall | src/hcmus_socket/throttling.py:68-90 | A lone consume(n) on a clock that does not go back sleeps exactly ceil(max(0, n - t) / burst) times, max(0, n - t) / rate in all, t being the level after its first refill, and is admitted exactly n |
| TokenBucket.SleepSuffices | src/hcmus_socket/throttling.py:82-86 | The wait computed is always enough for the next full burst or the rest |
| TokenBucket.RoundsShrink | src/hcmus_socket/throttling.py:73-90 | Each round after the first leaves strictly fewer sleeps to come |
| TokenBucket.TokenBucket.Consume | src/hcmus_socket/throttling.py:68-90 | The loop terminates and performs exactly those rounds, returning the time waited |
| TokenBucket.TokenBucket.TryConsume | src/hcmus_socket/throttling.py:92-102 | All or nothing, true exactly when the refilled bucket holds the amount |
| TokenBucket.TokenBucket.RefillLocked | src/hcmus_socket/throttling.py:121-130 | The level after a refill, for forward and backward readings |
| TokenBucket.RefillTwice | src/hcmus_socket/throttling.py:121-130 | Two refills are one at the later reading, for any two readings |
| TokenBucket.RefillGain | src/hcmus_socket/throttling.py:121-130 | Tokens flow in at exactly the rate until the bucket is full, and then it is exactly full |
| TokenBucket.TryAnswers | src/hcmus_socket/throttling.py:92-102 | try_consume admits all or nothing: what is there, or has had the time to flow in and fits the burst |
| Registry.ClaimRefines | src/hcmus_socket/server/registry.py:68-95 | Every claim does what the simple registry does that keeps sessions only: same refusals, and a new claim gets the least USER_ID not in use; a refusal changes nothing |
| Registry.LeastUnusedIsUnique | src/hcmus_socket/server/registry.py:139-146 | The least id not in use is unique, so the sessions alone determine the id granted |
| Registry.EveryRun | src/hcmus_socket/server/registry.py:58-108 | Over every run names and authenticated sessions are in bijection, and free and used ids partition [1, next) |
| Registry.ApplyKeeps | src/hcmus_socket/server/registry.py:58-108 | Each operation keeps these |
| Registry.ClaimCapacity | src/hcmus_socket/server/registry.py:139-146 | A new id is at most the number of active sessions, and a claim runs out of ids only when more sessions than ids are active |
| Registry.IdsStaySmall | src/hcmus_socket/server/registry.py:139-146 | With at most M sessions at any time no id ever exceeds M and, with at least M ids, no claim is ever refused for lack of one |
| Registry.ActiveSessionRegistry.ClaimUsername | src/hcmus_socket/server/registry.py:68-95 | The method does exactly that claim, keeps the invariant, and changes nothing when it refuses |
| Registry.ActiveSessionRegistry.RegisterSession | src/hcmus_socket/server/registry.py:58-66 | A new, unused session id with no identity |
| Registry.ActiveSessionRegistry.ReleaseSession | src/hcmus_socket/server/registry.py:97-108 | The session, its name and its id are gone; releasing twice changes nothing |
| Registry.ActiveSessionRegistry.AllocateUserId | src/hcmus_socket/server/registry.py:139-146 | The least released id, else the next new one, else none |
| IdentitySystem.IdentityHeld | src/hcmus_socket/server/session.py:399-431 | In every run over any number of connections, repository clients and strangers alike, a session in IDLE or in a transfer is in the registry under its own name and nonzero USER_ID |
| IdentitySystem.DistinctIdentities | src/hcmus_socket/server/session.py:301-308 | Sessions at work at the same time have different USER_IDs and different namespaces |
| IdentitySystem.FramesCarryId | src/hcmus_socket/server/session.py:129-139 | Every frame a session sends in answer carries the USER_ID it has then |
| IdentitySystem.BothEndsAgree | src/hcmus_socket/client/session.py:187-258 | A client that has logged in and its server session, while that is open, hold the same name and USER_ID |
| IdentitySystem.NoIdentityErrors | src/hcmus_socket/client/session.py:200-225 | Between this client and this server neither end ever rejects a frame for its USER_ID, and a granted login succeeds at the client |
| IdentitySystem.ReachableInv | src/hcmus_socket/server/session.py:129-431 | The invariant behind these holds after every run |
| IdentitySystem.StepKeeps | src/hcmus_socket/server/session.py:129-431 | Every step at one connection keeps the invariant of all of them |
| Identity.HandleSound | src/hcmus_socket/server/session.py:141-217 | Handling any packet keeps the registry sound and the session in agreement with its record, touches no other record, and closes the session only when the connection is lost |
| Identity.OnlyAnswerableRefusals | src/hcmus_socket/server/session.py:416-421 | A claim made by a session that logs in is refused only in the two ways the source answers; AlreadyAuthenticated and UnknownSession never occur |
| Sessions.ServerSession.Serve | src/hcmus_socket/server/session.py:194-217 | The loop leads to exactly what the steps give for the packets in order, registry included |
| Sessions.ServerSession.HandlePacket | src/hcmus_socket/server/session.py:316-349 | One packet, in the order of the source's checks, has exactly the step's effect; in IDLE a DISCONNECT is acknowledged once and ends the session, and no other well-addressed packet does |
| Sessions.ServerSession.DispatchAuthentication | src/hcmus_socket/server/session.py:375-397 | A LOGIN is checked for form, length and availability in this order |
| Sessions.ServerSession.Authenticate | src/hcmus_socket/server/session.py:399-431 | On a grant name and id are set before the answer is sent under that id; on a refusal nothing changes |
| SessionAnswers.IdleAnswers | src/hcmus_socket/server/session.py:316-349 | What an idle session answers to every packet meant for it: the one frame, its code, and the state after it |
| SessionAnswers.WrongIdAnswers | src/hcmus_socket/server/session.py:161-172 | A packet under a wrong USER_ID is answered once with INVALID_USER_ID; it ends a session between requests, and inside a transfer only the transfer |
| SessionAnswers.OnlyDisconnectCloses | src/hcmus_socket/server/session.py:518-528 | An idle session stops receiving if and only if the packet is DISCONNECT or carries a wrong USER_ID |
| SessionAnswers.DisconnectEnds | src/hcmus_socket/server/session.py:518-528 | Whatever follows it, a DISCONNECT sends exactly one ACK(DISCONNECT, 0), leaves the registry alone and ends the loop |
| SessionAnswers.Transcript | src/hcmus_socket/server/session.py:194-217 | Any requests without transfers, then DISCONNECT, then anything: each request gets its one answer in order, the DISCONNECT its ACK, and nothing after it is answered |
| SessionAnswers.PeerGone | src/hcmus_socket/server/session.py:194-203 | A peer may leave between requests; inside a transfer the session is closed, and nothing is sent either way |
| SessionAnswers.LoginAnswers | src/hcmus_socket/server/session.py:375-431 | What a session that waits for LOGIN answers to every packet, first objection first; a name is refused exactly when another session holds it, SERVER_BUSY means every id is held, and otherwise the session is registered under the name and the least free id |
| SessionAnswers.NothingBeforeLogin | src/hcmus_socket/server/session.py:375-397 | However many packets arrive, without a LOGIN a session sends ERROR frames under USER_ID 0 only, holds no name and leaves the registry as it was |
| Sessions.ServeAllStamped | src/hcmus_socket/server/session.py:129-139 | Over a whole session the USER_ID of the frames sent changes at most once, from zero to the one granted |
| Sessions.ClientSession.Connect | src/hcmus_socket/client/session.py:79-113 | It succeeds exactly when the name is valid and the server's first frame is ACK(LOGIN, 0) under a nonzero USER_ID, which it then holds; otherwise it is closed |
| Sessions.ClientSession.Send | src/hcmus_socket/client/session.py:187-198 | Before LOGIN only LOGIN with USER_ID zero is let out, afterwards only frames under its own id |
| Sessions.ClientSession.Receive | src/hcmus_socket/client/session.py:127-144 | A frame is accepted exactly if it is genuine (after LOGIN: it carries the own USER_ID); any other, or none, closes the session |
| Sessions.OnlyGrantsLogIn | src/hcmus_socket/client/session.py:227-258 | Of all first frames exactly the granting ACK completes the login |
| Workers.Conservation | src/hcmus_socket/server/app.py:53-127 | In every interleaving in which no start is interrupted after its thread was launched, free and held slots add up to max_clients, and registry entries <= workers in the table <= held slots |
| Workers.NeverOverReleased | src/hcmus_socket/server/app.py:53-127 | In every such interleaving no release ever finds the semaphore full |
| Workers.Admission | src/hcmus_socket/server/app.py:53-78 | In every such interleaving a client is turned away exactly when every slot is held; otherwise it takes one, and its worker is running and in the table when start returns |
| Workers.NoWorkerAfterClose | src/hcmus_socket/server/app.py:65-69 | Once close has begun no continuation makes a new worker, and a client accepted after it returned gives its slot back |
| Workers.AfterClose | src/hcmus_socket/server/app.py:80-127 | In every such interleaving, when close has returned no worker is in the table and no session in the registry, and a worker that has not ended has only its slot to give back, which is its next step |
| Workers.CloseFreesEverySlot | src/hcmus_socket/server/app.py:83-94 | For every state reached without an interrupted start in which close is called: in all continuations close returns with every slot free if and only if, when it takes its snapshot, free slots plus workers in the table are max_clients |
| Workers.ConservationExactly | src/hcmus_socket/server/app.py:70-77 | Outside the except block of start, slots are conserved and the semaphore never released too often if and only if no start of the run was interrupted after its thread was launched |
| Workers.InterruptBreaksConservation | src/hcmus_socket/server/app.py:70-77 | Every start that is interrupted after its thread was launched gives back the slot of a worker that runs on outside the table: one slot too many |
| Workers.InterruptOverReleases | src/hcmus_socket/server/app.py:70-77 | From every such interrupt some continuation goes on to release the semaphore once too often |
| Workers.InterruptOutlivesClose | src/hcmus_socket/server/app.py:70-94 | A run in which close returns while such a worker serves a registered session |
| Workers.CloseMayPrecedeRelease | src/hcmus_socket/server/app.py:80-127 | A run in which close returns before a worker has released its slot |
| Workers.StepKeeps | src/hcmus_socket/server/app.py:53-127 | Every step but an interrupted start keeps the invariant behind these |

## Left out

- UploadTheorems.CrashInvariant: without failing unlinks; when removing a file may fail quietly, metadata can outlive its data file, and the weaker invariant that then holds is part of `UploadTheorems.ReachableInv`.
- UploadTheorems.NeverResumeMismatch: for this client, which always sends hint 0, and without failing unlinks.
- UploadTheorems.Quiescence: the server may still have the two unlink calls of its `finally` block to make when the client has its last frame.
- UploadProgress.OffsetNeverDecreases: for a file that is not yet published, one declared size, no expiry, no startup cleanup and metadata that can be read; each of these restarts from 0 on purpose.
- UploadCompletion.RetryCompletes: nothing fails during that attempt, and no unlink fails quietly before it; a file system that keeps failing lets no attempt complete.
- DownloadTheorems.DownloadEndToEnd: the server's file does not change during the run.
- DownloadTheorems.Quiescence: the client's last acknowledgement or ERROR may still be on its way to the server; `DownloadTheorems.NextRequest` says what the next request finds.
- DownloadCompletion.RetryCompletes: every call before it knew the size of its `.part`; after one that did not, the next call may have to discard what it left.
- DownloadTheorems.RetriedDownloadEndToEnd: assumes that every call knew the size of its `.part`; one that did not leaves stale bytes in front of the file's.
- IdentitySystem.NoIdentityErrors: for clients that send LOGIN in `connect` only, as this repository's client does.
- TokenBucket.LoneCall: exact real arithmetic in place of floating point.
- Workers.AfterClose: one accepting thread, which is also the one that closes, as in `serve_forever`; of the places where it can be interrupted, only the wait inside `Thread.start` is modelled.
- FilenameLocks: an interrupt in the instant between acquiring the entry's lock and noting it; fairness and starvation, which nothing in the code rules out.
- A flush that fails when the buffered `.part` is closed after a failed chunk write has been reported: the session ends there instead of going back to IDLE. The client ends it anyway, since it answers an ERROR about a chunk by closing.
- Power loss: chunks are flushed but not synced, so the strongest crash is a process kill.
- A metadata temporary file that cannot be unlinked, and the sleeps between attempts to replace metadata.
- `.part` or `.part.meta` as symbolic links, path resolution, case-insensitive file systems.
- A prefix read that is shorter than the metadata says: with the filename lock held no other call can shorten `.part`.
- Truncation past the end of `.part`: an offset above its size is refused before.
- A target that appears between the check and the link without the filename lock (`src/hcmus_socket/server/upload.py:373-387`): with the lock held only an outside program can make one.
- A stale `.part` that cannot be removed when the server restarts a download from 0, or after a failed read of it: the code then raises before it reports (`src/hcmus_socket/client/download.py:95-119`); this server always starts where it is asked to.
- The TTL is a choice of the environment in the upload system; `Cleanup` has the times.
- JSON syntax: a metadata file holds a record, is torn, or cannot be read.
- A server file that changes while it is downloaded, and the server's read-failure branch, which does not report as written.
- The order of an ERROR frame and the closing of the client's buffered `.part` when a download fails: the buffer is written out first.
- A failing `flush` before the final `fsync` of a download, raising progress callbacks, a FILE_INFO for another filename.
- The handshake's place in the server session beyond its effect on the state, clean-disconnect flags, logging, timeouts, half-close and `reject_busy`.
- The directory listing (one request, one reply), the configuration file, the user interface and the command line.
- The heap of released ids is a multiset with its least element; threads inside one registry operation are serialized by its lock.
- Interactions of several sessions inside one `Sessions.ServerSession` method: the registry changes between packets in `IdentitySystem` only.
