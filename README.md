# websocket-ftp protocol engines in Dafny

This project models the protocol engines of websocket-ftp, a file transfer over
one WebSocket connection. A sender offers a manifest of files. A receiver
accepts or declines it, and then collects each file's bytes in order while the
two sides exchange `"start"`, `"complete"` and `"exit"` signals.

Each engine is a small finite state machine. The dispatcher looks up a
(event, state) cell, sets the new state *before* the cell's actions run, and an
action may re-enter the dispatcher. Every engine is modelled twice:

- as a specification on values: a snapshot datatype plus `Dispatch` / `Act`
  functions, which carry their re-entry in a lexicographic `decreases`;
- as the class the source mutates. Each method of the class ensures that its
  new state and outcome are what the specification computes from the old
  state.

Lemmas then state the protocol properties about the specification.

| file | module | source |
|---|---|---|
| `common.dfy` | `Common` | shared helpers: bytes, `Option`, concatenation, Go's truncating division, JavaScript's clamped `slice` |
| `sender_table.dfy` | `SenderTable` | the sender's transition table `EventStateMatrix` and `BUFFER_SIZE` |
| `sender.dfy` | `Sender` | the sender `Transfer` (`eventReducer`, `actionReducer`, `_connHandler`, `cancel`) with both upload loops: in-memory bytes and a `FileStream` read script |
| `legacy_sender.dfy` | `LegacySender` | the older sender in `upload.ts`, with its fixed-stride upload loop |
| `receiver_states.dfy` | `ReceiverStates` | the browser receiver's `State` and `Event` enums |
| `receiver.dfy` | `BrowserReceiver` | `listenEvents` frame classification and the `Receiver` class |
| `server_types.dfy` | `ServerTypes` | the Go receiver's enums, `TransferState` and `EventStateMatrix` |
| `server.dfy` | `Server` | `eventHandler`, `actionHandler`, the frame loop of `Handler`, and `outputWriter` |
| `server_state.dfy` | `ServerState` | `FileOut.Write`, `NewServer`, `NewDefaultServer` |

How the source's effects are represented:

- Sends, hook calls and the connection close are appended, in order, to a
  `trace` of effects.
- A thrown exception (TypeScript) or a panic (Go) is an outcome value. The
  state it leaves behind is the one the source leaves behind.
- A hook that may be absent is a boolean saying whether it is installed.
- A user's answer to a request is an explicit input. In the Go receiver it is
  `Env.accepts`. In the browser receiver it is the `accept` argument of
  `Choose`.
- Progress thresholds that TypeScript computes as the float `Size / 16` are
  compared exactly, as `16 * (uploaded - last) > Size`.
- Go's `int64` division `Size / updateRatio` truncates toward zero. It is
  written out as `TruncDiv`.

## Model

| member | source | states |
|---|---|---|
| Common.ConcatAppend | server/server.go:34-36 | writing one more chunk appends exactly its bytes and adds its length to the running byte count |
| Common.ConcatLength | server/server.go:36 | the bytes written so far number exactly the sum of the chunk lengths (`writtenBytes`) |
| Common.TruncDiv | server/server.go:91 | Go's `int64` division truncates toward zero: for a non-negative size it is the quotient, for a negative one the negated quotient of the magnitude |
| Common.Slice | client/src/client/client.ts:129 | `slice(start, end)` is clamped to the array: it is `data[start..min(end, len)]`, never longer than `end - start`, and non-empty while `start` is inside the data |
| SenderTable.AllPairsCover | client/src/client/state.ts:3-14 | there are 4 events and 3 states, so 12 (event, state) pairs, and every pair is enumerated |
| SenderTable.Lookup | client/src/client/state.ts:23-55 | a defined cell has one action and always changes the state, and it enters INITIAL exactly when its action is Quit |
| SenderTable.FiveDefinedCells | client/src/client/state.ts:23-55 | the table is partial: exactly 5 of the 12 pairs have a cell |
| SenderTable.OneActionPerCell | client/src/client/state.ts:32-55 | every defined cell has exactly one action |
| SenderTable.StartCell | client/src/client/state.ts:33-36 | `start` is defined only in INITIAL, where it does [SendFileRequest] and enters WAITING_TO_START |
| SenderTable.BeginFileUploadCell | client/src/client/state.ts:37-40 | `beginFileUpload` is defined only in WAITING_TO_START, where it does [UploadFile] and enters WAITING_FOR_COMPLETION |
| SenderTable.UploadCompleteCell | client/src/client/state.ts:41-44 | `uploadComplete` is defined only in WAITING_FOR_COMPLETION, where it does [IncrementFileIndex] and enters WAITING_TO_START |
| SenderTable.ExitFileUploadCell | client/src/client/state.ts:45-54 | `exitFileUpload` is defined exactly in the two non-initial states, and there does [Quit] and enters INITIAL |
| SenderTable.IntoInitialQuits | client/src/client/state.ts:45-54 | every cell whose new state is INITIAL carries Quit |
| SenderTable.CellRanks | client/src/client/state.ts:32-55 | no action of a cell re-enters the dispatcher more deeply than its event allows, so dispatch terminates |
| Sender.Windows | client/src/client/client.ts:129 | the successive in-memory reads from a position supply exactly the remaining bytes |
| Sender.ProgressCheck | client/src/client/client.ts:138-148 | no report and no move while at most `Size/16` bytes went out since the last report; past it the mark moves to the current count, and exactly one report fires exactly when `onprogress` is installed, carrying `min(uploaded, Size)` out of `Size` |
| Sender.Upload | client/src/client/client.ts:122-149 | the loop does nothing once `Size` bytes went out, and each read adds at most a frame and a report |
| Sender.PullsOf | client/src/client/client.ts:121-130 | a file's reads supply at least `Size` bytes exactly when its data can (enough bytes in memory, or a stream script that yields them) |
| Sender.Descriptors | client/src/client/client.ts:72-83 | the manifest lists every file's name, size and type, in order, without the data |
| Sender.Dispatch | client/src/client/client.ts:95-107 | the event reducer never changes the files or hooks, and only appends to the trace |
| Sender.RunActions | client/src/client/client.ts:104-106 | running a cell's actions in order never changes the files or hooks, and only appends to the trace; every action runs even after one throws or spins, and the outcome is the first one that is not Done |
| Sender.Act | client/src/client/client.ts:109-167 | one action never changes the files or hooks, and only appends to the trace; UploadFile's outcome is Spins when the file's source falls short of `Size` |
| Sender.Receive | client/src/client/client.ts:56-70 | handling an incoming signal never changes the files or hooks, and only appends to the trace |
| Sender.Run | client/src/client/client.ts:56-70 | a sequence of incoming signals never changes the files or hooks, and only appends to the trace |
| Sender.Transfer.constructor | client/src/client/client.ts:37-54 | a new transfer is in INITIAL, at file 0, with nothing sent |
| Sender.Transfer.OnOpen | client/src/client/client.ts:52 | opening the connection dispatches `start`: the new state and outcome are `Dispatch(old, start)` |
| Sender.Transfer.ConnHandler | client/src/client/client.ts:56-70 | an incoming message has the effect `Receive` gives it: "start" calls `onstart` and then dispatches `beginFileUpload`, "exit" dispatches `exitFileUpload`, "complete" dispatches `uploadComplete` |
| Sender.Transfer.Cancel | client/src/client/client.ts:91-93 | cancel runs exactly the Quit action, whatever the state |
| Sender.Transfer.EventReducer | client/src/client/client.ts:95-107 | the event reducer's new fields and outcome are `Dispatch(old, e)`: throw on a missing cell, otherwise set the state and then run each action in order |
| Sender.Transfer.ActionReducer | client/src/client/client.ts:109-167 | each action's new fields and outcome are `Act(old, a)` |
| Sender.Transfer.SendInMemory | client/src/client/client.ts:114-151 | the byte-mode loop appends exactly the frames and progress reports of `Upload` over 1024-byte windows of the data, and reports that it spins exactly when `data.byteLength < Size` |
| Sender.InMemoryTurn | client/src/client/client.ts:122-149 | one turn of the byte-mode loop sends the 1024-byte window at the current count and runs the progress check, which is exactly the first step of `Upload` over the windows from that count |
| Sender.Transfer.SendFromStream | client/src/client/client.ts:114-151 | the stream-mode loop appends exactly the frames and progress reports of `Upload` over the read script, where an empty read sends nothing and loops; it reports that it spins exactly when the script supplies fewer than `Size` bytes |
| Sender.WindowsStep | client/src/client/client.ts:129 | each in-memory read is the next non-empty window of at most 1024 bytes, and the reads after it start where it ends |
| Sender.WindowsSupply | client/src/client/client.ts:129 | the windows from a position concatenate to exactly the rest of the data |
| Sender.UploadStep | client/src/client/client.ts:122-149 | one loop iteration sends the read (if any) and then the progress check, and the rest of the loop continues from the new count |
| Sender.UploadUnfold | client/src/client/client.ts:122-149 | while `uploaded < Size` the loop performs one read, a send and a progress check, and continues |
| Sender.BinaryAppend | client/src/client/client.ts:133 | the bytes sent and the progress reports of two consecutive traces are those of each, in order |
| Sender.UploadSendsPayload | client/src/client/client.ts:122-149 | the bytes sent are a prefix of what the reads supply, reach `Size`, and are all of it when the reads supply exactly `Size` |
| Sender.ReportsSendNothing | client/src/client/client.ts:138-148 | a progress check sends no bytes |
| Sender.NoSupplyNoPayload | client/src/client/client.ts:126-136 | reads that supply nothing yield no bytes |
| Sender.InMemoryUploadSendsData | client/src/client/client.ts:114-151 | when `data.byteLength == Size`, the frames sent concatenate to exactly the data |
| Sender.SentChunksAreReads | client/src/client/client.ts:126-134 | every frame sent is a buffer some read returned, whatever the reads supply |
| Sender.WindowsAreFrames | client/src/client/client.ts:129 | every in-memory read is non-empty and at most 1024 bytes |
| Sender.InMemoryFramesBounded | client/src/client/client.ts:129-133 | in byte mode every frame sent holds between 1 and 1024 bytes |
| Sender.ZeroSizeSendsNothing | client/src/client/client.ts:122 | a zero-size file sends no frame and no report |
| Sender.ProgressIncreases | client/src/client/client.ts:138-148 | the progress reports strictly increase, and lie strictly above the starting count and at most at `Size`, for any reads |
| Sender.ReportsOfTurn | client/src/client/client.ts:131-148 | the frame a read puts on the wire carries no progress report, so a turn's reports are its progress check's followed by the later turns' |
| Sender.ReportsStep | client/src/client/client.ts:138-148 | one progress check keeps the reports increasing and within bounds |
| Sender.ConsIncreasing | client/src/client/client.ts:147 | a report below all later reports keeps the sequence strictly increasing |
| Sender.ProgressBounded | client/src/client/client.ts:138-148 | for any file, including one whose source falls short, every progress value reported is positive and at most `Size`, and the values strictly increase |
| Sender.ReportsTrueAppend | client/src/client/client.ts:138-148 | reports that count the frames before them stay true when two traces are joined, the second counting on from the first's bytes |
| Sender.ReportsTrueAt | client/src/client/client.ts:138-148 | in a trace whose reports are true, the report at index i is the bytes the frames before i carry, capped at `Size` |
| Sender.TurnReportsTrue | client/src/client/client.ts:131-148 | one read's frame and progress check send exactly what the read yielded, and the report, if any, counts that frame |
| Sender.UploadReportsTrue | client/src/client/client.ts:122-149 | every report of the loop counts the bytes its frames have sent so far |
| Sender.ProgressValues | client/src/client/client.ts:138-148 | every progress report of a file's upload is `onprogress(min(bytes sent before it, Size), Size)` |
| Sender.FinalProgressCanFallShort | client/src/client/client.ts:138-148 | the last report need not be `Size`: a 32-byte file read as 31 then 1 bytes reports only 31 |
| Sender.UndefinedCellThrows | client/src/client/client.ts:95-101 | on a missing cell the reducer throws and leaves the state unchanged |
| Sender.CompleteWhileWaitingToStartThrows | client/src/client/client.ts:66-67 | a "complete" signal before the upload began throws and changes nothing |
| Sender.StartStep | client/src/client/client.ts:103-113 | `start` in INITIAL enters WAITING_TO_START and sends the manifest |
| Sender.BeginStep | client/src/client/client.ts:103-151 | `beginFileUpload` enters WAITING_FOR_COMPLETION and then uploads the current file, spinning if its source falls short; with no current file it throws after the state change |
| Sender.ExitStep | client/src/client/client.ts:103-106 | `exitFileUpload` in a non-initial state enters INITIAL and runs Quit: close, then `onclose` |
| Sender.CompleteStep | client/src/client/client.ts:152-159 | `uploadComplete` advances the cursor; if another file exists it waits for "start", otherwise it calls `onsuccess` and then exits to INITIAL with Quit |
| Sender.CompleteCell | client/src/client/client.ts:152-159 | `uploadComplete` runs IncrementFileIndex from WAITING_TO_START: the cursor moves on, and past the last file `onsuccess` runs before `exitFileUpload` is dispatched |
| Sender.CancelQuits | client/src/client/client.ts:160-163 | Quit closes the connection and calls `onclose` in any state, changing nothing else |
| Sender.OpenEstablishesCursor | client/src/client/client.ts:47-52 | after opening, the cursor is within bounds |
| Sender.ReceiveKeepsCursor | client/src/client/client.ts:56-70 | every incoming signal keeps the cursor within bounds |
| Sender.NoMissingFile | client/src/client/client.ts:114-115 | with the cursor in bounds and a non-empty manifest, a signal can only throw on an undefined cell, never on a missing file |
| Sender.SpinsOnShortFile | client/src/client/client.ts:122-149 | a signal leaves the sender spinning exactly when it is "start" while waiting to start and the current file's source supplies fewer than `Size` bytes |
| Sender.ReceiveCases | client/src/client/client.ts:56-70 | how each signal maps to an event in each state, and that every other signal leaves everything but the `onstart` call unchanged and either succeeds or throws on an undefined cell |
| Sender.HookEffectsSendNothing | client/src/client/client.ts:155-162 | hook calls and the close send no bytes |
| Sender.RunAppend | client/src/client/client.ts:56-70 | handling two runs of signals in turn is handling their concatenation |
| Sender.RunPair | client/src/client/client.ts:56-70 | two signals are handled one after the other |
| Sender.StartTurn | client/src/client/client.ts:114-151 | "start" uploads exactly the current file's bytes and waits for completion |
| Sender.CompleteTurn | client/src/client/client.ts:152-159 | "complete" sends no bytes, advances the cursor, and either waits for the next "start" or ends in INITIAL with the Quit effects |
| Sender.FileTurn | client/src/client/client.ts:56-70 | for a file whose source yields exactly `Size` bytes, a "start"/"complete" exchange sends exactly that file's bytes and advances to the next file, or after the last file ends in INITIAL with the connection closed (`TurnEnded`) |
| Sender.SessionSplit | client/src/client/client.ts:56-70 | a session for n+1 files is one "start"/"complete" exchange followed by a session for n |
| Sender.SessionGlue | client/src/client/client.ts:114-159 | a file's turn followed by a successful session for the rest is a successful session for all the remaining files |
| Sender.SessionLast | client/src/client/client.ts:152-159 | the last file's turn is a whole successful session |
| Sender.ContentsFrom | client/src/client/client.ts:114-151 | the bytes of the remaining files are the current file's bytes followed by the rest |
| Sender.SuccessfulSession | client/src/client/client.ts:56-70 | when every source yields exactly its size, one "start"/"complete" exchange per remaining file sends every file's bytes in manifest order and nothing else, then ends in INITIAL having closed the connection (`SessionEnded`) |
| LegacySender.Manifest | client/src/upload.ts:68-79 | the manifest lists every file's name, size and type, in order, without the data; it is the newer sender's manifest of the same files |
| LegacySender.Progress | client/src/upload.ts:127-136 | a report fires exactly when `onprogress` is installed and `byteStart` has passed the update position; it carries `min(byteStart, Size)` out of `Size` and moves the position on by `Size/16`; otherwise the position stays |
| LegacySender.Upload | client/src/upload.ts:115-137 | the loop does nothing once `byteStart` reaches `Size`, and otherwise begins with a frame |
| LegacySender.AfterExit | client/src/upload.ts:143-146 | after the re-entered `exitFileUpload`, a throw is returned unchanged; otherwise the outcome is success and the trace gains exactly the `onsuccess` call, when that hook is installed |
| LegacySender.Dispatch | client/src/upload.ts:85-100 | the event reducer never changes the files or hooks, and only appends to the trace |
| LegacySender.RunActions | client/src/upload.ts:97-99 | running a cell's actions in order never changes the files or hooks, and only appends to the trace |
| LegacySender.Act | client/src/upload.ts:102-155 | one action never changes the files or hooks, and only appends to the trace |
| LegacySender.Receive | client/src/upload.ts:52-66 | handling an incoming signal never changes the files or hooks, and only appends to the trace |
| LegacySender.Transfer.constructor | client/src/upload.ts:33-50 | a new transfer is in INITIAL, at file 0, with nothing sent |
| LegacySender.Transfer.OnOpen | client/src/upload.ts:48 | opening the connection dispatches `start` |
| LegacySender.Transfer.ConnHandler | client/src/upload.ts:52-66 | an incoming message has the effect `Receive` gives it |
| LegacySender.Transfer.Cancel | client/src/upload.ts:81-83 | cancel runs exactly the Quit action |
| LegacySender.Transfer.EventReducer | client/src/upload.ts:85-100 | the event reducer's new fields and outcome are `Dispatch(old, e)`: throw on a missing cell, otherwise set the state and then run the actions in order |
| LegacySender.Transfer.ActionReducer | client/src/upload.ts:102-155 | each action's new fields and outcome are `Act(old, a)` |
| LegacySender.Transfer.SendFile | client/src/upload.ts:107-139 | the fixed-stride loop appends exactly `Upload`'s frames and reports; its invariant is `bytesRemaining + byteStart == Size`, with `byteStart` a multiple of 1024 |
| LegacySender.UploadUnfold | client/src/upload.ts:115-136 | while `byteStart < Size` one iteration sends `slice(byteStart, byteStart+1024)`, then at most one progress report, and continues 1024 bytes on |
| LegacySender.UploadStep | client/src/upload.ts:115-136 | one iteration of the loop followed by the rest of the loop is the whole loop |
| LegacySender.FramesAppend | client/src/upload.ts:116-121 | the frames of two consecutive traces are those of each, in order |
| LegacySender.BinaryIsFrames | client/src/upload.ts:116-121 | the bytes sent are the frames concatenated |
| LegacySender.ChunksStep | client/src/upload.ts:115-124 | one more iteration happens exactly while bytes remain |
| LegacySender.UploadFrames | client/src/upload.ts:115-125 | the loop sends `ceil(Size/1024)` frames, the k-th being the stride `slice(k*1024, k*1024+1024)` |
| LegacySender.StridesAt | client/src/upload.ts:117-124 | the k-th stride is the 1024-byte slice of the data at `start + k*1024` |
| LegacySender.StridesJoin | client/src/upload.ts:115-125 | the strides concatenate to the data from the start up to n strides on, clamped to the data |
| LegacySender.ExactFileSentWhole | client/src/upload.ts:107-139 | when `Size` is the data length, the bytes sent are exactly the data, in `ceil(Size/1024)` frames |
| LegacySender.SendersAgree | client/src/upload.ts:107-139 | for in-memory data, the older loop and the newer one send the same bytes |
| LegacySender.NoHookNoReports | client/src/upload.ts:128 | without `onprogress` no report is made |
| LegacySender.ProgressIncreases | client/src/upload.ts:128-136 | the reports strictly increase, lie strictly above the starting offset and never exceed `Size` |
| LegacySender.UploadStrideReports | client/src/upload.ts:115-136 | each report of the loop is the end of the stride sent just before it, capped at `Size`, and there are no more reports than frames |
| LegacySender.StrideReportAt | client/src/upload.ts:127-136 | in such a trace, the report at index i is `min(start + 1024 * frames before i, Size)` |
| LegacySender.ProgressValues | client/src/upload.ts:127-136 | for a whole upload, reports never outnumber frames, and each is `onprogress(min(1024 * frames sent before it, Size), Size)` |
| LegacySender.ReportsSplit | client/src/upload.ts:116-136 | a frame contributes no report of its own |
| LegacySender.ReportStep | client/src/upload.ts:128-136 | one iteration's report keeps the reports increasing and within bounds |
| LegacySender.OneAction | client/src/upload.ts:97-99 | running a one-action cell is running that action |
| LegacySender.UndefinedCellThrows | client/src/upload.ts:91-93 | on a missing cell the reducer throws and leaves the state unchanged |
| LegacySender.StartStep | client/src/upload.ts:95-105 | `start` in INITIAL enters WAITING_TO_START and sends the manifest |
| LegacySender.BeginStep | client/src/upload.ts:95-139 | `beginFileUpload` enters WAITING_FOR_COMPLETION and uploads the current file; with no current file it throws after the state change |
| LegacySender.ExitStep | client/src/upload.ts:148-151 | `exitFileUpload` in a non-initial state enters INITIAL and runs Quit |
| LegacySender.IncrementUnfold | client/src/upload.ts:140-147 | IncrementFileIndex advances the cursor; with no next file it dispatches `exitFileUpload` and only then calls `onsuccess` |
| LegacySender.IncrementStep | client/src/upload.ts:140-147 | from WAITING_TO_START, the last increment ends in INITIAL with the Quit effects first and `onsuccess` after them |
| LegacySender.CompleteStep | client/src/upload.ts:140-147 | `uploadComplete` advances the cursor; after the last file it closes and calls `onclose` before `onsuccess`, the reverse of the newer sender |
| LegacySender.CancelQuits | client/src/upload.ts:81-83 | Quit closes and calls `onclose` in any state, changing nothing else |
| ReceiverStates.FourStates | client/src/receiver/state.ts:1-6 | exactly four states numbered 0 to 3 without gaps, INITIAL first |
| ReceiverStates.SixEvents | client/src/receiver/state.ts:8-15 | exactly six events numbered 0 to 5 without gaps |
| ReceiverStates.SameStateOrder | server/types.go:49-56 | the browser receiver's states and the Go receiver's `StateID` correspond one to one and have the same numbers |
| BrowserReceiver.Classified | client/src/receiver/receiver.ts:34-67 | classification produces at most one event per frame |
| BrowserReceiver.Classify | client/src/receiver/receiver.ts:34-67 | a frame is dropped exactly when it is a control message whose Type is not "files"; content carries its own byte length |
| BrowserReceiver.Listen | client/src/receiver/receiver.ts:22-33 | PEER_CONNECT comes first, followed by at most one event per frame |
| BrowserReceiver.ClassifyCases | client/src/receiver/receiver.ts:36-65 | a text frame gives RECEIVE_REQUESTS exactly when its Type is "files", and is otherwise dropped; a Blob or buffer frame gives RECEIVE_CONTENTS with its byte length |
| BrowserReceiver.ClassifiedEvents | client/src/receiver/receiver.ts:34-67 | frames give only RECEIVE_REQUESTS or RECEIVE_CONTENTS, each content length equals its byte count, and exactly the non-"files" text frames are dropped |
| BrowserReceiver.Dropped | client/src/receiver/receiver.ts:39-45 | no more frames are dropped than arrive |
| BrowserReceiver.ListenEvents | client/src/receiver/receiver.ts:26-67 | PEER_CONNECT comes first and never again, and no event is USER_ACCEPT, USER_DENY or RECEIVE_DONE |
| BrowserReceiver.Announce | client/src/receiver/receiver.ts:136-139 | announcing a file to `onReceive` is at most one hook call |
| BrowserReceiver.Handle | client/src/receiver/receiver.ts:90-176 | a throw changes nothing; no event moves the cursor; only RECEIVE_REQUESTS touches the trace, by appending exactly the `onRequest` call. A legal PEER_CONNECT enters LISTENING_REQUESTS and nothing else; a legal RECEIVE_REQUESTS stores the files, enters WAITING_CONFIRMATION and calls `onRequest`; RECEIVE_DONE changes nothing |
| BrowserReceiver.Allocate | client/src/receiver/receiver.ts:122-123 | a fresh sink of size `requests[i].Size` at each requested index; older sinks past the requests are kept |
| BrowserReceiver.Choose | client/src/receiver/receiver.ts:110-162 | a throw keeps the state, the sinks and the trace; otherwise accept enters RECEIVING and last sends "start", deny enters INITIAL and last sends "exit" |
| BrowserReceiver.Finish | client/src/receiver/receiver.ts:124-146 | a completion advances the cursor by one, keeps the sinks and the requests, and first sends "complete" |
| BrowserReceiver.Receiver.constructor | client/src/receiver/receiver.ts:76-90 | a new receiver is in INITIAL with no requests, no sinks and file 0 |
| BrowserReceiver.Receiver.OnEvent | client/src/receiver/receiver.ts:90-177 | the listener's new fields and outcome are `Handle(old, e)` |
| BrowserReceiver.Receiver.OnChoice | client/src/receiver/receiver.ts:110-162 | the user's answer has the effect `Choose` gives it: accepting undefined requests resets the cursor and throws; the allocation loop fills `outputs` in place |
| BrowserReceiver.Receiver.OnFinish | client/src/receiver/receiver.ts:124-146 | a sink's completion listener has the effect `Finish` gives it |
| BrowserReceiver.ConnectThenRequests | client/src/receiver/receiver.ts:90-110 | a new receiver that connects and then receives a request list waits for the user's answer, holding the list, having called `onRequest` once, with no sink and the cursor at 0 |
| BrowserReceiver.EventLegality | client/src/receiver/receiver.ts:90-177 | an event throws exactly when it arrives in the wrong state, or when contents arrive with no sink at the cursor; a throw changes nothing |
| BrowserReceiver.ChoiceLegality | client/src/receiver/receiver.ts:113-121 | a decision throws exactly outside WAITING_CONFIRMATION, when it changes nothing, or when it accepts undefined requests, when only the cursor is reset to 0 |
| BrowserReceiver.AcceptAllocates | client/src/receiver/receiver.ts:119-157 | accepting defined requests sets the cursor to 0 and allocates one sink sized `requests[i].Size` at each index i, leaving any other sinks. It then announces file 0, sends "start" and enters RECEIVING |
| BrowserReceiver.DenyAllocatesNothing | client/src/receiver/receiver.ts:159-160 | deny enters INITIAL, sends "exit" and allocates no sink |
| BrowserReceiver.ContentsRouting | client/src/receiver/receiver.ts:164-175 | accepted contents go only to the sink at the cursor, with their length as given at arrival; nothing else changes |
| BrowserReceiver.HandlePreservesValid | client/src/receiver/receiver.ts:90-176 | every event keeps the receiver's invariant: while receiving, the requests are defined, there is a sink of the requested size for every request, and the cursor is on a requested file |
| BrowserReceiver.ChoosePreservesValid | client/src/receiver/receiver.ts:110-162 | every decision keeps that invariant |
| BrowserReceiver.FinishPreservesValid | client/src/receiver/receiver.ts:124-146 | a sink's completion keeps that invariant |
| BrowserReceiver.NoMissingSink | client/src/receiver/receiver.ts:164-175 | while a non-empty transfer is receiving, contents never throw |
| BrowserReceiver.EmptyAccept | client/src/receiver/receiver.ts:119-157 | accepting an empty manifest enters RECEIVING with no sink, and any contents then throw |
| BrowserReceiver.Finishes | client/src/receiver/receiver.ts:124-146 | completions never change the sinks or the requests |
| BrowserReceiver.FinishAll | client/src/receiver/receiver.ts:124-146 | completing the remaining files one by one ends in INITIAL at the end of the list, having handed off every file |
| BrowserReceiver.MiddleFinish | client/src/receiver/receiver.ts:129-140 | completing a file that is not the last sends "complete", announces the next file and sends "start" |
| BrowserReceiver.LastFinish | client/src/receiver/receiver.ts:129-145 | completing the last file sends "complete", enters INITIAL, calls `onTransfersComplete` and closes |
| BrowserReceiver.HandoffsShape | client/src/receiver/receiver.ts:124-146 | the hand-offs send one "complete" per file and end by closing the connection |
| BrowserReceiver.HandoffsCons | client/src/receiver/receiver.ts:124-146 | handing off one more file adds exactly one "complete" and leaves the last effect unchanged |
| BrowserReceiver.HandoffsEnd | client/src/receiver/receiver.ts:124-146 | after the last file exactly one "complete" is sent and the last effect is closing the connection |
| BrowserReceiver.AcceptedTransfer | client/src/receiver/receiver.ts:119-157 | after an accept, one completion per file leads back to INITIAL having announced and completed every file in order |
| ServerTypes.StateNumber | server/types.go:51-56 | the `iota` numbers of the states are below 4 |
| ServerTypes.Lookup | server/types.go:85-126 | a defined cell stays in its state exactly in RECEIVING, and enters INITIAL exactly when it sends the exit signal |
| ServerTypes.OneStatePerEvent | server/types.go:85-126 | each event has a cell in exactly one state, the one the protocol expects it in |
| ServerTypes.Cells | server/types.go:91-125 | the matrix cells as listed: `peerConnect`, `recvRequests`, `userAccept`, `userDeny` and `recvDone` with their actions and new states |
| ServerTypes.ReceivingIsClosed | server/types.go:115-125 | in RECEIVING only `recvDone` is defined, and it stays in RECEIVING |
| ServerTypes.ClientAllowUnused | server/types.go:68-83 | SendClientAllow is declared but no cell runs it |
| ServerTypes.CellRanks | server/types.go:85-126 | no action re-enters the dispatcher more deeply than its event allows, so dispatch terminates |
| Server.UpdateRatio | server/server.go:48-51 | the progress ratio is 4 exactly when verbose, and 24 otherwise |
| Server.Fresh | server/server.go:58-66 | a new transfer is in INITIAL, with no writer channel and nothing done |
| Server.Dispatch | server/server.go:111-125 | an event only appends to the trace |
| Server.RunActions | server/server.go:122-124 | running a cell's actions only appends to the trace |
| Server.Act | server/server.go:127-163 | an action only appends to the trace |
| Server.HandleFrame | server/server.go:82-107 | a frame only appends to the trace |
| Server.Report | server/server.go:96-101 | below `updateNext` nothing happens; once `Received` reaches it, the mark grows by the offset and `OnTransferUpdate(Received)` is called if there are handlers |
| Server.Run | server/server.go:73-107 | no frames leave the transfer and the mark unchanged, and frames only append to the trace |
| Server.Session | server/server.go:47-109 | a connection without frames ends listening for file requests with nothing done and no panic |
| Server.Transfer.constructor | server/server.go:58-66 | a new transfer is `Fresh()` |
| Server.Transfer.EventHandler | server/server.go:111-125 | the event handler's new fields and outcome are `Dispatch(old, e)`: panic on a missing cell, otherwise set `State.Number` and then run the actions in order, stopping at a panic |
| Server.Transfer.ActionHandler | server/server.go:127-163 | each action's new fields and outcome are `Act(old, a)` |
| Server.Transfer.OnFrame | server/server.go:82-107 | one read-loop iteration's new fields, `updateNext` and outcome are `HandleFrame` |
| Server.Handler | server/server.go:47-109 | the connection handler creates a fresh transfer, dispatches `peerConnect`, handles the frames in order, and stops at the first panic or blocked send; the result is `Session` |
| Server.OutputWriter | server/server.go:25-45 | the writer writes chunks in arrival order and returns right after the first chunk that brings the count to `Size`, flushing; otherwise it consumes every chunk. When the chunks reach `Size` only at the last one, it writes them all and flushes |
| Server.PendingPrefix | server/server.go:34-37 | a writer that has not reached `Size` before or at the last chunk is still pending |
| Server.RunStep | server/server.go:122-124 | after an action that does not panic, the rest of the cell runs from the new state |
| Server.OneAction | server/server.go:122-124 | running a one-action list is running that action |
| Server.NoCellPanics | server/server.go:112-119 | an event outside its expected state panics and changes nothing |
| Server.ConnectStep | server/types.go:91-96 | `peerConnect` in INITIAL enters LISTENING_FOR_FILE_REQUESTS and does nothing else |
| Server.DisplayStep | server/server.go:129-138 | the request display defaults to accept without handlers; with handlers it records the request and dispatches exactly one of `userAccept` or `userDeny` |
| Server.AcceptStep | server/types.go:103-108 | accept enters RECEIVING, installs a fresh channel, starts the writer for the current file and sends "start"; a cursor out of range panics after the channel is made |
| Server.DenyStep | server/types.go:109-114 | deny enters INITIAL and sends "exit" |
| Server.IncrementStep | server/server.go:139-142 | IncrementFileIndex reports the file completed, then does `CurrentFile += 1` and `Received = 0`; without handlers it panics first |
| Server.RecvDoneHandlerStep | server/server.go:155-161 | past the last file it calls `OnAllTransfersComplete` and starts nothing; otherwise it starts the writer for the next file and sends "start" |
| Server.RecvDoneStep | server/types.go:115-125 | `recvDone` closes the writer, completes the file and sends "complete", then starts the next file or reports all done; without handlers it panics after closing |
| Server.CloseFirst | server/types.go:115-125 | `recvDone` first stops the file writer; the remaining actions run on the engine with the channel closed and the writer's chunks recorded |
| Server.AfterCloseOf | server/server.go:139-161 | after the close, with handlers, the cursor moves to the next file, "complete" is sent and the next writer starts or all transfers are reported done; without handlers the first handler call panics |
| Server.RecvDoneSummary | server/types.go:115-125 | `recvDone` keeps the file list; with handlers it stays in RECEIVING with the cursor on the next file, the count at zero and a fresh writer (closed after the last file); without handlers it panics |
| Server.RecvDoneCell | server/types.go:115-125 | `recvDone` runs StopFileWriter, IncrementFileIndex, SendFinishedSignal and RecvDoneHandler in that order |
| Server.AfterClose | server/server.go:139-161 | after the writer is closed, the rest of the `recvDone` cell advances the cursor and either starts the next file or reports all done |
| Server.RequestStep | server/server.go:83-87 | a text frame replaces the manifest, enters WAITING_FOR_USER_CONFIRMATION and dispatches the answer; `updateNext` is kept |
| Server.PartialFrame | server/server.go:88-101 | a frame that leaves the file short adds its length to `Received` and queues the chunk. Progress fires when `Received >= updateNext`, and `updateNext` then grows by `Size / ratio` truncated |
| Server.CompletingFrame | server/server.go:88-106 | a frame that reaches `Size` also dispatches `recvDone`, and on success resets `updateNext` to 0 |
| Server.ConnectEstablishesInv | server/server.go:58-69 | after `peerConnect` the transfer is listening and satisfies the invariant: outside RECEIVING there is no writer and nothing received; while receiving, either the writer is open on an in-range file, `Received` counts exactly the queued bytes and no prefix has reached `Size`, or every file is done and the writer is closed |
| Server.TextPreservesInv | server/server.go:83-87 | a text frame that does not panic keeps the invariant |
| Server.OpenFrame | server/server.go:88-106 | with an open writer, a frame either stays within the file or completes it; with handlers the cursor then moves to the next file with a new writer, or past the end with the writer closed; without handlers it panics |
| Server.BinaryPreservesInv | server/server.go:88-106 | a binary frame that does not panic keeps the invariant |
| Server.FramePreservesInv | server/server.go:82-107 | any frame that does not panic keeps the invariant |
| Server.ReceivingNeverBlocks | server/server.go:89-93 | while receiving, a frame never blocks on a missing writer: with a writer it succeeds or panics only for want of handlers; after the last file it panics indexing past the manifest |
| Server.WriterGetsWholeFile | server/server.go:93-104 | when a frame completes a file, the writer has received exactly the bytes counted against the file (the last frame may carry more than the size), in order, drains on that last chunk, and is closed |
| Server.LastChunkDrains | server/server.go:34-43 | a pending writer given a chunk that reaches `Size` drains on it |
| Server.RecvDoneCloses | server/server.go:153-154 | `recvDone` closes the writer first |
| Server.RunPreservesInv | server/server.go:73-108 | every run of frames that does not panic keeps the invariant |
| Server.SessionKeepsInv | server/server.go:47-109 | a whole session that does not panic ends in a state satisfying the invariant |
| Server.DefaultServerAccepts | server/server.go:129-138 | without handlers a manifest is accepted at once: the writer for file 0 starts and "start" is sent |
| Server.DefaultServerPanicsOnCompletion | server/server.go:139-140 | without handlers, the first completed file panics in IncrementFileIndex |
| ServerState.FileOut.constructor | server/state.go:11-14 | a `FileOut` holds the file and buffer it is given |
| ServerState.FileOut.Write | server/state.go:16-19 | `Write` appends `b` after the existing buffer, returns `len(b)` and no error, and leaves the file unchanged |
| ServerState.NewDefaultServer | server/state.go:48-53 | the default server starts with no transfers and the zero configuration |
| ServerState.NewServer | server/state.go:55-60 | a server starts with no transfers and keeps the given configuration |
| ServerState.DefaultIsZeroConfig | server/state.go:48-60 | the default server is the one built from the zero configuration |

## Behaviour worth knowing

- The newer sender's last progress report need not equal `Size`. A report
  fires only when the bytes sent since the last report exceed `Size/16`, so a
  short final read can end the loop without a report (`Sender.FinalProgressCanFallShort`).
- The two senders order the final hooks differently. On the last file, `client.ts`
  calls `onsuccess` before it dispatches `exitFileUpload`. `upload.ts`
  dispatches first (closing and calling `onclose`) and calls `onsuccess` after.
- The Go receiver calls `Handlers` without a nil check in IncrementFileIndex
  and RecvDoneHandler. With a default server (no handlers), the request is
  accepted, but the first completed file panics (`Server.DefaultServerPanicsOnCompletion`).
- The Go receiver checks completion only when a binary frame arrives, so a
  zero-size file is never completed.
- The browser receiver accepts an empty manifest into RECEIVING with no sink;
  any contents then throw (`BrowserReceiver.EmptyAccept`).
- The newer sender never gives up on a file whose source yields fewer bytes
  than its declared size: the upload loop spins (`Sender.SpinsOnShortFile`).

## Left out

- WebSocket transport, the upgrade, `sendJSON`, JSON encoding and decoding, `initHTTP`, `Serve`, `ServeWith`, `Close`: I/O plumbing. Sends are appended to the trace, and a signal is its `Type` string.
- Logging and the `verbose` messages: they affect no state, except that `verbose` selects the progress ratio, which is modelled.
- Promises and `async`: every action runs synchronously. `onRequest`'s promise is the explicit `accept` input, and the `Blob.arrayBuffer()` promise is the byte content itself.
- `WritableStream` is not part of this model beyond an abstract sink with a size and a list of writes. When a sink finishes is an input (`Receiver.OnFinish`). Overflow, fire-once and zero-length completion are not modelled.
- `FileStream` (client/src/stream.ts) is a script of read results, where an absent read sends nothing.
- Sender.Transfer.SendFromStream: when the script supplies fewer than `Size` bytes, the source loop keeps reading forever. The model stops at the end of the script and reports the outcome Spins. The endless reads after it are not modelled, nor how they interleave with later signals.
- Sender.Transfer.SendInMemory: when `data.byteLength < Size`, `slice` past the end returns empty buffers forever. The model stops at the end of the data and reports Spins. The endless empty sends are not in the trace.
- Sender.Act: an in-memory spin blocks the thread, so in the source nothing after it runs. The model still runs the cell's later actions and later events. No cell has an action after UploadFile, so only later events are affected.
- Unawaited rejected promises: a throw inside an `async` action is the outcome of the dispatch that ran it. The later actions of the cell still run, as they do in the source, where the rejected promise is not awaited.
- The goroutine running `outputWriter` and the unbuffered `dataChan` are sequentialised. The channel is the list of chunks queued for the current writer, and `outputWriter` runs over that list once the channel is closed.
- `bufio`'s 50 MB buffering and `Flush` are not modelled beyond the `flushed` flag. `f.ID()` and the `t.Output` map are not modelled: `f.ID()` is not defined in server/types.go, server/server.go or server/state.go, and `Output` is not a field of `Transfer` in server/types.go.
- `Handler`'s read errors and close detection end the frame list. The transfer id store and `s.Transfers` registration are not modelled.
- Server.Handler: does not model `int64` overflow of `Received` or `updateNext`, because integers are unbounded here.
- Go's `OnTransferRequest` channel: the host's answer is `Env.accepts`, one answer per connection. Only one request is shown per connection before a panic or a transfer.
- Server.IncrementStep: models the index check of `t.Data.Files[t.State.CurrentFile]` as happening before the nil-handlers call. Go evaluates the argument before the interface-method call panics, so both panic; only the reported fault differs.
- client/src/upload.ts imports `./state`, which is not part of this model. It is taken to be client/src/client/state.ts.
- `requests` in the browser receiver is optional and is modelled as an `Option`. A `Files` value that is neither an array nor absent is not modelled.
- JavaScript numbers (`Size`, `currentFile`) are integers here. A fractional or negative `Size` is not modelled on the TypeScript side; the Go `int64` `Size` may be negative.
