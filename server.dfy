/** The Go receiver: `eventHandler` and `actionHandler` over the event/state
    matrix, the per-frame byte accounting of `Handler`, and the
    `outputWriter` loop. A Go panic ends the connection's goroutine, so it is
    an outcome that stops everything after it; a send on a nil channel
    blocks forever, which is the `Blocked` outcome. */
module Server {
  import opened Common
  import opened ServerTypes

  /** The optional host hooks and what the host answers when asked about a
      request. At most one request is ever shown per connection (after an
      answer the matrix has no `recvRequests` cell reachable), so one answer
      covers a connection. */
  datatype Env = Env(hasHandlers: bool, verbose: bool, accepts: bool)

  /** What the engine does that someone else sees. */
  datatype Effect =
    | Signal(tag: string)                  // sendJSON(Signal{Type: tag})
    | TransferRequest                      // Handlers.OnTransferRequest
    | TransferUpdate(received: int)        // Handlers.OnTransferUpdate
    | TransferComplete(file: File)         // Handlers.OnTransferComplete
    | AllTransfersComplete                 // Handlers.OnAllTransfersComplete
    | StartWriter(file: File)              // go outputWriter(s, f, t)
    | CloseWriter(chunks: seq<seq<byte>>)  // close(dataChan): the writer has had these chunks

  /** `dataChan`: the zero value, an open channel with the chunks handed to
      its writer so far, or a closed one. */
  datatype Channel = NilChannel | Open(chunks: seq<seq<byte>>) | Closed

  datatype Fault =
    | InvalidState(event: Event, state: StateID)  // panic("Invalid FileTransfer state")
    | IndexOutOfRange(index: int, length: nat)
    | NilHandlers                                  // a method call on a nil interface
    | CloseOfNilChannel
    | CloseOfClosedChannel
    | SendOnClosedChannel

  datatype Outcome = Ok | Panic(fault: Fault) | Blocked

  /** The transfer as the handlers see it. */
  datatype Engine = Engine(files: seq<File>, state: TransferState, channel: Channel, trace: seq<Effect>)

  /** A data frame from the sender: a JSON text frame already decoded into
      its file list (a decoding error leaves the list empty), or a binary
      frame. */
  datatype Frame = Text(files: seq<File>) | Binary(contents: seq<byte>)

  /** How many progress reports a file gets: 24, or 4 when verbose. */
  function UpdateRatio(verbose: bool): (r: nat)
    ensures r == 4 || r == 24
    ensures verbose <==> r == 4
  {
    if verbose then 4 else 24
  }

  function Fresh(): (r: Engine)
    ensures r.state.number == Initial && r.channel.NilChannel? && r.trace == []
  {
    Engine([], TransferState(Initial, 0, 0), NilChannel, [])
  }

  // ---------------------------------------------------------------------
  // eventHandler / actionHandler

  /** `eventHandler`: panic without a cell; otherwise set the new state, then
      run the actions in order. */
  function Dispatch(env: Env, s: Engine, e: Event): (r: (Engine, Outcome))
    ensures s.trace <= r.0.trace
    decreases EventRank(e), 2, 0
  {
    match Lookup(e, s.state.number)
    case None => (s, Panic(InvalidState(e, s.state.number)))
    case Some(cell) =>
      CellRanks(e, s.state.number);
      RunActions(env, s.(state := s.state.(number := cell.newState)), cell.actions, EventRank(e))
  }

  function RunActions(env: Env, s: Engine, actions: seq<Action>, rank: nat): (r: (Engine, Outcome))
    requires forall a :: a in actions ==> ActionRank(a) <= rank
    ensures s.trace <= r.0.trace
    decreases rank, 1, |actions|
  {
    if actions == [] then (s, Ok)
    else
      var (s1, o1) := Act(env, s, actions[0]);
      if !o1.Ok? then (s1, o1) else RunActions(env, s1, actions[1..], rank)
  }

  /** `actionHandler`. */
  function Act(env: Env, s: Engine, a: Action): (r: (Engine, Outcome))
    ensures s.trace <= r.0.trace
    decreases ActionRank(a), 0, 0
  {
    var cf := s.state.currentFile;
    match a
    case DisplayFileRequests =>
      var s1 := if env.hasHandlers then s.(trace := s.trace + [TransferRequest]) else s;
      if !env.hasHandlers || env.accepts then Dispatch(env, s1, UserAccept) else Dispatch(env, s1, UserDeny)
    case IncrementFileIndex =>
      if !(0 <= cf < |s.files|) then (s, Panic(IndexOutOfRange(cf, |s.files|)))
      else if !env.hasHandlers then (s, Panic(NilHandlers))
      else
        (s.(state := s.state.(currentFile := cf + 1, received := 0),
            trace := s.trace + [TransferComplete(s.files[cf])]), Ok)
    case SendClientAllow => (s, Ok)
    case SendStartSignal => (s.(trace := s.trace + [Signal("start")]), Ok)
    case SendExitSignal => (s.(trace := s.trace + [Signal("exit")]), Ok)
    case SendFinishedSignal => (s.(trace := s.trace + [Signal("complete")]), Ok)
    case StartFileWriter =>
      var s1 := s.(channel := Open([]));
      if !(0 <= cf < |s.files|) then (s1, Panic(IndexOutOfRange(cf, |s.files|)))
      else (s1.(trace := s.trace + [StartWriter(s.files[cf])]), Ok)
    case StopFileWriter =>
      (match s.channel
       case NilChannel => (s, Panic(CloseOfNilChannel))
       case Closed => (s, Panic(CloseOfClosedChannel))
       case Open(chunks) => (s.(channel := Closed, trace := s.trace + [CloseWriter(chunks)]), Ok))
    case RecvDoneHandler =>
      if cf >= |s.files| then
        if env.hasHandlers then (s.(trace := s.trace + [AllTransfersComplete]), Ok)
        else (s, Panic(NilHandlers))
      else
        var (s1, o1) := Act(env, s, StartFileWriter);
        if !o1.Ok? then (s1, o1) else Act(env, s1, SendStartSignal)
  }

  // ---------------------------------------------------------------------
  // The read loop of Handler

  /** One frame of the read loop, with the loop's local `updateNext`. */
  function HandleFrame(env: Env, s: Engine, updateNext: int, f: Frame): (r: (Engine, int, Outcome))
    ensures s.trace <= r.0.trace
  {
    match f
    case Text(files) =>
      var (s1, o) := Dispatch(env, s.(files := files), RecvRequests);
      (s1, updateNext, o)
    case Binary(contents) =>
      var cf := s.state.currentFile;
      if !(0 <= cf < |s.files|) then (s, updateNext, Panic(IndexOutOfRange(cf, |s.files|)))
      else
        var file := s.files[cf];
        var offset := TruncDiv(file.size, UpdateRatio(env.verbose));
        match s.channel
        case NilChannel => (s, updateNext, Blocked)
        case Closed => (s, updateNext, Panic(SendOnClosedChannel))
        case Open(chunks) =>
          var received := s.state.received + |contents|;
          var s1 := s.(channel := Open(chunks + [contents]), state := s.state.(received := received));
          var (s2, next) := Report(env, s1, updateNext, offset);
          if received >= file.size then
            var (s3, o) := Dispatch(env, s2, RecvDone);
            (s3, if o.Ok? then 0 else next, o)
          else (s2, next, Ok)
  }

  /** The progress check of a binary frame: once `Received` reaches
      `updateNext` the hook is told (if there is one) and the mark moves on
      by `offset`. */
  function Report(env: Env, s: Engine, updateNext: int, offset: int): (r: (Engine, int))
    ensures s.state.received < updateNext ==> r == (s, updateNext)
    ensures s.state.received >= updateNext ==> r.1 == updateNext + offset
    ensures r.0 == s || (env.hasHandlers && r.0 == s.(trace := s.trace + [TransferUpdate(s.state.received)]))
  {
    if s.state.received >= updateNext then
      (if env.hasHandlers then s.(trace := s.trace + [TransferUpdate(s.state.received)]) else s, updateNext + offset)
    else (s, updateNext)
  }

  /** The frames of one connection, up to the first panic or block. */
  function Run(env: Env, s: Engine, updateNext: int, frames: seq<Frame>): (r: (Engine, int, Outcome))
    ensures frames == [] ==> r == (s, updateNext, Ok)
    ensures s.trace <= r.0.trace
    decreases |frames|
  {
    if frames == [] then (s, updateNext, Ok)
    else
      var (s1, n1, o1) := HandleFrame(env, s, updateNext, frames[0]);
      if !o1.Ok? then (s1, n1, o1) else Run(env, s1, n1, frames[1..])
  }

  /** `Handler`: a new transfer, `peerConnect`, then the read loop. */
  function Session(env: Env, frames: seq<Frame>): (r: (Engine, Outcome))
    ensures frames == [] ==> r == (Fresh().(state := TransferState(ListeningForFileRequests, 0, 0)), Ok)
  {
    var (s0, _) := Dispatch(env, Fresh(), PeerConnect);
    var (s, _, o) := Run(env, s0, 0, frames);
    (s, o)
  }

  // ---------------------------------------------------------------------
  // The transfer object

  class Transfer {
    var files: seq<File>
    var state: TransferState
    var channel: Channel
    var trace: seq<Effect>

    function Snapshot(): Engine
      reads this
    {
      Engine(files, state, channel, trace)
    }

    constructor ()
      ensures Snapshot() == Fresh()
    {
      files := [];
      state := TransferState(Initial, 0, 0);
      channel := NilChannel;
      trace := [];
    }

    method EventHandler(env: Env, e: Event) returns (o: Outcome)
      modifies this
      ensures (Snapshot(), o) == Dispatch(env, old(Snapshot()), e)
      decreases EventRank(e), 2, 0
    {
      var cell := Lookup(e, state.number);
      if cell.None? {
        return Panic(InvalidState(e, state.number));
      }
      CellRanks(e, state.number);
      var actions := cell.value.actions;
      state := state.(number := cell.value.newState);
      ghost var start := Snapshot();
      for i := 0 to |actions|
        invariant RunActions(env, start, actions, EventRank(e)) == RunActions(env, Snapshot(), actions[i..], EventRank(e))
      {
        assert actions[i..][1..] == actions[i + 1..];
        var o1 := ActionHandler(env, actions[i]);
        if !o1.Ok? {
          return o1;
        }
      }
      o := Ok;
    }

    method ActionHandler(env: Env, a: Action) returns (o: Outcome)
      modifies this
      ensures (Snapshot(), o) == Act(env, old(Snapshot()), a)
      decreases ActionRank(a), 0, 0
    {
      var cf := state.currentFile;
      match a
      case DisplayFileRequests =>
        var accept := true;
        if env.hasHandlers {
          trace := trace + [TransferRequest];
          accept := env.accepts;
        }
        if accept {
          o := EventHandler(env, UserAccept);
          return;
        }
        o := EventHandler(env, UserDeny);
      case IncrementFileIndex =>
        if !(0 <= cf < |files|) {
          return Panic(IndexOutOfRange(cf, |files|));
        }
        if !env.hasHandlers {
          return Panic(NilHandlers);
        }
        trace := trace + [TransferComplete(files[cf])];
        state := state.(currentFile := cf + 1);
        state := state.(received := 0);
        o := Ok;
      case SendClientAllow =>
        o := Ok;
      case SendStartSignal =>
        trace := trace + [Signal("start")];
        o := Ok;
      case SendExitSignal =>
        trace := trace + [Signal("exit")];
        o := Ok;
      case SendFinishedSignal =>
        trace := trace + [Signal("complete")];
        o := Ok;
      case StartFileWriter =>
        channel := Open([]);
        if !(0 <= cf < |files|) {
          return Panic(IndexOutOfRange(cf, |files|));
        }
        trace := trace + [StartWriter(files[cf])];
        o := Ok;
      case StopFileWriter =>
        match channel {
          case NilChannel =>
            o := Panic(CloseOfNilChannel);
          case Closed =>
            o := Panic(CloseOfClosedChannel);
          case Open(chunks) =>
            trace := trace + [CloseWriter(chunks)];
            channel := Closed;
            o := Ok;
        }
      case RecvDoneHandler =>
        if cf >= |files| {
          if !env.hasHandlers {
            return Panic(NilHandlers);
          }
          trace := trace + [AllTransfersComplete];
          return Ok;
        }
        o := ActionHandler(env, StartFileWriter);
        if !o.Ok? {
          return;
        }
        o := ActionHandler(env, SendStartSignal);
    }

    /** The body of the read loop for one frame. */
    method OnFrame(env: Env, updateNext: int, f: Frame) returns (next: int, o: Outcome)
      modifies this
      ensures (Snapshot(), next, o) == HandleFrame(env, old(Snapshot()), updateNext, f)
    {
      next := updateNext;
      match f
      case Text(fs) =>
        files := fs;
        o := EventHandler(env, RecvRequests);
      case Binary(contents) =>
        var cf := state.currentFile;
        if !(0 <= cf < |files|) {
          return next, Panic(IndexOutOfRange(cf, |files|));
        }
        var file := files[cf];
        var offset := TruncDiv(file.size, UpdateRatio(env.verbose));
        match channel
        case NilChannel =>
          o := Blocked;
        case Closed =>
          o := Panic(SendOnClosedChannel);
        case Open(chunks) =>
          channel := Open(chunks + [contents]);
          state := state.(received := state.received + |contents|);
          if state.received >= next {
            if env.hasHandlers {
              trace := trace + [TransferUpdate(state.received)];
            }
            next := next + offset;
          }
          o := Ok;
          if state.received >= file.size {
            o := EventHandler(env, RecvDone);
            if o.Ok? {
              next := 0;
            }
          }
    }
  }

  /** `Handler`: create the transfer, connect, and read frames until the
      connection closes or the goroutine panics or blocks. */
  method Handler(env: Env, frames: seq<Frame>) returns (t: Transfer, o: Outcome)
    ensures fresh(t)
    ensures (t.Snapshot(), o) == Session(env, frames)
  {
    t := new Transfer();
    var _ := t.EventHandler(env, PeerConnect);
    ghost var s0 := t.Snapshot();
    var updateNext := 0;
    o := Ok;
    var i := 0;
    while i < |frames|
      invariant 0 <= i <= |frames|
      invariant o == Ok
      invariant Run(env, s0, 0, frames) == Run(env, t.Snapshot(), updateNext, frames[i..])
    {
      assert frames[i..][1..] == frames[i + 1..];
      ghost var (before, n0) := (t.Snapshot(), updateNext);
      updateNext, o := t.OnFrame(env, updateNext, frames[i]);
      if !o.Ok? {
        assert Run(env, before, n0, frames[i..]) == (t.Snapshot(), updateNext, o);
        return;
      }
      i := i + 1;
    }
    assert frames[i..] == [];
  }

  // ---------------------------------------------------------------------
  // outputWriter

  /** Whether a writer that has had `chunks` has not yet met `size` after any
      of them (the writer checks only after a chunk). */
  predicate Pending(size: int, chunks: seq<seq<byte>>)
  {
    forall k :: 1 <= k <= |chunks| ==> TotalLength(chunks[..k]) < size
  }

  /** `outputWriter`: write the chunks in order, counting bytes; stop and
      flush as soon as the count reaches the file's size. The channel is
      the sequence of chunks sent before it was closed. */
  method OutputWriter(size: int, chunks: seq<seq<byte>>) returns (written: seq<byte>, consumed: nat, flushed: bool)
    ensures consumed <= |chunks|
    ensures written == Concat(chunks[..consumed])
    ensures flushed ==> 0 < consumed && Pending(size, chunks[..consumed - 1]) && TotalLength(chunks[..consumed]) >= size
    ensures !flushed ==> consumed == |chunks| && Pending(size, chunks)
    ensures Drains(size, chunks) ==> flushed && consumed == |chunks| && written == Concat(chunks)
  {
    written := [];
    consumed := 0;
    var writtenBytes := 0;
    flushed := false;
    while consumed < |chunks|
      invariant consumed <= |chunks|
      invariant written == Concat(chunks[..consumed]) && writtenBytes == |written|
      invariant Pending(size, chunks[..consumed])
      decreases |chunks| - consumed
    {
      var data := chunks[consumed];
      assert chunks[..consumed + 1] == chunks[..consumed] + [data];
      ConcatAppend(chunks[..consumed], data);
      ConcatLength(chunks[..consumed + 1]);
      assert chunks[..consumed + 1][..consumed] == chunks[..consumed];
      PendingPrefix(size, chunks[..consumed + 1]);
      written := written + data;
      writtenBytes := writtenBytes + |data|;
      consumed := consumed + 1;
      if writtenBytes >= size {
        flushed := true;
        if consumed < |chunks| {
          assert chunks[..|chunks| - 1][..consumed] == chunks[..consumed];
        } else {
          assert chunks[..consumed] == chunks;
        }
        return;
      }
    }
    assert chunks[..consumed] == chunks;
  }

  lemma PendingPrefix(size: int, chunks: seq<seq<byte>>)
    requires chunks != []
    ensures Pending(size, chunks[..|chunks| - 1]) && TotalLength(chunks) < size ==> Pending(size, chunks)
  {
    var init := chunks[..|chunks| - 1];
    if Pending(size, init) && TotalLength(chunks) < size {
      forall k | 1 <= k <= |chunks|
        ensures TotalLength(chunks[..k]) < size
      {
        if k < |chunks| {
          assert chunks[..k] == init[..k];
        } else {
          assert chunks[..k] == chunks;
        }
      }
    }
  }

  /** Whether the writer, given `chunks`, takes every one of them and then
      flushes: only the last chunk brings the count to the size. */
  predicate Drains(size: int, chunks: seq<seq<byte>>)
  {
    chunks != [] && Pending(size, chunks[..|chunks| - 1]) && TotalLength(chunks) >= size
  }

  // ---------------------------------------------------------------------
  // The matrix at work

  /** Running actions whose first succeeds is running the rest after it. */
  lemma RunStep(env: Env, s: Engine, a: Action, rest: seq<Action>, rank: nat)
    requires ActionRank(a) <= rank && forall b :: b in rest ==> ActionRank(b) <= rank
    requires Act(env, s, a).1 == Ok
    ensures RunActions(env, s, [a] + rest, rank) == RunActions(env, Act(env, s, a).0, rest, rank)
  {
    assert ([a] + rest)[0] == a && ([a] + rest)[1..] == rest;
  }

  lemma OneAction(env: Env, s: Engine, a: Action, rank: nat)
    requires ActionRank(a) <= rank
    ensures RunActions(env, s, [a], rank) == Act(env, s, a)
  {
    assert [a][0] == a && [a][1..] == [];
  }

  /** `eventHandler` panics on a missing cell and changes nothing. */
  lemma NoCellPanics(env: Env, s: Engine, e: Event)
    requires s.state.number != ExpectedState(e)
    ensures Dispatch(env, s, e) == (s, Panic(InvalidState(e, s.state.number)))
  {
    OneStatePerEvent(e, s.state.number);
  }

  /** `peerConnect` in INITIAL: listening, nothing else. */
  lemma ConnectStep(env: Env, s: Engine)
    requires s.state.number == Initial
    ensures Dispatch(env, s, PeerConnect) == (s.(state := s.state.(number := ListeningForFileRequests)), Ok)
  {
  }

  /** DisplayFileRequests asks the host if there is one and accepts when
      there is none; it dispatches exactly one of `userAccept`, `userDeny`. */
  lemma DisplayStep(env: Env, s: Engine)
    ensures !env.hasHandlers ==> Act(env, s, DisplayFileRequests) == Dispatch(env, s, UserAccept)
    ensures env.hasHandlers ==>
      Act(env, s, DisplayFileRequests)
      == Dispatch(env, s.(trace := s.trace + [TransferRequest]), if env.accepts then UserAccept else UserDeny)
  {
  }

  /** `userAccept`: RECEIVING is set first, then a fresh writer channel is
      installed for the current file and "start" is sent; with no file at
      the cursor the lookup panics after the channel is replaced. */
  lemma AcceptStep(env: Env, s: Engine)
    requires s.state.number == WaitingForUserConfirmation
    ensures var cf := s.state.currentFile;
      0 <= cf < |s.files| ==>
      Dispatch(env, s, UserAccept)
      == (s.(state := s.state.(number := Receiving), channel := Open([]),
             trace := s.trace + [StartWriter(s.files[cf]), Signal("start")]), Ok)
    ensures var cf := s.state.currentFile;
      !(0 <= cf < |s.files|) ==>
      Dispatch(env, s, UserAccept)
      == (s.(state := s.state.(number := Receiving), channel := Open([])), Panic(IndexOutOfRange(cf, |s.files|)))
  {
    var s1 := s.(state := s.state.(number := Receiving));
    assert Dispatch(env, s, UserAccept) == RunActions(env, s1, [StartFileWriter] + [SendStartSignal], 0);
    var (s2, o2) := Act(env, s1, StartFileWriter);
    if o2.Ok? {
      RunStep(env, s1, StartFileWriter, [SendStartSignal], 0);
      OneAction(env, s2, SendStartSignal, 0);
      assert s.trace + [StartWriter(s.files[s.state.currentFile])] + [Signal("start")]
          == s.trace + [StartWriter(s.files[s.state.currentFile]), Signal("start")];
    }
  }

  /** `userDeny`: INITIAL and "exit"; no writer is started. */
  lemma DenyStep(env: Env, s: Engine)
    requires s.state.number == WaitingForUserConfirmation
    ensures Dispatch(env, s, UserDeny)
            == (s.(state := s.state.(number := Initial), trace := s.trace + [Signal("exit")]), Ok)
  {
    OneAction(env, s.(state := s.state.(number := Initial)), SendExitSignal, 0);
  }

  /** IncrementFileIndex: the host hears about the finished file, the cursor
      moves on by one and the byte count restarts. The hook is called
      without a nil check, so without hooks it panics. */
  lemma IncrementStep(env: Env, s: Engine)
    ensures var cf := s.state.currentFile;
      0 <= cf < |s.files| && env.hasHandlers ==>
      Act(env, s, IncrementFileIndex)
      == (s.(state := s.state.(currentFile := cf + 1, received := 0),
             trace := s.trace + [TransferComplete(s.files[cf])]), Ok)
    ensures 0 <= s.state.currentFile < |s.files| && !env.hasHandlers ==>
      Act(env, s, IncrementFileIndex) == (s, Panic(NilHandlers))
  {
  }

  /** RecvDoneHandler: past the last file the host hears that all are done
      and nothing starts; otherwise the next file's writer starts and
      "start" is sent. */
  lemma RecvDoneHandlerStep(env: Env, s: Engine)
    requires s.state.currentFile >= 0
    ensures s.state.currentFile >= |s.files| && env.hasHandlers ==>
      Act(env, s, RecvDoneHandler) == (s.(trace := s.trace + [AllTransfersComplete]), Ok)
    ensures s.state.currentFile >= |s.files| && !env.hasHandlers ==>
      Act(env, s, RecvDoneHandler) == (s, Panic(NilHandlers))
    ensures s.state.currentFile < |s.files| ==>
      Act(env, s, RecvDoneHandler)
      == (s.(channel := Open([]), trace := s.trace + [StartWriter(s.files[s.state.currentFile]), Signal("start")]), Ok)
  {
    if s.state.currentFile < |s.files| {
      assert s.trace + [StartWriter(s.files[s.state.currentFile])] + [Signal("start")]
          == s.trace + [StartWriter(s.files[s.state.currentFile]), Signal("start")];
    }
  }

  /** `recvDone` in RECEIVING: the writer's channel is closed, the host
      hears of the finished file, the cursor moves on, "complete" is sent,
      and then either the next file's writer starts with "start" or the
      host hears that all files are done. Without hooks, the call to
      `OnTransferComplete` panics right after the channel is closed. */
  lemma RecvDoneStep(env: Env, s: Engine)
    requires s.state.number == Receiving && s.channel.Open?
    requires 0 <= s.state.currentFile < |s.files|
    ensures var cf := s.state.currentFile;
      var done := s.trace + [CloseWriter(s.channel.chunks), TransferComplete(s.files[cf]), Signal("complete")];
      var s4 := s.(state := s.state.(currentFile := cf + 1, received := 0));
      env.hasHandlers ==>
      Dispatch(env, s, RecvDone)
      == if cf + 1 < |s.files|
         then (s4.(channel := Open([]), trace := done + [StartWriter(s.files[cf + 1]), Signal("start")]), Ok)
         else (s4.(channel := Closed, trace := done + [AllTransfersComplete]), Ok)
    ensures !env.hasHandlers ==>
      Dispatch(env, s, RecvDone)
      == (s.(channel := Closed, trace := s.trace + [CloseWriter(s.channel.chunks)]), Panic(NilHandlers))
  {
    CloseFirst(env, s);
    AfterCloseOf(env, s);
  }

  /** The actions of `recvDone` after the close, stated against the engine
      before it. */
  lemma AfterCloseOf(env: Env, s: Engine)
    requires s.channel.Open? && 0 <= s.state.currentFile < |s.files|
    ensures var cf := s.state.currentFile;
      var s1 := s.(channel := Closed, trace := s.trace + [CloseWriter(s.channel.chunks)]);
      var r := RunActions(env, s1, [IncrementFileIndex, SendFinishedSignal, RecvDoneHandler], 1);
      var done := s.trace + [CloseWriter(s.channel.chunks), TransferComplete(s.files[cf]), Signal("complete")];
      var s4 := s.(state := s.state.(currentFile := cf + 1, received := 0));
      && (env.hasHandlers ==>
            r == if cf + 1 < |s.files|
                 then (s4.(channel := Open([]), trace := done + [StartWriter(s.files[cf + 1]), Signal("start")]), Ok)
                 else (s4.(channel := Closed, trace := done + [AllTransfersComplete]), Ok))
      && (!env.hasHandlers ==> r == (s1, Panic(NilHandlers)))
  {
    var s1 := s.(channel := Closed, trace := s.trace + [CloseWriter(s.channel.chunks)]);
    if env.hasHandlers {
      var cf := s.state.currentFile;
      assert s1.trace + [TransferComplete(s.files[cf]), Signal("complete")]
          == s.trace + [CloseWriter(s.channel.chunks), TransferComplete(s.files[cf]), Signal("complete")];
      AfterClose(env, s1);
    } else {
      assert [IncrementFileIndex, SendFinishedSignal, RecvDoneHandler]
          == [IncrementFileIndex] + [SendFinishedSignal, RecvDoneHandler];
    }
  }

  /** `recvDone` first closes the writer; the rest of its actions run on
      the engine with the channel closed. */
  lemma CloseFirst(env: Env, s: Engine)
    requires s.state.number == Receiving && s.channel.Open?
    ensures Dispatch(env, s, RecvDone)
            == RunActions(env, s.(channel := Closed, trace := s.trace + [CloseWriter(s.channel.chunks)]),
                          [IncrementFileIndex, SendFinishedSignal, RecvDoneHandler], 1)
  {
    RecvDoneCell(env, s);
    RunStep(env, s, StopFileWriter, [IncrementFileIndex, SendFinishedSignal, RecvDoneHandler], 1);
  }

  /** Where `recvDone` leaves the cursor, the count and the writer: with
      handlers, on the next file with a fresh writer, or past the last one
      with the writer closed; without handlers it panics. */
  lemma RecvDoneSummary(env: Env, s: Engine)
    requires s.state.number == Receiving && s.channel.Open?
    requires 0 <= s.state.currentFile < |s.files|
    ensures var d := Dispatch(env, s, RecvDone);
      var cf := s.state.currentFile;
      && d.0.files == s.files
      && (env.hasHandlers ==>
            d.1 == Ok && d.0.state == TransferState(Receiving, cf + 1, 0)
            && d.0.channel == if cf + 1 < |s.files| then Open([]) else Closed)
      && (!env.hasHandlers ==> d.1 == Panic(NilHandlers))
  {
    RecvDoneStep(env, s);
  }

  lemma RecvDoneCell(env: Env, s: Engine)
    requires s.state.number == Receiving
    ensures Dispatch(env, s, RecvDone)
            == RunActions(env, s, [StopFileWriter] + [IncrementFileIndex, SendFinishedSignal, RecvDoneHandler], 1)
  {
    assert s.(state := s.state.(number := Receiving)) == s;
    assert [StopFileWriter] + [IncrementFileIndex, SendFinishedSignal, RecvDoneHandler]
        == [StopFileWriter, IncrementFileIndex, SendFinishedSignal, RecvDoneHandler];
  }

  /** The actions of `recvDone` after the channel is closed, with hooks. */
  lemma AfterClose(env: Env, s1: Engine)
    requires env.hasHandlers && 0 <= s1.state.currentFile < |s1.files|
    ensures var cf := s1.state.currentFile;
      var done := s1.trace + [TransferComplete(s1.files[cf]), Signal("complete")];
      var s4 := s1.(state := s1.state.(currentFile := cf + 1, received := 0));
      RunActions(env, s1, [IncrementFileIndex, SendFinishedSignal, RecvDoneHandler], 1)
      == if cf + 1 < |s1.files|
         then (s4.(channel := Open([]), trace := done + [StartWriter(s1.files[cf + 1]), Signal("start")]), Ok)
         else (s4.(trace := done + [AllTransfersComplete]), Ok)
  {
    var cf := s1.state.currentFile;
    var s2 := s1.(state := s1.state.(currentFile := cf + 1, received := 0),
                  trace := s1.trace + [TransferComplete(s1.files[cf])]);
    assert [IncrementFileIndex, SendFinishedSignal, RecvDoneHandler]
        == [IncrementFileIndex] + [SendFinishedSignal, RecvDoneHandler];
    RunStep(env, s1, IncrementFileIndex, [SendFinishedSignal, RecvDoneHandler], 1);
    var s3 := s2.(trace := s2.trace + [Signal("complete")]);
    assert [SendFinishedSignal, RecvDoneHandler] == [SendFinishedSignal] + [RecvDoneHandler];
    RunStep(env, s2, SendFinishedSignal, [RecvDoneHandler], 1);
    OneAction(env, s3, RecvDoneHandler, 1);
    RecvDoneHandlerStep(env, s3);
    var done := s1.trace + [TransferComplete(s1.files[cf]), Signal("complete")];
    assert s3.trace == done;
  }

  /** A text frame while listening: the file list replaces the stored one,
      the host is asked (if there is one), and the answer is dispatched. */
  lemma RequestStep(env: Env, s: Engine, updateNext: int, files: seq<File>)
    requires s.state.number == ListeningForFileRequests
    ensures var s1 := s.(files := files, state := s.state.(number := WaitingForUserConfirmation),
                         trace := s.trace + if env.hasHandlers then [TransferRequest] else []);
      var answer := if !env.hasHandlers || env.accepts then UserAccept else UserDeny;
      HandleFrame(env, s, updateNext, Text(files))
      == (Dispatch(env, s1, answer).0, updateNext, Dispatch(env, s1, answer).1)
  {
    var s0 := s.(files := files, state := s.state.(number := WaitingForUserConfirmation));
    OneAction(env, s0, DisplayFileRequests, 2);
    DisplayStep(env, s0);
    if !env.hasHandlers {
      assert s0.trace + [] == s0.trace;
    }
  }

  /** The transfer after a data frame has been queued on the open writer
      and counted in `Received`, and the progress check has run: the hook
      is told once `Received` reaches `updateNext`. */
  function Queued(env: Env, s: Engine, updateNext: int, contents: seq<byte>): Engine
    requires s.channel.Open?
  {
    var received := s.state.received + |contents|;
    s.(channel := Open(s.channel.chunks + [contents]), state := s.state.(received := received),
       trace := s.trace + if received >= updateNext && env.hasHandlers then [TransferUpdate(received)] else [])
  }

  /** Where `updateNext` moves after a data frame: on by `Size / updateRatio`
      (Go's truncating division) when progress was reported. */
  function NextUpdate(env: Env, s: Engine, updateNext: int, contents: seq<byte>): int
    requires 0 <= s.state.currentFile < |s.files|
  {
    if s.state.received + |contents| >= updateNext
    then updateNext + TruncDiv(s.files[s.state.currentFile].size, UpdateRatio(env.verbose))
    else updateNext
  }

  /** A binary frame that does not finish the file: the chunk goes to the
      writer, `Received` grows by its length, and progress is reported
      once `Received` reaches `updateNext`, which then moves on by
      `Size / updateRatio`. */
  lemma PartialFrame(env: Env, s: Engine, updateNext: int, contents: seq<byte>)
    requires s.channel.Open? && 0 <= s.state.currentFile < |s.files|
    requires s.state.received + |contents| < s.files[s.state.currentFile].size
    ensures HandleFrame(env, s, updateNext, Binary(contents))
            == (Queued(env, s, updateNext, contents), NextUpdate(env, s, updateNext, contents), Ok)
  {
    assert s.trace + [] == s.trace;
  }

  /** A binary frame that brings `Received` to the file's size: after the
      progress check, `recvDone` is dispatched, and `updateNext` restarts
      at 0 when that succeeds. */
  lemma CompletingFrame(env: Env, s: Engine, updateNext: int, contents: seq<byte>)
    requires s.channel.Open? && 0 <= s.state.currentFile < |s.files|
    requires s.state.received + |contents| >= s.files[s.state.currentFile].size
    ensures var d := Dispatch(env, Queued(env, s, updateNext, contents), RecvDone);
      HandleFrame(env, s, updateNext, Binary(contents))
      == (d.0, if d.1.Ok? then 0 else NextUpdate(env, s, updateNext, contents), d.1)
  {
    var file := s.files[s.state.currentFile];
    var s1 := s.(channel := Open(s.channel.chunks + [contents]),
                 state := s.state.(received := s.state.received + |contents|));
    var rep := Report(env, s1, updateNext, TruncDiv(file.size, UpdateRatio(env.verbose)));
    assert rep == (Queued(env, s, updateNext, contents), NextUpdate(env, s, updateNext, contents)) by {
      assert s.trace + [] == s.trace;
    }
  }

  // ---------------------------------------------------------------------
  // A connection between frames

  /** What holds between frames of a connection that has not panicked:
      while receiving, either a writer is open for a file of the list, has
      had exactly the bytes counted in `Received`, and has not yet reached
      the file's size after any chunk; or every file is done and the last
      channel is closed. Outside RECEIVING no writer exists yet. */
  predicate Inv(s: Engine)
  {
    var cf := s.state.currentFile;
    if s.state.number == Receiving then
      (s.channel.Open? && 0 <= cf < |s.files|
       && s.state.received == TotalLength(s.channel.chunks)
       && Pending(s.files[cf].size, s.channel.chunks))
      || (s.channel.Closed? && cf == |s.files|)
    else
      s.channel.NilChannel? && cf == 0 && s.state.received == 0
  }

  /** `Handler` starts listening, with no writer. */
  lemma ConnectEstablishesInv(env: Env)
    ensures Dispatch(env, Fresh(), PeerConnect)
            == (Fresh().(state := Fresh().state.(number := ListeningForFileRequests)), Ok)
    ensures Inv(Dispatch(env, Fresh(), PeerConnect).0)
  {
    ConnectStep(env, Fresh());
  }

  lemma {:induction false} TextPreservesInv(env: Env, s: Engine, updateNext: int, files: seq<File>)
    requires Inv(s)
    ensures var (s1, _, o) := HandleFrame(env, s, updateNext, Text(files));
      o.Ok? ==> Inv(s1)
  {
    if s.state.number == ListeningForFileRequests {
      RequestStep(env, s, updateNext, files);
      var s1 := s.(files := files, state := s.state.(number := WaitingForUserConfirmation),
                   trace := s.trace + if env.hasHandlers then [TransferRequest] else []);
      AcceptStep(env, s1);
      DenyStep(env, s1);
    } else {
      NoCellPanics(env, s.(files := files), RecvRequests);
    }
  }

  /** A data frame while a writer is open for a file of the list: where
      the cursor, the count and the channel end up, and whether it panics. */
  lemma OpenFrame(env: Env, s: Engine, updateNext: int, contents: seq<byte>)
    requires s.state.number == Receiving && s.channel.Open? && 0 <= s.state.currentFile < |s.files|
    ensures var r := HandleFrame(env, s, updateNext, Binary(contents));
      var cf := s.state.currentFile;
      var received := s.state.received + |contents|;
      && r.0.files == s.files
      && (received < s.files[cf].size ==>
            r.2 == Ok && r.0.state == s.state.(received := received)
            && r.0.channel == Open(s.channel.chunks + [contents]))
      && (received >= s.files[cf].size && env.hasHandlers ==>
            r.2 == Ok && r.0.state == TransferState(Receiving, cf + 1, 0)
            && r.0.channel == if cf + 1 < |s.files| then Open([]) else Closed)
      && (received >= s.files[cf].size && !env.hasHandlers ==> r.2 == Panic(NilHandlers))
  {
    var received := s.state.received + |contents|;
    if received < s.files[s.state.currentFile].size {
      PartialFrame(env, s, updateNext, contents);
    } else {
      CompletingFrame(env, s, updateNext, contents);
      RecvDoneSummary(env, Queued(env, s, updateNext, contents));
    }
  }

  lemma BinaryPreservesInv(env: Env, s: Engine, updateNext: int, contents: seq<byte>)
    requires Inv(s)
    ensures var (s1, _, o) := HandleFrame(env, s, updateNext, Binary(contents));
      o.Ok? ==> Inv(s1)
  {
    var cf := s.state.currentFile;
    if s.state.number == Receiving && s.channel.Open? {
      var chunks := s.channel.chunks;
      ConcatAppend(chunks, contents);
      assert (chunks + [contents])[..|chunks + [contents]| - 1] == chunks;
      PendingPrefix(s.files[cf].size, chunks + [contents]);
      OpenFrame(env, s, updateNext, contents);
    }
  }

  /** Every frame that does not end the connection keeps `Inv`. */
  lemma FramePreservesInv(env: Env, s: Engine, updateNext: int, f: Frame)
    requires Inv(s)
    ensures var (s1, _, o) := HandleFrame(env, s, updateNext, f);
      o.Ok? ==> Inv(s1)
  {
    match f
    case Text(files) => TextPreservesInv(env, s, updateNext, files);
    case Binary(contents) => BinaryPreservesInv(env, s, updateNext, contents);
  }

  /** While receiving, a data frame never blocks and never hits a closed
      channel: the writer is always open and short of its size when a chunk
      arrives, and after the last file the cursor lookup panics first. */
  lemma ReceivingNeverBlocks(env: Env, s: Engine, updateNext: int, contents: seq<byte>)
    requires Inv(s) && s.state.number == Receiving
    ensures var o := HandleFrame(env, s, updateNext, Binary(contents)).2;
      && (s.channel.Closed? ==> o == Panic(IndexOutOfRange(|s.files|, |s.files|)))
      && (s.channel.Open? && env.hasHandlers ==> o == Ok)
      && (s.channel.Open? ==> o == Ok || o == Panic(NilHandlers))
  {
    if s.channel.Open? {
      OpenFrame(env, s, updateNext, contents);
    }
  }

  /** The frame that finishes a file closes the writer's channel after
      handing it exactly the chunks whose bytes were counted, the last of
      them reaching the size: so `outputWriter` takes them all and flushes
      (see its contract), and what it wrote is `Received` bytes long. */
  lemma WriterGetsWholeFile(env: Env, s: Engine, updateNext: int, contents: seq<byte>)
    requires Inv(s) && s.state.number == Receiving && s.channel.Open?
    requires s.state.received + |contents| >= s.files[s.state.currentFile].size
    ensures var chunks := s.channel.chunks + [contents];
      var r := HandleFrame(env, s, updateNext, Binary(contents));
      && Drains(s.files[s.state.currentFile].size, chunks)
      && TotalLength(chunks) == s.state.received + |contents|
      && CloseWriter(chunks) in r.0.trace[|s.trace|..]
  {
    var chunks := s.channel.chunks;
    var received := s.state.received + |contents|;
    LastChunkDrains(s.files[s.state.currentFile].size, chunks, contents);
    CompletingFrame(env, s, updateNext, contents);
    var rep: seq<Effect> := if received >= updateNext && env.hasHandlers then [TransferUpdate(received)] else [];
    var s1 := Queued(env, s, updateNext, contents);
    assert s1.trace == s.trace + rep;
    RecvDoneCloses(env, s1);
    var t := Dispatch(env, s1, RecvDone).0.trace;
    assert t[|s.trace|..][|rep|] == t[|s1.trace|];
  }

  lemma LastChunkDrains(size: int, chunks: seq<seq<byte>>, last: seq<byte>)
    requires Pending(size, chunks) && TotalLength(chunks) + |last| >= size
    ensures Drains(size, chunks + [last]) && TotalLength(chunks + [last]) == TotalLength(chunks) + |last|
  {
    ConcatAppend(chunks, last);
    assert (chunks + [last])[..|chunks + [last]| - 1] == chunks;
  }

  /** The first thing `recvDone` does is close the writer's channel. */
  lemma RecvDoneCloses(env: Env, s: Engine)
    requires s.state.number == Receiving && s.channel.Open?
    requires 0 <= s.state.currentFile < |s.files|
    ensures var t := Dispatch(env, s, RecvDone).0.trace;
      |t| > |s.trace| && t[|s.trace|] == CloseWriter(s.channel.chunks)
  {
    RecvDoneStep(env, s);
  }

  // ---------------------------------------------------------------------
  // Whole connections

  lemma {:induction false} RunPreservesInv(env: Env, s: Engine, updateNext: int, frames: seq<Frame>)
    requires Inv(s)
    ensures var (s1, _, o) := Run(env, s, updateNext, frames);
      o.Ok? ==> Inv(s1)
    decreases |frames|
  {
    if frames != [] {
      FramePreservesInv(env, s, updateNext, frames[0]);
      var (s1, n1, o1) := HandleFrame(env, s, updateNext, frames[0]);
      if o1.Ok? {
        RunPreservesInv(env, s1, n1, frames[1..]);
      }
    }
  }

  /** Every connection that is still alive satisfies `Inv`; in particular a
      receiving connection's next data frame neither blocks nor meets a
      closed channel (`ReceivingNeverBlocks`). */
  lemma SessionKeepsInv(env: Env, frames: seq<Frame>)
    ensures Session(env, frames).1.Ok? ==> Inv(Session(env, frames).0)
  {
    ConnectEstablishesInv(env);
    var (s0, _) := Dispatch(env, Fresh(), PeerConnect);
    RunPreservesInv(env, s0, 0, frames);
  }

  /** Without hooks every request is accepted: one text frame starts the
      writer for the first file and sends "start". */
  lemma DefaultServerAccepts(env: Env, files: seq<File>)
    requires !env.hasHandlers && files != []
    ensures Session(env, [Text(files)])
            == (Engine(files, TransferState(Receiving, 0, 0), Open([]), [StartWriter(files[0]), Signal("start")]), Ok)
  {
    ConnectEstablishesInv(env);
    var s0 := Fresh().(state := Fresh().state.(number := ListeningForFileRequests));
    RequestStep(env, s0, 0, files);
    var s1 := s0.(files := files, state := s0.state.(number := WaitingForUserConfirmation));
    assert s0.(files := files, state := s0.state.(number := WaitingForUserConfirmation), trace := s0.trace + []) == s1;
    AcceptStep(env, s1);
    assert s1.trace + [StartWriter(files[0]), Signal("start")] == [StartWriter(files[0]), Signal("start")];
    var r := HandleFrame(env, s0, 0, Text(files));
    assert r == (Engine(files, TransferState(Receiving, 0, 0), Open([]), [StartWriter(files[0]), Signal("start")]), 0, Ok);
    assert [Text(files)][1..] == [];
    assert Run(env, s0, 0, [Text(files)]) == Run(env, r.0, 0, []);
  }

  /** Without hooks the first file that completes panics: the channel is
      closed, then `OnTransferComplete` is called on the nil hooks. */
  lemma DefaultServerPanicsOnCompletion(env: Env, files: seq<File>, contents: seq<byte>)
    requires !env.hasHandlers && files != [] && |contents| >= files[0].size
    ensures Session(env, [Text(files), Binary(contents)]).1 == Panic(NilHandlers)
  {
    DefaultServerAccepts(env, files);
    ConnectEstablishesInv(env);
    var s0 := Fresh().(state := Fresh().state.(number := ListeningForFileRequests));
    var s1 := Engine(files, TransferState(Receiving, 0, 0), Open([]), [StartWriter(files[0]), Signal("start")]);
    assert Run(env, s0, 0, [Text(files)]) == HandleFrame(env, s0, 0, Text(files));
    assert [Text(files), Binary(contents)][1..] == [Binary(contents)];
    OpenFrame(env, s1, 0, contents);
    assert Run(env, s1, 0, [Binary(contents)]).2 == HandleFrame(env, s1, 0, Binary(contents)).2;
  }
}
