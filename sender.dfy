/** The sender engine: it offers a manifest, uploads each file when the
    receiver says "start", and moves its file cursor on "complete". Actions
    run synchronously, and every host callback and frame sent is an entry of
    an output trace. */
module Sender {
  import opened Common
  import opened SenderTable

  /** Where a file's bytes come from: a byte array held in memory, or a
      FileStream given by the results of its successive `read()` calls
      (`None` is a read that resolved to `undefined`). */
  datatype FileData = InMemory(bytes: seq<byte>) | Stream(pulls: seq<Option<seq<byte>>>)

  datatype File = File(name: string, size: nat, mediaType: string, data: FileData)

  /** Which optional host callbacks are installed. */
  datatype Hooks = Hooks(onstart: bool, onprogress: bool, onsuccess: bool, onclose: bool)

  /** What the engine does to the outside world, in order. */
  datatype Effect =
    | SendManifest(files: seq<Descriptor>)
    | SendBinary(chunk: seq<byte>)
    | CloseConnection
    | OnStart
    | OnProgress(sent: nat, total: nat)
    | OnSuccess
    | OnClose

  /** The errors the engine throws. */
  datatype Fault = UndefinedCell(event: Event, state: State) | NoSuchFile(index: nat)

  /** How an event's handling ends. `Spins` is an upload loop that never
      ends: the file's source yields fewer bytes than its size. */
  datatype Outcome = Done | Thrown(fault: Fault) | Spins

  /** The engine's whole state: the manifest and hooks it was built with,
      the table state, the file cursor, and everything it has done so far. */
  datatype Engine = Engine(files: seq<File>, hooks: Hooks, state: State,
                           currentFile: nat, trace: seq<Effect>)

  // ---------------------------------------------------------------------
  // Byte accounting of the upload loop

  /** The bytes one read yields (`undefined` yields none). */
  function Yield(p: Option<seq<byte>>): seq<byte>
  {
    if p.Some? then p.value else []
  }

  /** The number of bytes a sequence of reads yields. */
  function Supply(pulls: seq<Option<seq<byte>>>): nat
  {
    if pulls == [] then 0 else |Yield(pulls[0])| + Supply(pulls[1..])
  }

  /** The bytes a sequence of reads yields, laid end to end. */
  function Payload(pulls: seq<Option<seq<byte>>>): seq<byte>
  {
    if pulls == [] then [] else Yield(pulls[0]) + Payload(pulls[1..])
  }

  /** The pulls of the in-memory mode: `slice(from, from + BUFFER_SIZE)`,
      then the next window, until the data is exhausted. */
  function Windows(data: seq<byte>, from: nat): (r: seq<Option<seq<byte>>>)
    ensures from <= |data| ==> Supply(r) == |data| - from
    decreases |data| - from
  {
    if from >= |data| then []
    else [Some(Slice(data, from, from + BUFFER_SIZE))] + Windows(data, from + BUFFER_SIZE)
  }

  /** A file can be uploaded to the end: its source yields at least `size`
      bytes. Otherwise the upload loop never ends: in memory it sends empty
      frames forever, and a stream is read forever. */
  predicate Supplied(f: File)
  {
    match f.data
    case InMemory(b) => |b| >= f.size
    case Stream(r) => Supply(r) >= f.size
  }

  /** The pulls the upload loop performs for a file, up to the end of its
      data (in memory) or of its reads (a stream). */
  function PullsOf(f: File): (r: seq<Option<seq<byte>>>)
    ensures Supplied(f) <==> Supply(r) >= f.size
  {
    match f.data
    case InMemory(b) => Windows(b, 0)
    case Stream(r) => r
  }

  /** The progress check after each read: a report fires when more than a
      sixteenth of the size has been sent since the last one (the
      floating-point `Size / 16` is compared exactly as `16 * d > Size`);
      the reported amount is capped at the size. Returns the reports and
      the new last-update position. */
  function ProgressCheck(hooks: Hooks, size: nat, uploaded: nat, last: nat): (r: (seq<Effect>, nat))
    ensures 16 * (uploaded - last) <= size ==> r == ([], last)
    ensures 16 * (uploaded - last) > size ==> r.1 == uploaded && |r.0| <= 1 && (r.0 != [] <==> hooks.onprogress)
    ensures r.0 != [] ==> hooks.onprogress && r.0 == [OnProgress(Min(uploaded, size), size)]
  {
    if 16 * (uploaded - last) > size then
      ((if hooks.onprogress then [OnProgress(Min(uploaded, size), size)] else []), uploaded)
    else ([], last)
  }

  /** The frame a read puts on the wire, if it yielded a buffer. */
  function Sent(p: Option<seq<byte>>): seq<Effect>
  {
    if p.Some? then [SendBinary(p.value)] else []
  }

  /** What the upload loop does from `uploaded` bytes sent and the last
      report at `last`, given the pulls still to come. When the pulls run
      out first, this is what the loop does before it starts to spin. */
  function Upload(hooks: Hooks, pulls: seq<Option<seq<byte>>>, size: nat, uploaded: nat, last: nat): (r: seq<Effect>)
    ensures uploaded >= size ==> r == []
    ensures |r| <= 2 * |pulls|
    decreases |pulls|
  {
    if uploaded >= size || pulls == [] then []
    else
      var up := uploaded + |Yield(pulls[0])|;
      var (reports, last') := ProgressCheck(hooks, size, up, last);
      Sent(pulls[0]) + reports + Upload(hooks, pulls[1..], size, up, last')
  }

  /** The frames a trace sends, laid end to end. */
  function Binary(effects: seq<Effect>): seq<byte>
  {
    if effects == [] then []
    else (if effects[0].SendBinary? then effects[0].chunk else []) + Binary(effects[1..])
  }

  /** The amounts a trace reports as progress, in order. */
  function Reports(effects: seq<Effect>): seq<nat>
  {
    if effects == [] then []
    else (if effects[0].OnProgress? then [effects[0].sent] else []) + Reports(effects[1..])
  }

  predicate StrictlyIncreasing(s: seq<nat>)
  {
    forall i, j :: 0 <= i < j < |s| ==> s[i] < s[j]
  }

  // ---------------------------------------------------------------------
  // The dispatcher

  function Descriptors(files: seq<File>): (r: seq<Descriptor>)
    ensures |r| == |files|
    ensures forall i :: 0 <= i < |files| ==>
      r[i] == Descriptor(files[i].name, files[i].size, files[i].mediaType)
  {
    seq(|files|, i requires 0 <= i < |files| =>
      Descriptor(files[i].name, files[i].size, files[i].mediaType))
  }

  /** `eventReducer`: look the cell up, throw if it is undefined, otherwise
      set the new state and then run the cell's actions in order. */
  function Dispatch(s: Engine, e: Event): (r: (Engine, Outcome))
    ensures r.0.files == s.files && r.0.hooks == s.hooks && s.trace <= r.0.trace
    decreases EventRank(e), 2, 0
  {
    match Lookup(e, s.state)
    case None => (s, Thrown(UndefinedCell(e, s.state)))
    case Some(cell) =>
      CellRanks(e, s.state);
      RunActions(s.(state := cell.newState), cell.actions, EventRank(e))
  }

  /** Runs actions in order. An action's failure is a rejected promise that
      `eventReducer` does not await, so the later actions still run; the
      first outcome other than `Done` is reported. */
  function RunActions(s: Engine, actions: seq<Action>, rank: nat): (r: (Engine, Outcome))
    requires forall a :: a in actions ==> ActionRank(a) <= rank
    ensures r.0.files == s.files && r.0.hooks == s.hooks && s.trace <= r.0.trace
    decreases rank, 1, |actions|
  {
    if actions == [] then (s, Done)
    else
      var (s1, o1) := Act(s, actions[0]);
      var (s2, o2) := RunActions(s1, actions[1..], rank);
      (s2, if o1.Done? then o2 else o1)
  }

  /** What Quit appends: the connection is closed, then `onclose` runs. */
  function QuitEffects(hooks: Hooks): seq<Effect>
  {
    if hooks.onclose then [CloseConnection, OnClose] else [CloseConnection]
  }

  /** `actionReducer`. */
  function Act(s: Engine, a: Action): (r: (Engine, Outcome))
    ensures r.0.files == s.files && r.0.hooks == s.hooks && s.trace <= r.0.trace
    decreases ActionRank(a), 0, 0
  {
    match a
    case SendFileRequest =>
      (s.(trace := s.trace + [SendManifest(Descriptors(s.files))]), Done)
    case UploadFile =>
      if s.currentFile < |s.files| then
        var f := s.files[s.currentFile];
        (s.(trace := s.trace + Upload(s.hooks, PullsOf(f), f.size, 0, 0)), if Supplied(f) then Done else Spins)
      else (s, Thrown(NoSuchFile(s.currentFile)))
    case IncrementFileIndex =>
      var s1 := s.(currentFile := s.currentFile + 1);
      if s1.currentFile < |s.files| then (s1, Done)
      else
        var s2 := if s.hooks.onsuccess then s1.(trace := s1.trace + [OnSuccess]) else s1;
        (Dispatch(s2, ExitFileUpload).0, Done)
    case Quit =>
      (s.(trace := s.trace + QuitEffects(s.hooks)), Done)
  }

  /** `_connHandler`: a control frame from the receiver, by its `Type`. */
  function Receive(s: Engine, tag: string): (r: (Engine, Outcome))
    ensures r.0.files == s.files && r.0.hooks == s.hooks && s.trace <= r.0.trace
  {
    if tag == "start" then
      Dispatch(if s.hooks.onstart then s.(trace := s.trace + [OnStart]) else s, BeginFileUpload)
    else if tag == "exit" then Dispatch(s, ExitFileUpload)
    else if tag == "complete" then Dispatch(s, UploadComplete)
    else (s, Done)
  }

  // ---------------------------------------------------------------------
  // The engine object

  class Transfer {
    const files: seq<File>
    const hooks: Hooks
    var state: State
    var currentFile: nat
    var trace: seq<Effect>

    function Snapshot(): Engine
      reads this
    {
      Engine(files, hooks, state, currentFile, trace)
    }

    constructor (files: seq<File>, hooks: Hooks)
      ensures Snapshot() == Engine(files, hooks, Initial, 0, [])
    {
      this.files := files;
      this.hooks := hooks;
      state := Initial;
      currentFile := 0;
      trace := [];
    }

    /** The connection opened. */
    method OnOpen() returns (o: Outcome)
      modifies this
      ensures (Snapshot(), o) == Dispatch(old(Snapshot()), Start)
    {
      o := EventReducer(Start);
    }

    method ConnHandler(tag: string) returns (o: Outcome)
      modifies this
      ensures (Snapshot(), o) == Receive(old(Snapshot()), tag)
    {
      if tag == "start" {
        if hooks.onstart {
          trace := trace + [OnStart];
        }
        o := EventReducer(BeginFileUpload);
      } else if tag == "exit" {
        o := EventReducer(ExitFileUpload);
      } else if tag == "complete" {
        o := EventReducer(UploadComplete);
      } else {
        o := Done;
      }
    }

    /** `cancel`: quit whatever the state. */
    method Cancel() returns (o: Outcome)
      modifies this
      ensures (Snapshot(), o) == Act(old(Snapshot()), Quit)
    {
      o := ActionReducer(Quit);
    }

    method EventReducer(e: Event) returns (o: Outcome)
      modifies this
      ensures (Snapshot(), o) == Dispatch(old(Snapshot()), e)
      decreases EventRank(e), 2, 0
    {
      var cell := Lookup(e, state);
      if cell.None? {
        return Thrown(UndefinedCell(e, state));
      }
      CellRanks(e, state);
      var actions := cell.value.actions;
      state := cell.value.newState;
      ghost var start := Snapshot();
      o := Done;
      for i := 0 to |actions|
        invariant var (s, o') := RunActions(Snapshot(), actions[i..], EventRank(e));
                  RunActions(start, actions, EventRank(e)) == (s, if o.Done? then o' else o)
      {
        assert actions[i..][1..] == actions[i + 1..];
        var o1 := ActionReducer(actions[i]);
        if o.Done? {
          o := o1;
        }
      }
    }

    method ActionReducer(a: Action) returns (o: Outcome)
      modifies this
      ensures (Snapshot(), o) == Act(old(Snapshot()), a)
      decreases ActionRank(a), 0, 0
    {
      match a
      case SendFileRequest =>
        trace := trace + [SendManifest(Descriptors(files))];
        o := Done;
        assert (Snapshot(), o) == Act(old(Snapshot()), a);
      case UploadFile =>
        if currentFile >= |files| {
          o := Thrown(NoSuchFile(currentFile));
          assert (Snapshot(), o) == Act(old(Snapshot()), a);
          return;
        }
        var f := files[currentFile];
        var spins: bool;
        if f.data.InMemory? {
          spins := SendInMemory(f.data.bytes, f.size);
        } else {
          spins := SendFromStream(f.data.pulls, f.size);
        }
        o := if spins then Spins else Done;
        assert (Snapshot(), o) == Act(old(Snapshot()), a);
      case IncrementFileIndex =>
        currentFile := currentFile + 1;
        if currentFile >= |files| {
          if hooks.onsuccess {
            trace := trace + [OnSuccess];
          }
          ghost var s2 := Snapshot();
          var _ := EventReducer(ExitFileUpload);
          assert Snapshot() == Dispatch(s2, ExitFileUpload).0;
        }
        o := Done;
        assert (Snapshot(), o) == Act(old(Snapshot()), a);
      case Quit =>
        trace := trace + [CloseConnection];
        if hooks.onclose {
          trace := trace + [OnClose];
        }
        assert trace == old(trace) + QuitEffects(hooks);
        o := Done;
        assert (Snapshot(), o) == Act(old(Snapshot()), a);
    }

    /** The upload loop over a byte array held in memory. Once the array
        is exhausted short of the size, every further window is empty and
        the loop would send empty frames forever: it stops there and
        reports that it spins. */
    method SendInMemory(data: seq<byte>, size: nat) returns (spins: bool)
      modifies this`trace
      ensures trace == old(trace) + Upload(hooks, Windows(data, 0), size, 0, 0)
      ensures spins <==> |data| < size
    {
      var uploaded: nat, lastUpdatePosition: nat := 0, 0;
      while uploaded < size
        invariant uploaded <= |data|
        invariant trace + Upload(hooks, Windows(data, uploaded), size, uploaded, lastUpdatePosition)
                  == old(trace) + Upload(hooks, Windows(data, 0), size, 0, 0)
        decreases size - uploaded
      {
        var buff := Slice(data, uploaded, uploaded + BUFFER_SIZE);
        if buff == [] {
          assert uploaded == |data| && Windows(data, uploaded) == [];
          assert Upload(hooks, [], size, uploaded, lastUpdatePosition) == [];
          return true;
        }
        ghost var (before, u0, l0) := (trace, uploaded, lastUpdatePosition);
        trace := trace + [SendBinary(buff)];
        uploaded := uploaded + |buff|;
        ghost var check := ProgressCheck(hooks, size, uploaded, l0);
        if 16 * (uploaded - lastUpdatePosition) > size {
          if hooks.onprogress {
            trace := trace + [OnProgress(Min(uploaded, size), size)];
          }
          lastUpdatePosition := uploaded;
        }
        assert trace == before + [SendBinary(buff)] + check.0 && lastUpdatePosition == check.1;
        InMemoryTurn(hooks, data, size, u0, l0, before, trace, uploaded, lastUpdatePosition);
      }
      spins := false;
    }

    /** The upload loop over a FileStream. Reads past the ones given are
        not modelled: when they run out short of the size, the loop stops
        and reports that it spins. */
    method SendFromStream(pulls: seq<Option<seq<byte>>>, size: nat) returns (spins: bool)
      modifies this`trace
      ensures trace == old(trace) + Upload(hooks, pulls, size, 0, 0)
      ensures spins <==> Supply(pulls) < size
    {
      var uploaded: nat, lastUpdatePosition: nat := 0, 0;
      var next := 0;
      while uploaded < size
        invariant next <= |pulls| && uploaded + Supply(pulls[next..]) == Supply(pulls)
        invariant trace + Upload(hooks, pulls[next..], size, uploaded, lastUpdatePosition)
                  == old(trace) + Upload(hooks, pulls, size, 0, 0)
        decreases |pulls| - next
      {
        if next == |pulls| {
          assert pulls[next..] == [] && Upload(hooks, [], size, uploaded, lastUpdatePosition) == [];
          return true;
        }
        var buff := pulls[next];
        ghost var rest := pulls[next..];
        ghost var (before, u0, l0) := (trace, uploaded, lastUpdatePosition);
        assert rest[1..] == pulls[next + 1..];
        next := next + 1;
        if buff.Some? {
          trace := trace + [SendBinary(buff.value)];
          uploaded := uploaded + |buff.value|;
        }
        assert trace == before + Sent(rest[0]) && uploaded == u0 + |Yield(rest[0])|;
        ghost var check := ProgressCheck(hooks, size, uploaded, l0);
        if 16 * (uploaded - lastUpdatePosition) > size {
          if hooks.onprogress {
            trace := trace + [OnProgress(Min(uploaded, size), size)];
          }
          lastUpdatePosition := uploaded;
        }
        assert trace == before + Sent(rest[0]) + check.0 && lastUpdatePosition == check.1;
        UploadStep(hooks, rest, size, u0, l0, before, trace, uploaded, lastUpdatePosition);
      }
      spins := false;
    }
  }

  /** One window of the in-memory mode and the windows after it. */
  lemma WindowsStep(data: seq<byte>, from: nat)
    requires from < |data|
    ensures var w := Slice(data, from, from + BUFFER_SIZE);
      0 < |w| && from + |w| <= |data| && Windows(data, from) != [] &&
      Windows(data, from)[0] == Some(w) && Windows(data, from)[1..] == Windows(data, from + |w|)
  {
    var w := Slice(data, from, from + BUFFER_SIZE);
    assert Windows(data, from + BUFFER_SIZE) == Windows(data, from + |w|);
  }

  lemma {:induction false} WindowsSupply(data: seq<byte>, from: nat)
    requires from <= |data|
    ensures Supply(Windows(data, from)) == |data| - from
    ensures Payload(Windows(data, from)) == data[from..]
    decreases |data| - from
  {
    if from < |data| {
      var w := Slice(data, from, from + BUFFER_SIZE);
      var next := from + |w|;
      assert Windows(data, from + BUFFER_SIZE) == Windows(data, next);
      WindowsSupply(data, next);
      assert data[from..] == w + data[next..];
    }
  }

  /** One turn of the upload loop: the trace grew by the frame (if the read
      yielded one) and the report (if one fired), which is exactly the first
      part of what `Upload` prescribes. */
  lemma UploadStep(hooks: Hooks, pulls: seq<Option<seq<byte>>>, size: nat, uploaded: nat, last: nat,
                   before: seq<Effect>, after: seq<Effect>, uploaded': nat, last': nat)
    requires uploaded < size && pulls != []
    requires uploaded' == uploaded + |Yield(pulls[0])|
    requires var check := ProgressCheck(hooks, size, uploaded', last);
             check.1 == last' && after == before + Sent(pulls[0]) + check.0
    ensures after + Upload(hooks, pulls[1..], size, uploaded', last') == before + Upload(hooks, pulls, size, uploaded, last)
  {
    var reports := ProgressCheck(hooks, size, uploaded', last).0;
    var rest := Upload(hooks, pulls[1..], size, uploaded', last');
    assert Upload(hooks, pulls, size, uploaded, last) == Sent(pulls[0]) + reports + rest;
    EffectsAssoc(before, Sent(pulls[0]), reports, rest);
  }

  lemma EffectsAssoc(a: seq<Effect>, b: seq<Effect>, c: seq<Effect>, d: seq<Effect>)
    ensures (a + b + c) + d == a + (b + c + d)
  {
  }

  /** One turn of the in-memory loop: the window at `uploaded` was sent and
      the progress check ran, which is the first part of what `Upload`
      prescribes over the windows from `uploaded`. */
  lemma InMemoryTurn(hooks: Hooks, data: seq<byte>, size: nat, uploaded: nat, last: nat,
                     before: seq<Effect>, after: seq<Effect>, uploaded': nat, last': nat)
    requires uploaded < size && uploaded < |data|
    requires var w := Slice(data, uploaded, uploaded + BUFFER_SIZE);
      var check := ProgressCheck(hooks, size, uploaded', last);
      uploaded' == uploaded + |w| && after == before + [SendBinary(w)] + check.0 && last' == check.1
    ensures uploaded' <= |data|
    ensures after + Upload(hooks, Windows(data, uploaded'), size, uploaded', last')
            == before + Upload(hooks, Windows(data, uploaded), size, uploaded, last)
  {
    var rest := Windows(data, uploaded);
    WindowsStep(data, uploaded);
    UploadStep(hooks, rest, size, uploaded, last, before, after, uploaded', last');
  }

  // ---------------------------------------------------------------------
  // What the upload loop sends and reports

  lemma UploadUnfold(hooks: Hooks, pulls: seq<Option<seq<byte>>>, size: nat, uploaded: nat, last: nat)
    requires uploaded < size && pulls != []
    ensures var up := uploaded + |Yield(pulls[0])|;
      var check := ProgressCheck(hooks, size, up, last);
      (uploaded + Supply(pulls) >= size ==> up + Supply(pulls[1..]) >= size) &&
      Upload(hooks, pulls, size, uploaded, last) == Sent(pulls[0]) + check.0 + Upload(hooks, pulls[1..], size, up, check.1)
  {
  }

  lemma {:induction false} BinaryAppend(a: seq<Effect>, b: seq<Effect>)
    ensures Binary(a + b) == Binary(a) + Binary(b)
    ensures Reports(a + b) == Reports(a) + Reports(b)
  {
    if a == [] {
      assert a + b == b;
    } else {
      var ab := a + b;
      assert ab[0] == a[0] && ab[1..] == a[1..] + b;
      BinaryAppend(a[1..], b);
      assert Binary(ab) == (if a[0].SendBinary? then a[0].chunk else []) + Binary(a[1..] + b);
      assert Reports(ab) == (if a[0].OnProgress? then [a[0].sent] else []) + Reports(a[1..] + b);
    }
  }

  /** The frames the loop sends are the bytes its reads yield, in order and
      without gaps: a prefix of everything the source could yield that
      reaches the file's size. When the source yields exactly the size, the
      frames are exactly its bytes. */
  lemma {:induction false} UploadSendsPayload(hooks: Hooks, pulls: seq<Option<seq<byte>>>, size: nat,
                                              uploaded: nat, last: nat)
    requires uploaded + Supply(pulls) >= size
    ensures var sent := Binary(Upload(hooks, pulls, size, uploaded, last));
            sent <= Payload(pulls) && uploaded + |sent| >= size &&
            (uploaded + Supply(pulls) == size ==> sent == Payload(pulls))
    decreases |pulls|
  {
    if uploaded >= size {
      if uploaded + Supply(pulls) == size {
        NoSupplyNoPayload(pulls);
      }
    } else {
      var chunk := Yield(pulls[0]);
      var up := uploaded + |chunk|;
      var check := ProgressCheck(hooks, size, up, last);
      var rest := Upload(hooks, pulls[1..], size, up, check.1);
      assert up + Supply(pulls[1..]) >= size
             && Upload(hooks, pulls, size, uploaded, last) == Sent(pulls[0]) + check.0 + rest by {
        UploadUnfold(hooks, pulls, size, uploaded, last);
      }
      UploadSendsPayload(hooks, pulls[1..], size, up, check.1);
      var sent := Binary(Upload(hooks, pulls, size, uploaded, last));
      assert sent == chunk + Binary(rest) by {
        BinaryAppend(Sent(pulls[0]), check.0);
        BinaryAppend(Sent(pulls[0]) + check.0, rest);
        ReportsSendNothing(hooks, size, up, last);
        assert Binary(Sent(pulls[0])) == chunk;
      }
      assert Payload(pulls) == chunk + Payload(pulls[1..]);
      assert Supply(pulls) == |chunk| + Supply(pulls[1..]);
      PrefixExtend(chunk, Binary(rest), Payload(pulls[1..]));
    }
  }

  lemma PrefixExtend(c: seq<byte>, x: seq<byte>, y: seq<byte>)
    requires x <= y
    ensures c + x <= c + y
  {
    assert (c + y)[..|c + x|] == c + x;
  }

  lemma ReportsSendNothing(hooks: Hooks, size: nat, uploaded: nat, last: nat)
    ensures Binary(ProgressCheck(hooks, size, uploaded, last).0) == []
  {
  }

  lemma {:induction false} NoSupplyNoPayload(pulls: seq<Option<seq<byte>>>)
    requires Supply(pulls) == 0
    ensures Payload(pulls) == []
  {
    if pulls != [] {
      NoSupplyNoPayload(pulls[1..]);
    }
  }

  /** A file held in memory whose array is exactly its size is sent exactly,
      byte for byte. */
  lemma InMemoryUploadSendsData(hooks: Hooks, data: seq<byte>)
    ensures Binary(Upload(hooks, Windows(data, 0), |data|, 0, 0)) == data
  {
    WindowsSupply(data, 0);
    UploadSendsPayload(hooks, Windows(data, 0), |data|, 0, 0);
  }

  /** Every frame the loop sends is the result of one of its reads. */
  lemma {:induction false} SentChunksAreReads(hooks: Hooks, pulls: seq<Option<seq<byte>>>, size: nat,
                                              uploaded: nat, last: nat, c: seq<byte>)
    requires SendBinary(c) in Upload(hooks, pulls, size, uploaded, last)
    ensures Some(c) in pulls
    decreases |pulls|
  {
    if uploaded < size && pulls != [] {
      var up := uploaded + |Yield(pulls[0])|;
      var (reports, last') := ProgressCheck(hooks, size, up, last);
      if SendBinary(c) in Upload(hooks, pulls[1..], size, up, last') {
        SentChunksAreReads(hooks, pulls[1..], size, up, last', c);
      }
    }
  }

  lemma {:induction false} WindowsAreFrames(data: seq<byte>, from: nat, c: seq<byte>)
    requires Some(c) in Windows(data, from)
    ensures 0 < |c| <= BUFFER_SIZE
    decreases |data| - from
  {
    if from < |data| && Some(c) != Windows(data, from)[0] {
      WindowsAreFrames(data, from + BUFFER_SIZE, c);
    }
  }

  /** In memory, every binary frame holds between 1 and 1024 bytes. */
  lemma InMemoryFramesBounded(hooks: Hooks, data: seq<byte>, size: nat, c: seq<byte>)
    requires SendBinary(c) in Upload(hooks, Windows(data, 0), size, 0, 0)
    ensures 0 < |c| <= BUFFER_SIZE
  {
    SentChunksAreReads(hooks, Windows(data, 0), size, 0, 0, c);
    WindowsAreFrames(data, 0, c);
  }

  /** A file of size zero sends no frame and reports nothing. */
  lemma ZeroSizeSendsNothing(hooks: Hooks, pulls: seq<Option<seq<byte>>>)
    ensures Upload(hooks, pulls, 0, 0, 0) == []
  {
  }

  /** Reports that strictly increase and lie in (lo, hi]. */
  predicate ReportsWithin(r: seq<nat>, lo: int, hi: int)
  {
    StrictlyIncreasing(r) && forall i :: 0 <= i < |r| ==> lo < r[i] <= hi
  }

  /** The progress reports of one upload strictly increase, every one lies
      above the amount sent when the loop (re)started and none exceeds the
      size. The precondition is what the loop keeps between turns: the last
      report is no more than a sixteenth of the size behind. */
  lemma {:induction false} ProgressIncreases(hooks: Hooks, pulls: seq<Option<seq<byte>>>, size: nat,
                                             uploaded: nat, last: nat)
    requires last <= uploaded && 16 * (uploaded - last) <= size
    ensures ReportsWithin(Reports(Upload(hooks, pulls, size, uploaded, last)), uploaded, size)
    decreases |pulls|
  {
    if uploaded < size && pulls != [] {
      var up := uploaded + |Yield(pulls[0])|;
      var check := ProgressCheck(hooks, size, up, last);
      var rest := Upload(hooks, pulls[1..], size, up, check.1);
      var later := Reports(rest);
      UploadUnfold(hooks, pulls, size, uploaded, last);
      ReportsOfTurn(pulls[0], check.0, rest);
      assert check.1 <= up && 16 * (up - check.1) <= size;
      ProgressIncreases(hooks, pulls[1..], size, up, check.1);
      if up >= size {
        assert rest == [];
      }
      ReportsStep(hooks, size, uploaded, last, up, later);
    }
  }

  /** A turn's frame reports nothing: the reports of a turn and what
      follows are its progress check's and the later ones. */
  lemma ReportsOfTurn(p: Option<seq<byte>>, check: seq<Effect>, rest: seq<Effect>)
    ensures Reports(Sent(p) + check + rest) == Reports(check) + Reports(rest)
  {
    var sent := Sent(p);
    assert Reports(sent) == [] by {
      if p.Some? {
        assert sent[1..] == [] && !sent[0].OnProgress?;
      }
    }
    BinaryAppend(sent, check);
    BinaryAppend(sent + check, rest);
  }

  /** One turn's report, if any, comes before and below the later ones. */
  lemma ReportsStep(hooks: Hooks, size: nat, uploaded: nat, last: nat, up: nat, later: seq<nat>)
    requires uploaded < size && uploaded <= up && last <= uploaded && 16 * (uploaded - last) <= size
    requires up < size ==> ReportsWithin(later, up, size)
    requires up >= size ==> later == []
    ensures ReportsWithin(Reports(ProgressCheck(hooks, size, up, last).0) + later, uploaded, size)
  {
    var r0 := Reports(ProgressCheck(hooks, size, up, last).0);
    if r0 == [] {
      assert r0 + later == later;
    } else {
      var e := OnProgress(Min(up, size), size);
      assert 16 * (up - last) > size && ProgressCheck(hooks, size, up, last).0 == [e];
      assert [e][1..] == [];
      assert Reports([e]) == [e.sent] + Reports([]);
      assert r0 == [Min(up, size)];
      if up < size {
        ConsIncreasing(up, later);
      }
    }
  }

  lemma ConsIncreasing(x: nat, r: seq<nat>)
    requires StrictlyIncreasing(r) && forall i :: 0 <= i < |r| ==> x < r[i]
    ensures StrictlyIncreasing([x] + r)
  {
    var xr := [x] + r;
    forall i, j | 0 <= i < j < |xr| ensures xr[i] < xr[j] {
      assert xr[j] == r[j - 1];
      if i > 0 {
        assert xr[i] == r[i - 1];
      }
    }
  }

  /** Every progress report of a whole upload lies in (0, size], and they
      strictly increase. */
  lemma ProgressBounded(hooks: Hooks, f: File)
    ensures ReportsWithin(Reports(Upload(hooks, PullsOf(f), f.size, 0, 0)), 0, f.size)
  {
    ProgressIncreases(hooks, PullsOf(f), f.size, 0, 0);
  }

  /** Every report in `t` is the number of bytes the frames before it
      carry, counted on from `sent` and capped at `size`, out of `size`. */
  predicate ReportsTrue(t: seq<Effect>, sent: nat, size: nat)
    decreases |t|
  {
    t == [] ||
    if t[0].OnProgress? then t[0] == OnProgress(Min(sent, size), size) && ReportsTrue(t[1..], sent, size)
    else ReportsTrue(t[1..], sent + |Binary(t[..1])|, size)
  }

  lemma {:induction false} ReportsTrueAppend(a: seq<Effect>, b: seq<Effect>, sent: nat, size: nat)
    requires ReportsTrue(a, sent, size) && ReportsTrue(b, sent + |Binary(a)|, size)
    ensures ReportsTrue(a + b, sent, size)
    decreases |a|
  {
    if a == [] {
      assert a + b == b;
    } else {
      var ab := a + b;
      assert ab[0] == a[0] && ab[1..] == a[1..] + b && ab[..1] == a[..1];
      var sent' := if a[0].OnProgress? then sent else sent + |Binary(a[..1])|;
      assert Binary(a) == Binary(a[..1]) + Binary(a[1..]) by {
        assert a == a[..1] + a[1..];
        BinaryAppend(a[..1], a[1..]);
      }
      assert a[0].OnProgress? ==> Binary(a[..1]) == [] by {
        assert a[..1][1..] == [];
      }
      ReportsTrueAppend(a[1..], b, sent', size);
    }
  }

  /** The `i`-th effect of a trace whose reports are true, if a report,
      counts the frames before it. */
  lemma {:induction false} ReportsTrueAt(t: seq<Effect>, sent: nat, size: nat, i: nat)
    requires ReportsTrue(t, sent, size) && i < |t| && t[i].OnProgress?
    ensures t[i] == OnProgress(Min(sent + |Binary(t[..i])|, size), size)
    decreases i
  {
    if i == 0 {
      assert t[..0] == [];
    } else {
      var sent' := if t[0].OnProgress? then sent else sent + |Binary(t[..1])|;
      ReportsTrueAt(t[1..], sent', size, i - 1);
      assert t[1..][i - 1] == t[i];
      assert t[..i] == t[..1] + t[1..][..i - 1];
      BinaryAppend(t[..1], t[1..][..i - 1]);
      assert t[0].OnProgress? ==> Binary(t[..1]) == [] by {
        assert t[..1][1..] == [];
      }
    }
  }

  /** One turn's frame and report: the report, if any, counts the frame. */
  lemma TurnReportsTrue(hooks: Hooks, p: Option<seq<byte>>, size: nat, uploaded: nat, last: nat)
    ensures var check := ProgressCheck(hooks, size, uploaded + |Yield(p)|, last);
      ReportsTrue(Sent(p) + check.0, uploaded, size) && Binary(Sent(p) + check.0) == Yield(p)
  {
    var up := uploaded + |Yield(p)|;
    var check := ProgressCheck(hooks, size, up, last);
    assert Binary(Sent(p)) == Yield(p) && ReportsTrue(Sent(p), uploaded, size) by {
      if p.Some? {
        assert Sent(p)[1..] == [];
      }
    }
    assert ReportsTrue(check.0, up, size) by {
      if check.0 != [] {
        assert check.0[..0] == [];
      }
    }
    ReportsTrueAppend(Sent(p), check.0, uploaded, size);
    BinaryAppend(Sent(p), check.0);
    ReportsSendNothing(hooks, size, up, last);
  }

  /** Every report of the loop is the amount its frames have sent so far,
      capped at the size. */
  lemma {:induction false} UploadReportsTrue(hooks: Hooks, pulls: seq<Option<seq<byte>>>, size: nat,
                                             uploaded: nat, last: nat)
    ensures ReportsTrue(Upload(hooks, pulls, size, uploaded, last), uploaded, size)
    decreases |pulls|
  {
    if uploaded < size && pulls != [] {
      var up := uploaded + |Yield(pulls[0])|;
      var check := ProgressCheck(hooks, size, up, last);
      var head := Sent(pulls[0]) + check.0;
      var rest := Upload(hooks, pulls[1..], size, up, check.1);
      assert Upload(hooks, pulls, size, uploaded, last) == head + rest by {
        UploadUnfold(hooks, pulls, size, uploaded, last);
      }
      assert ReportsTrue(head, uploaded, size) && uploaded + |Binary(head)| == up by {
        TurnReportsTrue(hooks, pulls[0], size, uploaded, last);
      }
      assert ReportsTrue(rest, up, size) by {
        UploadReportsTrue(hooks, pulls[1..], size, up, check.1);
      }
      ReportsTrueAppend(head, rest, uploaded, size);
    }
  }

  /** Each progress report of a whole upload gives the bytes sent before
      it, capped at the size, out of the size. */
  lemma ProgressValues(hooks: Hooks, f: File)
    ensures var t := Upload(hooks, PullsOf(f), f.size, 0, 0);
      forall i :: 0 <= i < |t| && t[i].OnProgress? ==>
        t[i] == OnProgress(Min(|Binary(t[..i])|, f.size), f.size)
  {
    var t := Upload(hooks, PullsOf(f), f.size, 0, 0);
    UploadReportsTrue(hooks, PullsOf(f), f.size, 0, 0);
    forall i | 0 <= i < |t| && t[i].OnProgress?
      ensures t[i] == OnProgress(Min(|Binary(t[..i])|, f.size), f.size)
    {
      ReportsTrueAt(t, 0, f.size, i);
    }
  }

  /** The last report need not be the full size: a stream of 32 bytes that
      yields 31 bytes and then 1 reports 31 once and then nothing, since the
      final byte is less than a sixteenth of the size. */
  lemma FinalProgressCanFallShort(a: seq<byte>, b: seq<byte>)
    requires |a| == 31 && |b| == 1
    ensures Reports(Upload(Hooks(true, true, true, true), [Some(a), Some(b)], 32, 0, 0)) == [31]
  {
    var h := Hooks(true, true, true, true);
    var pulls := [Some(a), Some(b)];
    assert pulls[1..] == [Some(b)] && pulls[1..][1..] == [];
    assert Upload(h, [], 32, 32, 31) == [];
    assert ProgressCheck(h, 32, 32, 31) == ([], 31);
    var tail := Upload(h, [Some(b)], 32, 31, 31);
    assert tail == [SendBinary(b)];
    assert Upload(h, pulls, 32, 0, 0) == [SendBinary(a), OnProgress(31, 32)] + tail;
    BinaryAppend([SendBinary(a), OnProgress(31, 32)], tail);
  }

  // ---------------------------------------------------------------------
  // The transitions, one by one

  /** An event with no cell throws and changes nothing. */
  lemma UndefinedCellThrows(s: Engine, e: Event)
    requires Lookup(e, s.state).None?
    ensures Dispatch(s, e) == (s, Thrown(UndefinedCell(e, s.state)))
  {
  }

  /** "complete" while waiting to start is a protocol error: it throws and
      the engine stays as it was. */
  lemma CompleteWhileWaitingToStartThrows(s: Engine)
    requires s.state == WaitingToStart
    ensures Receive(s, "complete") == (s, Thrown(UndefinedCell(UploadComplete, WaitingToStart)))
  {
  }

  /** `start` in INITIAL: the manifest (the files without their data) is
      sent and the engine waits for the receiver's "start". */
  lemma StartStep(s: Engine)
    requires s.state == Initial
    ensures Dispatch(s, Start)
            == (s.(state := WaitingToStart, trace := s.trace + [SendManifest(Descriptors(s.files))]), Done)
  {
    assert RunActions(s.(state := WaitingToStart), [SendFileRequest], 0)
           == (s.(state := WaitingToStart, trace := s.trace + [SendManifest(Descriptors(s.files))]), Done);
  }

  /** `beginFileUpload` while waiting to start: the state becomes
      WAITING_FOR_COMPLETION and the current file is uploaded whole; with the
      cursor past the manifest the upload throws, after the state change. */
  lemma BeginStep(s: Engine)
    requires s.state == WaitingToStart
    ensures s.currentFile < |s.files| ==>
      var f := s.files[s.currentFile];
      Dispatch(s, BeginFileUpload)
      == (s.(state := WaitingForCompletion, trace := s.trace + Upload(s.hooks, PullsOf(f), f.size, 0, 0)),
          if Supplied(f) then Done else Spins)
    ensures s.currentFile >= |s.files| ==>
      Dispatch(s, BeginFileUpload) == (s.(state := WaitingForCompletion), Thrown(NoSuchFile(s.currentFile)))
  {
    var s1 := s.(state := WaitingForCompletion);
    assert Dispatch(s, BeginFileUpload) == RunActions(s1, [UploadFile], 0);
    assert RunActions(s1, [UploadFile], 0) == (Act(s1, UploadFile).0, Act(s1, UploadFile).1);
  }

  /** `exitFileUpload` in a waiting state: back to INITIAL, closing. */
  lemma ExitStep(s: Engine)
    requires s.state != Initial
    ensures Dispatch(s, ExitFileUpload)
            == (s.(state := Initial, trace := s.trace + QuitEffects(s.hooks)), Done)
  {
    var s1 := s.(state := Initial);
    assert Dispatch(s, ExitFileUpload) == RunActions(s1, [Quit], 1);
    assert RunActions(s1, [Quit], 1) == (Act(s1, Quit).0, Act(s1, Quit).1);
  }

  /** `uploadComplete` while waiting for completion: the cursor moves on.
      With a next file the engine waits to start it; with none, `onsuccess`
      runs and then the re-entered `exitFileUpload` quits into INITIAL. */
  lemma CompleteStep(s: Engine)
    requires s.state == WaitingForCompletion
    ensures s.currentFile + 1 < |s.files| ==>
      Dispatch(s, UploadComplete) == (s.(state := WaitingToStart, currentFile := s.currentFile + 1), Done)
    ensures s.currentFile + 1 >= |s.files| ==>
      Dispatch(s, UploadComplete)
      == (s.(state := Initial, currentFile := s.currentFile + 1,
             trace := s.trace + (if s.hooks.onsuccess then [OnSuccess] else []) + QuitEffects(s.hooks)),
          Done)
  {
    CompleteCell(s);
    if s.currentFile + 1 >= |s.files| {
      var s2 := s.(state := WaitingToStart, currentFile := s.currentFile + 1);
      var s3 := if s.hooks.onsuccess then s2.(trace := s2.trace + [OnSuccess]) else s2;
      assert s3.trace == s.trace + (if s.hooks.onsuccess then [OnSuccess] else []);
      ExitStep(s3);
    }
  }

  /** `uploadComplete` runs IncrementFileIndex from WAITING_TO_START: the
      cursor moves on, and past the last file `onsuccess` runs and then
      `exitFileUpload` is dispatched. */
  lemma CompleteCell(s: Engine)
    requires s.state == WaitingForCompletion
    ensures var s2 := s.(state := WaitingToStart, currentFile := s.currentFile + 1);
      Dispatch(s, UploadComplete)
      == if s2.currentFile < |s.files| then (s2, Done)
         else (Dispatch(if s.hooks.onsuccess then s2.(trace := s2.trace + [OnSuccess]) else s2, ExitFileUpload).0, Done)
  {
    var s1 := s.(state := WaitingToStart);
    assert Dispatch(s, UploadComplete) == RunActions(s1, [IncrementFileIndex], 2);
    assert RunActions(s1, [IncrementFileIndex], 2)
           == (Act(s1, IncrementFileIndex).0, Act(s1, IncrementFileIndex).1);
  }

  /** Cancelling quits from any state, leaving the table state alone. */
  lemma CancelQuits(s: Engine)
    ensures Act(s, Quit) == (s.(trace := s.trace + QuitEffects(s.hooks)), Done)
  {
  }

  /** Handling a control frame spins exactly when it is "start" while
      waiting to start and the current file's source falls short of its
      size. */
  lemma SpinsOnShortFile(s: Engine, tag: string)
    ensures Receive(s, tag).1.Spins? <==>
      tag == "start" && s.state == WaitingToStart && s.currentFile < |s.files| && !Supplied(s.files[s.currentFile])
  {
    ReceiveCases(s, tag);
    if tag == "start" && s.state == WaitingToStart {
      BeginStep(if s.hooks.onstart then s.(trace := s.trace + [OnStart]) else s);
    } else if tag == "complete" && s.state == WaitingForCompletion {
      CompleteStep(s);
    } else if tag == "exit" && s.state != Initial {
      ExitStep(s);
    }
  }

  // ---------------------------------------------------------------------
  // Reachable states

  /** The file cursor stays within the manifest, and strictly inside it
      while a transfer is under way. (An empty manifest is the exception:
      the receiver can still ask for file 0.) */
  predicate CursorInBounds(s: Engine)
  {
    s.files != [] ==>
      s.currentFile <= |s.files| && (s.state != Initial ==> s.currentFile < |s.files|)
  }

  /** A fresh engine whose connection opens satisfies the invariant. */
  lemma OpenEstablishesCursor(files: seq<File>, hooks: Hooks)
    ensures CursorInBounds(Dispatch(Engine(files, hooks, Initial, 0, []), Start).0)
  {
    StartStep(Engine(files, hooks, Initial, 0, []));
  }

  /** No control frame from the receiver can move the cursor out of bounds
      (the only event that could, `start`, is not one the receiver sends). */
  lemma ReceiveKeepsCursor(s: Engine, tag: string)
    requires CursorInBounds(s)
    ensures CursorInBounds(Receive(s, tag).0)
  {
    ReceiveCases(s, tag);
  }

  /** With a non-empty manifest and the invariant, the only error a control
      frame can cause is a protocol violation: the upload never reaches for
      a file that is not there. */
  lemma NoMissingFile(s: Engine, tag: string)
    requires CursorInBounds(s) && s.files != []
    ensures Receive(s, tag).1.Thrown? ==> Receive(s, tag).1.fault.UndefinedCell?
  {
    ReceiveCases(s, tag);
  }

  lemma ReceiveCases(s: Engine, tag: string)
    ensures tag == "start" && s.state == WaitingToStart ==>
      var s' := if s.hooks.onstart then s.(trace := s.trace + [OnStart]) else s;
      Receive(s, tag) == Dispatch(s', BeginFileUpload) && s'.state == s.state && s'.currentFile == s.currentFile
    ensures tag == "complete" && s.state == WaitingForCompletion ==> Receive(s, tag) == Dispatch(s, UploadComplete)
    ensures tag == "exit" && s.state != Initial ==> Receive(s, tag) == Dispatch(s, ExitFileUpload)
    ensures !(tag == "start" && s.state == WaitingToStart) && !(tag == "complete" && s.state == WaitingForCompletion)
            && !(tag == "exit" && s.state != Initial) ==>
      Receive(s, tag).0 == (if tag == "start" && s.hooks.onstart then s.(trace := s.trace + [OnStart]) else s)
      && (Receive(s, tag).1.Done? || (Receive(s, tag).1.Thrown? && Receive(s, tag).1.fault.UndefinedCell?))
  {
    if tag == "start" && s.state == WaitingToStart {
      var s' := if s.hooks.onstart then s.(trace := s.trace + [OnStart]) else s;
      BeginStep(s');
    } else if tag == "complete" && s.state == WaitingForCompletion {
      CompleteStep(s);
    } else if tag == "exit" && s.state != Initial {
      ExitStep(s);
    }
  }

  // ---------------------------------------------------------------------
  // A whole session

  /** Runs control frames from the receiver, in order. */
  function Run(s: Engine, tags: seq<string>): (r: Engine)
    ensures r.files == s.files && r.hooks == s.hooks && s.trace <= r.trace
    decreases |tags|
  {
    if tags == [] then s else Run(Receive(s, tags[0]).0, tags[1..])
  }

  /** What a receiver that accepts sends for `n` files: "start", then
      "complete" once the file has arrived, for each. */
  function Handshakes(n: nat): seq<string>
  {
    if n == 0 then [] else ["start", "complete"] + Handshakes(n - 1)
  }

  /** A session for `n + 1` files is one file's turn, then a session for
      `n`. */
  lemma SessionSplit(s: Engine, n: nat)
    ensures Run(s, Handshakes(n + 1)) == Run(Run(s, ["start", "complete"]), Handshakes(n))
  {
    assert Handshakes(n + 1) == ["start", "complete"] + Handshakes(n);
    RunAppend(s, ["start", "complete"], Handshakes(n));
  }

  /** The source of the file yields exactly its size. */
  predicate Exact(f: File)
  {
    Supply(PullsOf(f)) == f.size
  }

  /** The files' bytes laid end to end, in manifest order. */
  function Contents(files: seq<File>): seq<byte>
  {
    if files == [] then [] else Payload(PullsOf(files[0])) + Contents(files[1..])
  }

  lemma HookEffectsSendNothing(hooks: Hooks)
    ensures Binary([OnStart]) == [] && Binary([OnSuccess]) == [] && Binary(QuitEffects(hooks)) == []
  {
    assert [OnStart][1..] == [] && [OnSuccess][1..] == [];
    assert [CloseConnection, OnClose][1..] == [OnClose] && [CloseConnection][1..] == [];
  }

  lemma {:induction false} RunAppend(s: Engine, a: seq<string>, b: seq<string>)
    ensures Run(s, a + b) == Run(Run(s, a), b)
    decreases |a|
  {
    if a == [] {
      assert a + b == b;
    } else {
      assert (a + b)[0] == a[0] && (a + b)[1..] == a[1..] + b;
      RunAppend(Receive(s, a[0]).0, a[1..], b);
    }
  }

  lemma RunPair(s: Engine, a: string, b: string)
    ensures Run(s, [a, b]) == Receive(Receive(s, a).0, b).0
  {
    var s1 := Receive(s, a).0;
    assert [a, b][0] == a && [a, b][1..] == [b];
    assert Run(s, [a, b]) == Run(s1, [b]);
    assert [b][0] == b && [b][1..] == [];
    assert Run(s1, [b]) == Run(Receive(s1, b).0, []);
  }

  /** The trace ends with the given effects. */
  predicate EndsWith(t: seq<Effect>, q: seq<Effect>)
  {
    |q| <= |t| && t[|t| - |q|..] == q
  }

  /** "start" while waiting: the current file is uploaded whole. */
  lemma StartTurn(s: Engine)
    requires s.state == WaitingToStart && s.currentFile < |s.files|
    requires Exact(s.files[s.currentFile])
    ensures var r := Receive(s, "start").0;
      r.state == WaitingForCompletion && r.currentFile == s.currentFile &&
      Binary(r.trace) == Binary(s.trace) + Payload(PullsOf(s.files[s.currentFile]))
  {
    var f := s.files[s.currentFile];
    var upload := Upload(s.hooks, PullsOf(f), f.size, 0, 0);
    var s' := if s.hooks.onstart then s.(trace := s.trace + [OnStart]) else s;
    var r := s'.(state := WaitingForCompletion, trace := s'.trace + upload);
    assert Receive(s, "start").0 == r by {
      ReceiveCases(s, "start");
      BeginStep(s');
    }
    assert Binary(s'.trace) == Binary(s.trace) by {
      HookEffectsSendNothing(s.hooks);
      BinaryAppend(s.trace, [OnStart]);
    }
    assert Binary(r.trace) == Binary(s'.trace) + Payload(PullsOf(f)) by {
      UploadSendsPayload(s.hooks, PullsOf(f), f.size, 0, 0);
      BinaryAppend(s'.trace, upload);
    }
  }

  /** "complete" while waiting for completion: the cursor moves on; after
      the last file the engine is back in INITIAL, the connection closed. */
  lemma CompleteTurn(s: Engine)
    requires s.state == WaitingForCompletion
    ensures var r := Receive(s, "complete").0;
      r.currentFile == s.currentFile + 1 && Binary(r.trace) == Binary(s.trace) &&
      (r.currentFile < |s.files| ==> r.state == WaitingToStart) &&
      (r.currentFile >= |s.files| ==> r.state == Initial && EndsWith(r.trace, QuitEffects(s.hooks)))
  {
    ReceiveCases(s, "complete");
    CompleteStep(s);
    HookEffectsSendNothing(s.hooks);
    if s.currentFile + 1 >= |s.files| {
      var success := if s.hooks.onsuccess then [OnSuccess] else [];
      var t := s.trace + success + QuitEffects(s.hooks);
      assert Receive(s, "complete").0.trace == t;
      BinaryAppend(s.trace, success);
      BinaryAppend(s.trace + success, QuitEffects(s.hooks));
      assert t[|t| - |QuitEffects(s.hooks)|..] == QuitEffects(s.hooks);
    }
  }

  /** Where one file's turn, "start" then "complete", from `s` ends: the
      file was sent whole and the cursor moved on; after the last file the
      engine is back in INITIAL with the connection closed. */
  predicate TurnEnded(s: Engine, r: Engine)
    requires s.currentFile < |s.files|
  {
    r.files == s.files && r.hooks == s.hooks && r.currentFile == s.currentFile + 1 &&
    Binary(r.trace) == Binary(s.trace) + Payload(PullsOf(s.files[s.currentFile])) &&
    (r.currentFile < |s.files| ==> r.state == WaitingToStart) &&
    (r.currentFile >= |s.files| ==> r.state == Initial && EndsWith(r.trace, QuitEffects(s.hooks)))
  }

  /** One file's turn of a session. */
  lemma FileTurn(s: Engine)
    requires s.state == WaitingToStart && s.currentFile < |s.files|
    requires Exact(s.files[s.currentFile])
    ensures TurnEnded(s, Run(s, ["start", "complete"]))
  {
    StartTurn(s);
    CompleteTurn(Receive(s, "start").0);
    RunPair(s, "start", "complete");
  }

  lemma AppendAssoc(a: seq<byte>, b: seq<byte>, c: seq<byte>)
    ensures (a + b) + c == a + (b + c)
  {
  }

  lemma ContentsFrom(files: seq<File>, i: nat)
    requires i < |files|
    ensures Contents(files[i..]) == Payload(PullsOf(files[i])) + Contents(files[i + 1..])
  {
    assert files[i..][1..] == files[i + 1..];
  }

  /** Every file's source yields exactly its size. */
  predicate AllExact(files: seq<File>)
  {
    forall i :: 0 <= i < |files| ==> Exact(files[i])
  }

  /** Where a successful session from `s` ends: every remaining file's
      bytes were sent, in manifest order and nothing else, and the engine is
      in INITIAL with the cursor past the last file and the connection
      closed. */
  predicate SessionEnded(s: Engine, r: Engine)
    requires s.currentFile <= |s.files|
  {
    r.state == Initial && r.currentFile == |s.files| &&
    Binary(r.trace) == Binary(s.trace) + Contents(s.files[s.currentFile..]) &&
    EndsWith(r.trace, QuitEffects(s.hooks))
  }

  /** One file's turn followed by the rest of a session is a session. */
  lemma SessionGlue(s: Engine, s2: Engine, r: Engine)
    requires s.currentFile < |s.files|
    requires TurnEnded(s, s2) && SessionEnded(s2, r)
    ensures SessionEnded(s, r)
  {
    ContentsFrom(s.files, s.currentFile);
    AppendAssoc(Binary(s.trace), Payload(PullsOf(s.files[s.currentFile])), Contents(s.files[s.currentFile + 1..]));
  }

  /** The last file's turn is the whole session. */
  lemma SessionLast(s: Engine, r: Engine)
    requires s.currentFile + 1 == |s.files|
    requires TurnEnded(s, r)
    ensures SessionEnded(s, r)
  {
    assert s.files[s.currentFile + 1..] == [];
    ContentsFrom(s.files, s.currentFile);
    assert Binary(s.trace) + Payload(PullsOf(s.files[s.currentFile])) + [] == Binary(s.trace) + Payload(PullsOf(s.files[s.currentFile]));
  }

  /** A successful session from a waiting state: answering "start" and
      "complete" for each remaining file sends every remaining file's bytes,
      in manifest order and nothing else, and ends in INITIAL with the
      cursor past the last file and the connection closed. */
  lemma {:induction false} SuccessfulSession(s: Engine)
    requires AllExact(s.files)
    requires s.state == WaitingToStart && s.currentFile < |s.files|
    ensures SessionEnded(s, Run(s, Handshakes(|s.files| - s.currentFile)))
    decreases |s.files| - s.currentFile
  {
    var n := |s.files| - s.currentFile;
    var s2 := Run(s, ["start", "complete"]);
    FileTurn(s);
    var k := |s2.files| - s2.currentFile;
    var r := Run(s2, Handshakes(k));
    assert k + 1 == n;
    SessionSplit(s, k);
    if k > 0 {
      SuccessfulSession(s2);
      SessionGlue(s, s2, r);
    } else {
      assert Handshakes(k) == [];
      SessionLast(s, r);
    }
  }
}
