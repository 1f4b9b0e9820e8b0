/** The earlier sender engine: the same table as the current sender, but
    every file is a byte array cut into fixed strides of BUFFER_SIZE bytes
    counted against the file's declared size, and errors propagate out of
    the dispatcher at once, since every action runs synchronously. */
module LegacySender {
  import opened Common
  import opened SenderTable
  import Sender

  type Hooks = Sender.Hooks
  type Effect = Sender.Effect
  type Outcome = Sender.Outcome

  /** A file: its declared size and a byte array whose length need not
      agree with it. */
  datatype File = File(name: string, size: nat, mediaType: string, data: seq<byte>)

  datatype Engine = Engine(files: seq<File>, hooks: Hooks, state: State,
                           currentFile: nat, trace: seq<Effect>)

  // ---------------------------------------------------------------------
  // The upload loop

  /** The number of frames the loop sends for `n` bytes still to go: one per
      started stride, the ceiling of `n / BUFFER_SIZE`. */
  function Chunks(n: int): nat
  {
    if n <= 0 then 0 else (n + BUFFER_SIZE - 1) / BUFFER_SIZE
  }

  /** The progress check after each frame. `position` is sixteen times the
      source's floating-point `updatePosition`: it starts at the size and
      grows by the size at each report, so `byteStart > updatePosition` is
      `16 * byteStart > position`. A report only fires, and the position
      only moves, when `onprogress` is installed; the amount is capped at
      the size. Returns the report and the new position. */
  function Progress(hooks: Hooks, size: nat, byteStart: nat, position: nat): (r: (seq<Effect>, nat))
    ensures r.0 != [] <==> hooks.onprogress && 16 * byteStart > position
    ensures r.0 != [] ==> r.0 == [Sender.OnProgress(Min(byteStart, size), size)] && r.1 == position + size
    ensures r.0 == [] ==> r.1 == position
  {
    if hooks.onprogress && 16 * byteStart > position then
      ([Sender.OnProgress(Min(byteStart, size), size)], position + size)
    else ([], position)
  }

  /** What the loop does from `byteStart`: while bytes of the declared size
      remain, send the next stride of the array, then check progress. */
  function Upload(hooks: Hooks, data: seq<byte>, size: nat, byteStart: nat, position: nat): (r: seq<Effect>)
    ensures byteStart >= size ==> r == []
    ensures byteStart < size ==> r != [] && r[0].SendBinary?
    decreases size - byteStart
  {
    if byteStart >= size then []
    else
      var next := byteStart + BUFFER_SIZE;
      var (report, position') := Progress(hooks, size, next, position);
      [Sender.SendBinary(Slice(data, byteStart, next))] + report + Upload(hooks, data, size, next, position')
  }

  /** The frames a trace sends, in order. */
  function Frames(effects: seq<Effect>): (r: seq<seq<byte>>)
    ensures |r| <= |effects|
  {
    if effects == [] then []
    else (if effects[0].SendBinary? then [effects[0].chunk] else []) + Frames(effects[1..])
  }

  /** `n` consecutive strides of the array from `start`, each cut with
      JavaScript's clamping `slice`. */
  function Strides(data: seq<byte>, start: nat, n: nat): (r: seq<seq<byte>>)
    ensures |r| == n
    decreases n
  {
    if n == 0 then [] else [Slice(data, start, start + BUFFER_SIZE)] + Strides(data, start + BUFFER_SIZE, n - 1)
  }

  // ---------------------------------------------------------------------
  // The dispatcher

  /** A file as the current sender holds it: the same descriptor, with its
      array in memory. */
  function AsCurrent(f: File): Sender.File
  {
    Sender.File(f.name, f.size, f.mediaType, Sender.InMemory(f.data))
  }

  /** `_sendRequests`: the manifest is the files without their data, built
      as the current sender builds it. */
  function Manifest(files: seq<File>): (r: seq<Descriptor>)
    ensures |r| == |files|
    ensures forall i :: 0 <= i < |files| ==>
      r[i] == Descriptor(files[i].name, files[i].size, files[i].mediaType)
  {
    Sender.Descriptors(seq(|files|, i requires 0 <= i < |files| => AsCurrent(files[i])))
  }

  /** `eventReducer`: throw on an undefined cell; otherwise set the new state,
      then run the actions, the first error propagating to the caller. */
  function Dispatch(s: Engine, e: Event): (r: (Engine, Outcome))
    ensures r.0.files == s.files && r.0.hooks == s.hooks && s.trace <= r.0.trace
    decreases EventRank(e), 2, 0
  {
    match Lookup(e, s.state)
    case None => (s, Sender.Thrown(Sender.UndefinedCell(e, s.state)))
    case Some(cell) =>
      CellRanks(e, s.state);
      RunActions(s.(state := cell.newState), cell.actions, EventRank(e))
  }

  function RunActions(s: Engine, actions: seq<Action>, rank: nat): (r: (Engine, Outcome))
    requires forall a :: a in actions ==> ActionRank(a) <= rank
    ensures r.0.files == s.files && r.0.hooks == s.hooks && s.trace <= r.0.trace
    decreases rank, 1, |actions|
  {
    if actions == [] then (s, Sender.Done)
    else
      var (s1, o1) := Act(s, actions[0]);
      if o1.Thrown? then (s1, o1) else RunActions(s1, actions[1..], rank)
  }

  /** `actionReducer`. Reading the size of a file past the end of the
      manifest is a TypeError, which is the `NoSuchFile` fault here. */
  function Act(s: Engine, a: Action): (r: (Engine, Outcome))
    ensures r.0.files == s.files && r.0.hooks == s.hooks && s.trace <= r.0.trace
    decreases ActionRank(a), 0, 0
  {
    match a
    case SendFileRequest =>
      (s.(trace := s.trace + [Sender.SendManifest(Manifest(s.files))]), Sender.Done)
    case UploadFile =>
      if s.currentFile < |s.files| then
        var f := s.files[s.currentFile];
        (s.(trace := s.trace + Upload(s.hooks, f.data, f.size, 0, f.size)), Sender.Done)
      else (s, Sender.Thrown(Sender.NoSuchFile(s.currentFile)))
    case IncrementFileIndex =>
      var s1 := s.(currentFile := s.currentFile + 1);
      if s1.currentFile < |s.files| then (s1, Sender.Done)
      else AfterExit(Dispatch(s1, ExitFileUpload))
    case Quit =>
      (s.(trace := s.trace + Sender.QuitEffects(s.hooks)), Sender.Done)
  }

  /** What IncrementFileIndex does once the re-entered `exitFileUpload`
      returns: an error propagates, otherwise `onsuccess` runs. */
  function AfterExit(exit: (Engine, Outcome)): (r: (Engine, Outcome))
    ensures r.1.Thrown? <==> exit.1.Thrown?
    ensures !exit.1.Thrown? ==> r.1 == Sender.Done
    ensures r.0 == exit.0.(trace := r.0.trace) && exit.0.trace <= r.0.trace
    ensures exit.1.Thrown? ==> r == exit
    ensures !exit.1.Thrown? ==>
      r.0.trace == exit.0.trace + (if exit.0.hooks.onsuccess then [Sender.OnSuccess] else [])
  {
    if exit.1.Thrown? then exit
    else ((if exit.0.hooks.onsuccess then exit.0.(trace := exit.0.trace + [Sender.OnSuccess]) else exit.0), Sender.Done)
  }

  /** `_connHandler`: a control frame from the receiver, by its `Type`. */
  function Receive(s: Engine, tag: string): (r: (Engine, Outcome))
    ensures r.0.files == s.files && r.0.hooks == s.hooks && s.trace <= r.0.trace
  {
    if tag == "start" then
      Dispatch(if s.hooks.onstart then s.(trace := s.trace + [Sender.OnStart]) else s, BeginFileUpload)
    else if tag == "exit" then Dispatch(s, ExitFileUpload)
    else if tag == "complete" then Dispatch(s, UploadComplete)
    else (s, Sender.Done)
  }

  // ---------------------------------------------------------------------
  // The engine object

  class Transfer {
    const files: seq<File>
    const hooks: Hooks
    var state: State
    var currentFile: nat
    var trace: seq<Effect>

    function Snapshot(): Engine
      reads this
    {
      Engine(files, hooks, state, currentFile, trace)
    }

    constructor (files: seq<File>, hooks: Hooks)
      ensures Snapshot() == Engine(files, hooks, Initial, 0, [])
    {
      this.files := files;
      this.hooks := hooks;
      state := Initial;
      currentFile := 0;
      trace := [];
    }

    /** The connection opened. */
    method OnOpen() returns (o: Outcome)
      modifies this
      ensures (Snapshot(), o) == Dispatch(old(Snapshot()), Start)
    {
      o := EventReducer(Start);
    }

    method ConnHandler(tag: string) returns (o: Outcome)
      modifies this
      ensures (Snapshot(), o) == Receive(old(Snapshot()), tag)
    {
      if tag == "start" {
        if hooks.onstart {
          trace := trace + [Sender.OnStart];
        }
        o := EventReducer(BeginFileUpload);
      } else if tag == "exit" {
        o := EventReducer(ExitFileUpload);
      } else if tag == "complete" {
        o := EventReducer(UploadComplete);
      } else {
        o := Sender.Done;
      }
    }

    /** `cancel`: quit whatever the state. */
    method Cancel() returns (o: Outcome)
      modifies this
      ensures (Snapshot(), o) == Act(old(Snapshot()), Quit)
    {
      o := ActionReducer(Quit);
    }

    method EventReducer(e: Event) returns (o: Outcome)
      modifies this
      ensures (Snapshot(), o) == Dispatch(old(Snapshot()), e)
      decreases EventRank(e), 2, 0
    {
      var cell := Lookup(e, state);
      if cell.None? {
        return Sender.Thrown(Sender.UndefinedCell(e, state));
      }
      CellRanks(e, state);
      var actions := cell.value.actions;
      state := cell.value.newState;
      ghost var start := Snapshot();
      for i := 0 to |actions|
        invariant RunActions(start, actions, EventRank(e)) == RunActions(Snapshot(), actions[i..], EventRank(e))
      {
        assert actions[i..][1..] == actions[i + 1..];
        var o1 := ActionReducer(actions[i]);
        if o1.Thrown? {
          return o1;
        }
      }
      o := Sender.Done;
    }

    method ActionReducer(a: Action) returns (o: Outcome)
      modifies this
      ensures (Snapshot(), o) == Act(old(Snapshot()), a)
      decreases ActionRank(a), 0, 0
    {
      match a
      case SendFileRequest =>
        trace := trace + [Sender.SendManifest(Manifest(files))];
        o := Sender.Done;
      case UploadFile =>
        if currentFile >= |files| {
          o := Sender.Thrown(Sender.NoSuchFile(currentFile));
          return;
        }
        var f := files[currentFile];
        SendFile(f.data, f.size);
        o := Sender.Done;
      case IncrementFileIndex =>
        currentFile := currentFile + 1;
        if currentFile >= |files| {
          o := EventReducer(ExitFileUpload);
          if o.Thrown? {
            return;
          }
          if hooks.onsuccess {
            trace := trace + [Sender.OnSuccess];
          }
        }
        o := Sender.Done;
      case Quit =>
        trace := trace + [Sender.CloseConnection];
        if hooks.onclose {
          trace := trace + [Sender.OnClose];
        }
        assert trace == old(trace) + Sender.QuitEffects(hooks);
        o := Sender.Done;
    }

    /** The upload loop of `UploadFile`: `bytesRemaining` counts down from
        the declared size by whole strides, whatever the array holds. */
    method SendFile(data: seq<byte>, size: nat)
      modifies this`trace
      ensures trace == old(trace) + Upload(hooks, data, size, 0, size)
    {
      var bytesRemaining: int := size;
      var byteStart: nat := 0;
      var updatePosition: nat := size;
      while bytesRemaining > 0
        invariant bytesRemaining + byteStart == size
        invariant byteStart % BUFFER_SIZE == 0
        invariant trace + Upload(hooks, data, size, byteStart, updatePosition)
                  == old(trace) + Upload(hooks, data, size, 0, size)
        decreases bytesRemaining
      {
        ghost var (before, b0, p0) := (trace, byteStart, updatePosition);
        trace := trace + [Sender.SendBinary(Slice(data, byteStart, byteStart + BUFFER_SIZE))];
        bytesRemaining := bytesRemaining - BUFFER_SIZE;
        byteStart := byteStart + BUFFER_SIZE;
        if hooks.onprogress && 16 * byteStart > updatePosition {
          trace := trace + [Sender.OnProgress(if byteStart < size then byteStart else size, size)];
          updatePosition := updatePosition + size;
        }
        assert Progress(hooks, size, byteStart, p0).0 == trace[|before| + 1..];
        UploadStep(hooks, data, size, b0, p0, before, trace, updatePosition);
      }
    }
  }

  /** One turn of `Upload`: the frame, the report if one fires, the rest. */
  lemma UploadUnfold(hooks: Hooks, data: seq<byte>, size: nat, byteStart: nat, position: nat)
    requires byteStart < size
    ensures var next := byteStart + BUFFER_SIZE;
      var check := Progress(hooks, size, next, position);
      Upload(hooks, data, size, byteStart, position)
      == [Sender.SendBinary(Slice(data, byteStart, next))] + check.0 + Upload(hooks, data, size, next, check.1)
  {
  }

  /** One turn of the loop is the first part of what `Upload` prescribes. */
  lemma UploadStep(hooks: Hooks, data: seq<byte>, size: nat, byteStart: nat, position: nat,
                   before: seq<Effect>, after: seq<Effect>, position': nat)
    requires byteStart < size
    requires var next := byteStart + BUFFER_SIZE;
      var check := Progress(hooks, size, next, position);
      after == before + [Sender.SendBinary(Slice(data, byteStart, next))] + check.0 && position' == check.1
    ensures after + Upload(hooks, data, size, byteStart + BUFFER_SIZE, position')
            == before + Upload(hooks, data, size, byteStart, position)
  {
    var next := byteStart + BUFFER_SIZE;
    var frame := [Sender.SendBinary(Slice(data, byteStart, next))];
    var report := Progress(hooks, size, next, position).0;
    var rest := Upload(hooks, data, size, next, position');
    UploadUnfold(hooks, data, size, byteStart, position);
    assert (before + frame + report) + rest == before + (frame + report + rest);
  }

  // ---------------------------------------------------------------------
  // What the loop sends

  lemma {:induction false} FramesAppend(a: seq<Effect>, b: seq<Effect>)
    ensures Frames(a + b) == Frames(a) + Frames(b)
  {
    if a == [] {
      assert a + b == b;
    } else {
      var head := if a[0].SendBinary? then [a[0].chunk] else [];
      assert (a + b)[0] == a[0] && (a + b)[1..] == a[1..] + b;
      assert Frames(a + b) == head + Frames(a[1..] + b);
      FramesAppend(a[1..], b);
      assert Frames(a) == head + Frames(a[1..]);
      assert head + (Frames(a[1..]) + Frames(b)) == (head + Frames(a[1..])) + Frames(b);
    }
  }

  /** The bytes a trace sends are its frames laid end to end. */
  lemma {:induction false} BinaryIsFrames(effects: seq<Effect>)
    ensures Sender.Binary(effects) == Concat(Frames(effects))
  {
    if effects != [] {
      BinaryIsFrames(effects[1..]);
      if effects[0].SendBinary? {
        var f := Frames(effects);
        assert f == [effects[0].chunk] + Frames(effects[1..]);
        assert f[0] == effects[0].chunk && f[1..] == Frames(effects[1..]);
        assert Concat(f) == f[0] + Concat(f[1..]);
        assert Sender.Binary(effects) == effects[0].chunk + Sender.Binary(effects[1..]);
      } else {
        var e: seq<seq<byte>>, b: seq<byte> := [], [];
        assert Frames(effects) == e + Frames(effects[1..]) == Frames(effects[1..]);
        assert Sender.Binary(effects) == b + Sender.Binary(effects[1..]) == Sender.Binary(effects[1..]);
      }
    }
  }

  lemma ChunksStep(n: int)
    requires n > 0
    ensures Chunks(n) == 1 + Chunks(n - BUFFER_SIZE)
  {
  }

  /** The loop sends one frame per started stride of the declared size,
      each frame the array's slice at that stride, whatever the array's
      length, and reports nothing else as a frame. */
  lemma {:induction false} UploadFrames(hooks: Hooks, data: seq<byte>, size: nat, byteStart: nat, position: nat)
    ensures Frames(Upload(hooks, data, size, byteStart, position)) == Strides(data, byteStart, Chunks(size - byteStart))
    decreases size - byteStart
  {
    if byteStart < size {
      var next := byteStart + BUFFER_SIZE;
      var frame := [Sender.SendBinary(Slice(data, byteStart, next))];
      var check := Progress(hooks, size, next, position);
      var report := check.0;
      var rest := Upload(hooks, data, size, next, check.1);
      UploadUnfold(hooks, data, size, byteStart, position);
      UploadFrames(hooks, data, size, next, check.1);
      FramesAppend(frame, report);
      FramesAppend(frame + report, rest);
      assert Frames(report) == [] by {
        if report != [] {
          assert report[1..] == [];
        }
      }
      assert Frames(frame) == [Slice(data, byteStart, next)] by {
        assert frame[1..] == [];
      }
      ChunksStep(size - byteStart);
    }
  }

  /** The `k`-th frame is the stride at `k * BUFFER_SIZE` past the start. */
  lemma {:induction false} StridesAt(data: seq<byte>, start: nat, n: nat, k: nat, at: nat)
    requires k < n && at == start + k * BUFFER_SIZE
    ensures Strides(data, start, n)[k] == Slice(data, at, at + BUFFER_SIZE)
    decreases k
  {
    if k > 0 {
      StridesTail(data, start, n, k);
      StrideOffset(start, k);
      StridesAt(data, start + BUFFER_SIZE, n - 1, k - 1, at);
      assert Strides(data, start, n)[k] == Slice(data, at, at + BUFFER_SIZE);
    } else {
      assert at == start;
      assert Strides(data, start, n)[0] == Slice(data, start, start + BUFFER_SIZE);
      assert Strides(data, start, n)[k] == Slice(data, at, at + BUFFER_SIZE);
    }
  }

  /** Past the first stride, the strides are those from one stride on. */
  lemma StridesTail(data: seq<byte>, start: nat, n: nat, k: nat)
    requires 0 < k < n
    ensures Strides(data, start, n)[k] == Strides(data, start + BUFFER_SIZE, n - 1)[k - 1]
  {
    assert Strides(data, start, n)
        == [Slice(data, start, start + BUFFER_SIZE)] + Strides(data, start + BUFFER_SIZE, n - 1);
  }

  lemma StrideOffset(start: nat, k: nat)
    requires k > 0
    ensures start + BUFFER_SIZE + (k - 1) * BUFFER_SIZE == start + k * BUFFER_SIZE
  {
  }

  /** Consecutive slices of an array join up. */
  lemma SliceJoin(data: seq<byte>, a: nat, b: nat, c: nat)
    requires a <= b <= c
    ensures Slice(data, a, b) + Slice(data, b, c) == Slice(data, a, c)
  {
    if b <= |data| {
      assert data[a..b] + data[b..Min(c, |data|)] == data[a..Min(c, |data|)];
    }
  }

  /** Strides laid end to end are one slice of the array. */
  lemma {:induction false} StridesJoin(data: seq<byte>, start: nat, n: nat, end: nat)
    requires end == start + n * BUFFER_SIZE
    ensures Concat(Strides(data, start, n)) == Slice(data, start, end)
    decreases n
  {
    if n > 0 {
      var mid := start + BUFFER_SIZE;
      StridesFirst(data, start, n);
      StrideOffset(start, n);
      StridesJoin(data, mid, n - 1, end);
      SliceJoin(data, start, mid, end);
      assert Concat(Strides(data, start, n)) == Slice(data, start, end);
    }
  }

  /** The strides are the first one and the strides from one stride on. */
  lemma StridesFirst(data: seq<byte>, start: nat, n: nat)
    requires n > 0
    ensures Concat(Strides(data, start, n))
            == Slice(data, start, start + BUFFER_SIZE) + Concat(Strides(data, start + BUFFER_SIZE, n - 1))
  {
    var s := Strides(data, start, n);
    assert s[0] == Slice(data, start, start + BUFFER_SIZE) && s[1..] == Strides(data, start + BUFFER_SIZE, n - 1);
  }

  /** A file whose array is exactly its declared size is sent byte for byte,
      in `Chunks(size)` frames. */
  lemma ExactFileSentWhole(hooks: Hooks, data: seq<byte>)
    ensures var t := Upload(hooks, data, |data|, 0, |data|);
      Sender.Binary(t) == data && |Frames(t)| == Chunks(|data|)
  {
    var t := Upload(hooks, data, |data|, 0, |data|);
    UploadFrames(hooks, data, |data|, 0, |data|);
    BinaryIsFrames(t);
    StridesJoin(data, 0, Chunks(|data|), Chunks(|data|) * BUFFER_SIZE);
    assert Chunks(|data|) * BUFFER_SIZE >= |data|;
  }

  /** Both senders put the same bytes on the wire for an in-memory file of
      its exact size. */
  lemma SendersAgree(hooks: Hooks, data: seq<byte>)
    ensures Sender.Binary(Upload(hooks, data, |data|, 0, |data|))
            == Sender.Binary(Sender.Upload(hooks, Sender.Windows(data, 0), |data|, 0, 0))
  {
    ExactFileSentWhole(hooks, data);
    Sender.InMemoryUploadSendsData(hooks, data);
  }

  // ---------------------------------------------------------------------
  // What the loop reports

  /** Reports only fire when `onprogress` is installed. */
  lemma {:induction false} NoHookNoReports(hooks: Hooks, data: seq<byte>, size: nat, byteStart: nat, position: nat)
    requires !hooks.onprogress
    ensures Sender.Reports(Upload(hooks, data, size, byteStart, position)) == []
    decreases size - byteStart
  {
    if byteStart < size {
      var next := byteStart + BUFFER_SIZE;
      var frame := [Sender.SendBinary(Slice(data, byteStart, next))];
      UploadUnfold(hooks, data, size, byteStart, position);
      NoHookNoReports(hooks, data, size, next, position);
      ReportsSplit(frame, [], Upload(hooks, data, size, next, position));
      assert frame + [] == frame;
    }
  }

  /** The reported amounts rise strictly, each past the point the loop
      started from and none beyond the size. */
  lemma {:induction false} ProgressIncreases(hooks: Hooks, data: seq<byte>, size: nat, byteStart: nat, position: nat)
    ensures Sender.ReportsWithin(Sender.Reports(Upload(hooks, data, size, byteStart, position)), byteStart, size)
    decreases size - byteStart
  {
    if byteStart < size {
      var next := byteStart + BUFFER_SIZE;
      var check := Progress(hooks, size, next, position);
      var frame := [Sender.SendBinary(Slice(data, byteStart, next))];
      var rest := Upload(hooks, data, size, next, check.1);
      var later := Sender.Reports(rest);
      UploadUnfold(hooks, data, size, byteStart, position);
      ReportsSplit(frame, check.0, rest);
      ProgressIncreases(hooks, data, size, next, check.1);
      if next >= size {
        assert rest == [];
      }
      ReportStep(size, byteStart, next, check.0, later);
    }
  }

  /** Every report in `t` is the end of the stride its last frame sent,
      counting a whole stride from `at` for each frame and capping at
      `size`, out of `size`. */
  predicate StrideReports(t: seq<Effect>, at: nat, size: nat)
    decreases |t|
  {
    t == [] ||
    if t[0].OnProgress? then t[0] == Sender.OnProgress(Min(at, size), size) && StrideReports(t[1..], at, size)
    else if t[0].SendBinary? then StrideReports(t[1..], at + BUFFER_SIZE, size)
    else StrideReports(t[1..], at, size)
  }

  /** The loop's reports count strides, and there is at most one per frame. */
  lemma {:induction false} UploadStrideReports(hooks: Hooks, data: seq<byte>, size: nat, byteStart: nat, position: nat)
    ensures var t := Upload(hooks, data, size, byteStart, position);
      StrideReports(t, byteStart, size) && |Sender.Reports(t)| <= |Frames(t)|
    decreases size - byteStart
  {
    if byteStart < size {
      var next := byteStart + BUFFER_SIZE;
      var check := Progress(hooks, size, next, position);
      var frame := [Sender.SendBinary(Slice(data, byteStart, next))];
      var report := check.0;
      var rest := Upload(hooks, data, size, next, check.1);
      var t := frame + report + rest;
      UploadUnfold(hooks, data, size, byteStart, position);
      UploadStrideReports(hooks, data, size, next, check.1);
      assert t[0] == frame[0] && t[1..] == report + rest;
      if report != [] {
        assert (report + rest)[0] == report[0] && (report + rest)[1..] == rest;
      } else {
        assert report + rest == rest;
      }
      assert StrideReports(t, byteStart, size);
      ReportsSplit(frame, report, rest);
      FramesAppend(frame, report);
      FramesAppend(frame + report, rest);
      assert |Frames(frame)| == 1 by {
        assert frame[1..] == [];
      }
      assert |Sender.Reports(report)| <= |report| <= 1 by {
        if report != [] {
          assert report[1..] == [];
        }
      }
    }
  }

  /** The `i`-th effect, if a report, gives the end of the stride sent by
      the frames before it. */
  lemma {:induction false} StrideReportAt(t: seq<Effect>, at: nat, size: nat, i: nat)
    requires StrideReports(t, at, size) && i < |t| && t[i].OnProgress?
    ensures t[i] == Sender.OnProgress(Min(at + |Frames(t[..i])| * BUFFER_SIZE, size), size)
    decreases i
  {
    if i == 0 {
      assert t[..0] == [];
    } else {
      var head := t[..1];
      var pre := t[1..][..i - 1];
      var n := |Frames(pre)|;
      assert t[1..][i - 1] == t[i];
      assert t[..i] == head + pre;
      FramesAppend(head, pre);
      assert head[1..] == [];
      if t[0].SendBinary? {
        StrideReportAt(t[1..], at + BUFFER_SIZE, size, i - 1);
        assert |Frames(head)| == 1;
        StrideOffset(at, n + 1);
      } else {
        StrideReportAt(t[1..], at, size, i - 1);
        assert |Frames(head)| == 0;
      }
    }
  }

  /** Each progress report of a whole upload gives the end of the stride
      its frames so far have reached, capped at the size; reports never
      outnumber frames. */
  lemma ProgressValues(hooks: Hooks, data: seq<byte>, size: nat)
    ensures var t := Upload(hooks, data, size, 0, size);
      && |Sender.Reports(t)| <= |Frames(t)|
      && forall i :: 0 <= i < |t| && t[i].OnProgress? ==>
           t[i] == Sender.OnProgress(Min(|Frames(t[..i])| * BUFFER_SIZE, size), size)
  {
    var t := Upload(hooks, data, size, 0, size);
    UploadStrideReports(hooks, data, size, 0, size);
    forall i | 0 <= i < |t| && t[i].OnProgress?
      ensures t[i] == Sender.OnProgress(Min(|Frames(t[..i])| * BUFFER_SIZE, size), size)
    {
      StrideReportAt(t, 0, size, i);
    }
  }

  lemma ReportsSplit(frame: seq<Effect>, report: seq<Effect>, rest: seq<Effect>)
    requires |frame| == 1 && frame[0].SendBinary?
    ensures Sender.Reports(frame + report + rest) == Sender.Reports(report) + Sender.Reports(rest)
  {
    var fr := frame + report;
    assert Sender.Reports(frame) == [] by {
      assert frame[1..] == [];
      assert Sender.Reports(frame) == [] + Sender.Reports([]);
    }
    Sender.BinaryAppend(frame, report);
    assert Sender.Reports(fr) == Sender.Reports(report);
    Sender.BinaryAppend(fr, rest);
  }

  lemma ReportStep(size: nat, byteStart: nat, next: nat, report: seq<Effect>, later: seq<nat>)
    requires byteStart < size && next == byteStart + BUFFER_SIZE
    requires report == [] || report == [Sender.OnProgress(Min(next, size), size)]
    requires Sender.ReportsWithin(later, next, size)
    requires next >= size ==> later == []
    ensures Sender.ReportsWithin(Sender.Reports(report) + later, byteStart, size)
  {
    if report == [] {
      assert Sender.Reports(report) + later == later;
    } else {
      assert report[1..] == [];
      assert Sender.Reports(report) == [Min(next, size)];
      Sender.ConsIncreasing(Min(next, size), later);
    }
  }

  // ---------------------------------------------------------------------
  // The table at work

  /** Running a cell's one action is running that action. */
  lemma OneAction(s: Engine, a: Action, rank: nat)
    requires ActionRank(a) <= rank
    ensures RunActions(s, [a], rank) == Act(s, a)
  {
    assert [a][0] == a && [a][1..] == [];
  }

  lemma UndefinedCellThrows(s: Engine, e: Event)
    requires Lookup(e, s.state).None?
    ensures Dispatch(s, e) == (s, Sender.Thrown(Sender.UndefinedCell(e, s.state)))
  {
  }

  /** `start` in INITIAL sends the manifest and waits for the receiver. */
  lemma StartStep(s: Engine)
    requires s.state == Initial
    ensures Dispatch(s, Start)
            == (s.(state := WaitingToStart, trace := s.trace + [Sender.SendManifest(Manifest(s.files))]), Sender.Done)
  {
    var s1 := s.(state := WaitingToStart);
    assert Dispatch(s, Start) == RunActions(s1, [SendFileRequest], 0);
    OneAction(s1, SendFileRequest, 0);
  }

  /** `beginFileUpload` while waiting uploads the current file whole; past
      the end of the manifest it throws, after the state change. */
  lemma BeginStep(s: Engine)
    requires s.state == WaitingToStart
    ensures s.currentFile < |s.files| ==>
      var f := s.files[s.currentFile];
      Dispatch(s, BeginFileUpload)
      == (s.(state := WaitingForCompletion, trace := s.trace + Upload(s.hooks, f.data, f.size, 0, f.size)), Sender.Done)
    ensures s.currentFile >= |s.files| ==>
      Dispatch(s, BeginFileUpload) == (s.(state := WaitingForCompletion), Sender.Thrown(Sender.NoSuchFile(s.currentFile)))
  {
    var s1 := s.(state := WaitingForCompletion);
    assert Dispatch(s, BeginFileUpload) == RunActions(s1, [UploadFile], 0);
    OneAction(s1, UploadFile, 0);
  }

  /** `exitFileUpload` in a waiting state: back to INITIAL, closing. */
  lemma ExitStep(s: Engine)
    requires s.state != Initial
    ensures Dispatch(s, ExitFileUpload)
            == (s.(state := Initial, trace := s.trace + Sender.QuitEffects(s.hooks)), Sender.Done)
  {
    var s1 := s.(state := Initial);
    assert Dispatch(s, ExitFileUpload) == RunActions(s1, [Quit], 1);
    OneAction(s1, Quit, 1);
  }

  lemma IncrementUnfold(s: Engine)
    ensures s.currentFile + 1 < |s.files| ==>
      Act(s, IncrementFileIndex) == (s.(currentFile := s.currentFile + 1), Sender.Done)
    ensures s.currentFile + 1 >= |s.files| ==>
      Act(s, IncrementFileIndex) == AfterExit(Dispatch(s.(currentFile := s.currentFile + 1), ExitFileUpload))
  {
    var s1 := s.(currentFile := s.currentFile + 1);
    if s1.currentFile < |s.files| {
      assert Act(s, IncrementFileIndex) == (s1, Sender.Done);
    } else {
      assert Act(s, IncrementFileIndex) == AfterExit(Dispatch(s1, ExitFileUpload));
    }
  }

  /** IncrementFileIndex while waiting to start: the cursor moves on; past
      the last file the re-entered `exitFileUpload` quits into INITIAL, and
      only then does `onsuccess` run. */
  lemma IncrementStep(s: Engine)
    requires s.state == WaitingToStart
    ensures s.currentFile + 1 < |s.files| ==>
      Act(s, IncrementFileIndex) == (s.(currentFile := s.currentFile + 1), Sender.Done)
    ensures s.currentFile + 1 >= |s.files| ==>
      Act(s, IncrementFileIndex)
      == (s.(state := Initial, currentFile := s.currentFile + 1,
             trace := s.trace + Sender.QuitEffects(s.hooks) + (if s.hooks.onsuccess then [Sender.OnSuccess] else [])),
          Sender.Done)
  {
    IncrementUnfold(s);
    var s2 := s.(currentFile := s.currentFile + 1);
    if s2.currentFile >= |s.files| {
      ExitStep(s2);
      var s3 := s2.(state := Initial, trace := s.trace + Sender.QuitEffects(s.hooks));
      var success: seq<Effect> := if s.hooks.onsuccess then [Sender.OnSuccess] else [];
      if !s.hooks.onsuccess {
        assert s3.trace + success == s3.trace;
      }
      assert AfterExit((s3, Sender.Done)) == (s3.(trace := s3.trace + success), Sender.Done);
    }
  }

  /** `uploadComplete` after the last file: the connection is closed (and
      `onclose` runs) before `onsuccess`, the reverse of the current sender. */
  lemma CompleteStep(s: Engine)
    requires s.state == WaitingForCompletion
    ensures s.currentFile + 1 < |s.files| ==>
      Dispatch(s, UploadComplete) == (s.(state := WaitingToStart, currentFile := s.currentFile + 1), Sender.Done)
    ensures s.currentFile + 1 >= |s.files| ==>
      Dispatch(s, UploadComplete)
      == (s.(state := Initial, currentFile := s.currentFile + 1,
             trace := s.trace + Sender.QuitEffects(s.hooks) + (if s.hooks.onsuccess then [Sender.OnSuccess] else [])),
          Sender.Done)
  {
    var s1 := s.(state := WaitingToStart);
    assert Dispatch(s, UploadComplete) == RunActions(s1, [IncrementFileIndex], 2);
    OneAction(s1, IncrementFileIndex, 2);
    IncrementStep(s1);
  }

  /** Cancelling quits from any state, leaving the table state alone. */
  lemma CancelQuits(s: Engine)
    ensures Act(s, Quit) == (s.(trace := s.trace + Sender.QuitEffects(s.hooks)), Sender.Done)
  {
  }
}
