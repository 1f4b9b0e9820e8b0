/** The browser receiver: `listenEvents` turns WebSocket messages into
    events, and `Receiver` checks each event against its state, allocates a
    sink per requested file when the user accepts, routes data to the sink
    at the cursor, and moves the cursor on whenever a sink reports that it
    is finished. */
module BrowserReceiver {
  import opened Common
  import opened ReceiverStates

  /** A file as the manifest describes it; `Size` is a JSON number. */
  datatype File = File(name: string, size: int, mediaType: string)

  /** `Signals`: a parsed control message. Its `Files` may be absent,
      which is `None`. */
  datatype Control = Control(kind: string, files: Option<seq<File>>)

  /** A message by the constructor of its data: a string (already parsed as
      JSON), a `Blob`, or anything else, read as a byte array. */
  datatype Message = Text(control: Control) | BlobData(bytes: seq<byte>) | BufferData(bytes: seq<byte>)

  /** `EventObjects`: what `listenEvents` hands to the receiver. The user's
      decision is not among them; it arrives as the result of `onRequest`. */
  datatype EventObject =
    | Connected
    | Requests(files: Option<seq<File>>)
    | Contents(contents: seq<byte>, length: nat)
    | Finished

  function Kind(e: EventObject): Event
  {
    match e
    case Connected => PeerConnect
    case Requests(_) => ReceiveRequests
    case Contents(_, _) => ReceiveContents
    case Finished => ReceiveDone
  }

  // ---------------------------------------------------------------------
  // listenEvents

  /** `onmessage`: a "files" control message is a request, any other
      control message is dropped, and binary data of either kind is content
      whose length is its byte size. */
  function Classify(m: Message): (r: Option<EventObject>)
    ensures r.None? <==> m.Text? && m.control.kind != "files"
    ensures r.Some? && r.value.Contents? ==> r.value.length == |r.value.contents|
  {
    match m
    case Text(control) => if control.kind == "files" then Some(Requests(control.files)) else None
    case BlobData(bytes) => Some(Contents(bytes, |bytes|))
    case BufferData(bytes) => Some(Contents(bytes, |bytes|))
  }

  /** The events of a sequence of messages, in arrival order. */
  function Classified(messages: seq<Message>): (r: seq<EventObject>)
    ensures |r| <= |messages|
  {
    if messages == [] then []
    else
      var rest := Classified(messages[1..]);
      match Classify(messages[0])
      case None => rest
      case Some(e) => [e] + rest
  }

  /** All events of a connection: PEER_CONNECT, at once if the socket is
      already open and otherwise when it opens, then the messages'. */
  function Listen(messages: seq<Message>): (r: seq<EventObject>)
    ensures 1 <= |r| <= |messages| + 1 && r[0] == Connected
  {
    [Connected] + Classified(messages)
  }

  lemma ClassifyCases(m: Message)
    ensures m.Text? ==> (Classify(m).Some? <==> m.control.kind == "files")
    ensures m.Text? && m.control.kind == "files" ==> Classify(m) == Some(Requests(m.control.files))
    ensures !m.Text? ==> Classify(m) == Some(Contents(m.bytes, |m.bytes|))
  {
  }

  /** Messages only ever give requests and contents, each content event
      carries its own byte length, and nothing is ever dropped but control
      messages that are not "files". */
  lemma {:induction false} ClassifiedEvents(messages: seq<Message>)
    ensures forall e :: e in Classified(messages) ==> Kind(e) == ReceiveRequests || Kind(e) == ReceiveContents
    ensures forall e :: e in Classified(messages) && e.Contents? ==> e.length == |e.contents|
    ensures |Classified(messages)| == |messages| - Dropped(messages)
    decreases |messages|
  {
    if messages != [] {
      ClassifiedEvents(messages[1..]);
    }
  }

  /** How many messages are control messages other than "files". */
  function Dropped(messages: seq<Message>): (r: nat)
    ensures r <= |messages|
  {
    if messages == [] then 0
    else (if messages[0].Text? && messages[0].control.kind != "files" then 1 else 0) + Dropped(messages[1..])
  }

  /** A connection's events begin with its one PEER_CONNECT, and never carry
      USER_ACCEPT, USER_DENY or RECEIVE_DONE. */
  lemma ListenEvents(messages: seq<Message>)
    ensures Listen(messages)[0] == Connected
    ensures forall i :: 0 < i < |Listen(messages)| ==> Listen(messages)[i] != Connected
    ensures forall e :: e in Listen(messages) ==> Kind(e) !in {UserAccept, UserDeny, ReceiveDone}
  {
    ClassifiedEvents(messages);
    var l := Listen(messages);
    forall i | 0 < i < |l|
      ensures l[i] != Connected
    {
      assert l[i] in Classified(messages);
    }
  }

  // ---------------------------------------------------------------------
  // Receiver

  /** Which optional hooks are set (`onRequest` is always set). */
  datatype Hooks = Hooks(onReceive: bool, onTransfersComplete: bool)

  /** One `writeAsync(contents, length)` on a sink. */
  datatype Write = Write(contents: seq<byte>, length: nat)

  /** A `WritableStream`: the size it was made with and the writes it has
      been given. How it stores bytes and when it finishes are its own. */
  datatype Sink = Sink(size: int, writes: seq<Write>)

  datatype Effect =
    | Send(tag: string)                      // a control message to the sender
    | OnRequest(files: Option<seq<File>>)    // hooks.onRequest
    | OnReceive(file: Option<File>, sink: nat)  // hooks.onReceive(file, outputs[sink])
    | OnTransfersComplete
    | CloseConnection

  /** The errors the receiver throws: an event in the wrong state, content
      with no sink at the cursor, and the TypeError of indexing `requests`
      while it is undefined. */
  datatype Fault = InvalidState(state: State, event: Event) | NoSink(index: nat) | UndefinedRequests

  datatype Outcome = Done | Thrown(fault: Fault)

  /** The receiver's fields; `requests` is `None` while undefined. */
  datatype Machine = Machine(state: State, requests: Option<seq<File>>, outputs: seq<Sink>, currentFile: nat,
                             trace: seq<Effect>)

  function Start(): Machine
  {
    Machine(Initial, None, [], 0, [])
  }

  /** The listener's handling of one event. */
  function Handle(m: Machine, e: EventObject): (r: (Machine, Outcome))
    ensures r.1.Thrown? ==> r.0 == m
    ensures r.0.currentFile == m.currentFile
    ensures r.0.trace == m.trace || (e.Requests? && r.0.trace == m.trace + [OnRequest(e.files)])
    ensures e.Connected? && m.state == Initial ==> r == (m.(state := ListeningRequests), Done)
    ensures e.Requests? && m.state == ListeningRequests ==>
      r == (m.(state := WaitingConfirmation, requests := e.files, trace := m.trace + [OnRequest(e.files)]), Done)
    ensures e.Finished? ==> r == (m, Done)
  {
    match e
    case Connected =>
      if m.state != Initial then (m, Thrown(InvalidState(m.state, PeerConnect)))
      else (m.(state := ListeningRequests), Done)
    case Requests(files) =>
      if m.state != ListeningRequests then (m, Thrown(InvalidState(m.state, ReceiveRequests)))
      else (m.(state := WaitingConfirmation, requests := files, trace := m.trace + [OnRequest(files)]), Done)
    case Contents(contents, length) =>
      var cf := m.currentFile;
      if m.state != Receiving then (m, Thrown(InvalidState(m.state, ReceiveContents)))
      else if cf >= |m.outputs| then (m, Thrown(NoSink(cf)))
      else (m.(outputs := m.outputs[cf := m.outputs[cf].(writes := m.outputs[cf].writes + [Write(contents, length)])]), Done)
    case Finished => (m, Done)
  }

  /** `hooks.onReceive?.(requests[i], outputs[i])`, if the hook is set. */
  function Announce(hooks: Hooks, requests: seq<File>, i: nat): (r: seq<Effect>)
    ensures |r| <= 1
  {
    if hooks.onReceive then [OnReceive(if i < |requests| then Some(requests[i]) else None, i)] else []
  }

  /** The outputs after `requests.map((f, i) => outputs[i] = new
      WritableStream(f.Size))`: a fresh sink per request, any older sinks
      past the requests kept. */
  function Allocate(outputs: seq<Sink>, requests: seq<File>): (r: seq<Sink>)
    ensures |r| == Max(|outputs|, |requests|)
    ensures forall i :: 0 <= i < |requests| ==> r[i] == Sink(requests[i].size, [])
    ensures forall i :: |requests| <= i < |r| ==> r[i] == outputs[i]
  {
    seq(Max(|outputs|, |requests|), i requires 0 <= i < Max(|outputs|, |requests|) =>
      if i < |requests| then Sink(requests[i].size, []) else outputs[i])
  }

  /** The user's answer to `onRequest`. Accepting undefined requests
      throws once the cursor is reset, before anything else happens. */
  function Choose(m: Machine, hooks: Hooks, accept: bool): (r: (Machine, Outcome))
    ensures r.1.Thrown? ==> r.0.state == m.state && r.0.outputs == m.outputs && r.0.trace == m.trace
    ensures r.1.Done? ==> r.0.state == (if accept then Receiving else Initial)
    ensures r.1.Done? ==> |r.0.trace| > |m.trace| && r.0.trace[|r.0.trace| - 1] == Send(if accept then "start" else "exit")
  {
    if m.state != WaitingConfirmation then (m, Thrown(InvalidState(m.state, if accept then UserAccept else UserDeny)))
    else if accept then
      match m.requests
      case None => (m.(currentFile := 0), Thrown(UndefinedRequests))
      case Some(requests) =>
        (m.(state := Receiving, currentFile := 0, outputs := Allocate(m.outputs, requests),
            trace := m.trace + Announce(hooks, requests, 0) + [Send("start")]), Done)
    else (m.(state := Initial, trace := m.trace + [Send("exit")]), Done)
  }

  /** A sink's `onFinish` listener. Every listener does the same, whichever
      sink it was registered on, and a listener exists only once some sink
      has been allocated, which only an accept of defined requests does,
      and nothing makes them undefined again. So the branch for undefined
      `requests`, where the source would throw on reading their length
      after "complete", is never reached; it is modelled as stopping after
      "complete", with no outcome. */
  function Finish(m: Machine, hooks: Hooks): (r: Machine)
    requires |m.outputs| > 0
    ensures r.currentFile == m.currentFile + 1 && r.outputs == m.outputs && r.requests == m.requests
    ensures m.trace + [Send("complete")] <= r.trace
  {
    var cf := m.currentFile + 1;
    var t := m.trace + [Send("complete")];
    if m.requests.None? then m.(currentFile := cf, trace := t)
    else if cf < |m.requests.value| then
      m.(currentFile := cf, trace := t + Announce(hooks, m.requests.value, cf) + [Send("start")])
    else
      m.(state := Initial, currentFile := cf,
         trace := t + (if hooks.onTransfersComplete then [OnTransfersComplete] else []) + [CloseConnection])
  }

  class Receiver {
    const hooks: Hooks
    var state: State
    var requests: Option<seq<File>>
    var outputs: seq<Sink>
    var currentFile: nat
    var trace: seq<Effect>

    function Snapshot(): Machine
      reads this
    {
      Machine(state, requests, outputs, currentFile, trace)
    }

    constructor (hooks: Hooks)
      ensures this.hooks == hooks && Snapshot() == Start()
    {
      this.hooks := hooks;
      state := Initial;
      requests := None;
      outputs := [];
      currentFile := 0;
      trace := [];
    }

    method OnEvent(e: EventObject) returns (o: Outcome)
      modifies this
      ensures (Snapshot(), o) == Handle(old(Snapshot()), e)
    {
      match e {
        case Connected =>
          if state != Initial {
            return Thrown(InvalidState(state, PeerConnect));
          }
          state := ListeningRequests;
        case Requests(files) =>
          if state != ListeningRequests {
            return Thrown(InvalidState(state, ReceiveRequests));
          }
          state := WaitingConfirmation;
          requests := files;
          trace := trace + [OnRequest(files)];
        case Contents(contents, length) =>
          if state != Receiving {
            return Thrown(InvalidState(state, ReceiveContents));
          }
          if currentFile >= |outputs| {
            return Thrown(NoSink(currentFile));
          }
          var sink := outputs[currentFile];
          outputs := outputs[currentFile := sink.(writes := sink.writes + [Write(contents, length)])];
        case Finished =>
      }
      o := Done;
    }

    /** The continuation of `onRequest`. */
    method OnChoice(accept: bool) returns (o: Outcome)
      modifies this
      ensures (Snapshot(), o) == Choose(old(Snapshot()), hooks, accept)
    {
      if state != WaitingConfirmation {
        return Thrown(InvalidState(state, if accept then UserAccept else UserDeny));
      }
      if accept {
        currentFile := 0;
        if requests.None? {
          return Thrown(UndefinedRequests);
        }
        ghost var before := outputs;
        var files := requests.value;
        for i := 0 to |files|
          invariant requests == Some(files) && trace == old(trace) && currentFile == 0 && state == old(state)
          invariant |outputs| == Max(|before|, i)
          invariant forall j :: 0 <= j < i ==> outputs[j] == Sink(files[j].size, [])
          invariant forall j :: i <= j < |outputs| ==> outputs[j] == before[j]
        {
          var sink := Sink(files[i].size, []);
          if i < |outputs| {
            outputs := outputs[i := sink];
          } else {
            outputs := outputs + [sink];
          }
        }
        assert outputs == Allocate(before, files);
        if hooks.onReceive {
          trace := trace + [OnReceive(if currentFile < |files| then Some(files[currentFile]) else None, currentFile)];
        }
        assert trace == old(trace) + Announce(hooks, files, 0);
        trace := trace + [Send("start")];
        state := Receiving;
        return Done;
      }
      state := Initial;
      trace := trace + [Send("exit")];
      o := Done;
    }

    /** The `onFinish` listener of a sink. */
    method OnFinish()
      requires |outputs| > 0
      modifies this
      ensures Snapshot() == Finish(old(Snapshot()), hooks)
    {
      currentFile := currentFile + 1;
      trace := trace + [Send("complete")];
      if requests.None? {
        return;
      }
      if currentFile < |requests.value| {
        if hooks.onReceive {
          trace := trace + [OnReceive(Some(requests.value[currentFile]), currentFile)];
        }
        trace := trace + [Send("start")];
      } else {
        state := Initial;
        if hooks.onTransfersComplete {
          trace := trace + [OnTransfersComplete];
        }
        trace := trace + [CloseConnection];
      }
    }
  }

  // ---------------------------------------------------------------------
  // What the receiver guarantees

  /** Each event is legal in exactly one state; an illegal one throws and
      changes nothing. Content with no sink at the cursor throws as well. */
  /** A new receiver that is connected and then gets a request list waits
      for the user's answer, holding the list and having shown it once, with
      no sink allocated and the cursor at 0. */
  lemma ConnectThenRequests(files: Option<seq<File>>)
    ensures var (m1, o1) := Handle(Start(), Connected);
      var (m2, o2) := Handle(m1, Requests(files));
      && o1 == Done && o2 == Done
      && m2.state == WaitingConfirmation && m2.requests == files
      && m2.outputs == [] && m2.currentFile == 0 && m2.trace == [OnRequest(files)]
  {
  }

  lemma EventLegality(m: Machine, e: EventObject)
    ensures Handle(m, e).1.Thrown? <==>
      || (e.Connected? && m.state != Initial)
      || (e.Requests? && m.state != ListeningRequests)
      || (e.Contents? && (m.state != Receiving || m.currentFile >= |m.outputs|))
    ensures Handle(m, e).1.Thrown? ==> Handle(m, e).0 == m
  {
  }

  /** The user's answer is acted on only while waiting for it, and an
      acceptance only when the requests are defined; accepting undefined
      requests changes nothing but the cursor. */
  lemma ChoiceLegality(m: Machine, hooks: Hooks, accept: bool)
    ensures Choose(m, hooks, accept).1.Thrown? <==>
      m.state != WaitingConfirmation || (accept && m.requests.None?)
    ensures m.state != WaitingConfirmation ==> Choose(m, hooks, accept).0 == m
    ensures m.state == WaitingConfirmation && accept && m.requests.None? ==>
      Choose(m, hooks, accept) == (m.(currentFile := 0), Thrown(UndefinedRequests))
  {
  }

  /** Accepting restarts the cursor, makes one sink of the right size per
      requested file (keeping any older sinks past them), announces file 0
      and only then sends "start", and enters RECEIVING. */
  lemma AcceptAllocates(m: Machine, hooks: Hooks)
    requires m.state == WaitingConfirmation && m.requests.Some?
    ensures var (m1, o) := Choose(m, hooks, true);
      var requests := m.requests.value;
      && o == Done && m1.state == Receiving && m1.currentFile == 0 && m1.requests == m.requests
      && |m1.outputs| >= |requests| && |m1.outputs| >= |m.outputs|
      && (forall i :: 0 <= i < |requests| ==> m1.outputs[i] == Sink(requests[i].size, []))
      && (forall i :: |requests| <= i < |m1.outputs| ==> m1.outputs[i] == m.outputs[i])
      && m1.trace == m.trace + Announce(hooks, requests, 0) + [Send("start")]
  {
  }

  /** Declining sends "exit", goes back to INITIAL, and allocates nothing. */
  lemma DenyAllocatesNothing(m: Machine, hooks: Hooks)
    requires m.state == WaitingConfirmation
    ensures Choose(m, hooks, false)
            == (m.(state := Initial, trace := m.trace + [Send("exit")]), Done)
    ensures Choose(m, hooks, false).0.outputs == m.outputs
  {
  }

  /** Content goes to the sink at the cursor and nowhere else, as one more
      write carrying the length known on arrival. */
  lemma ContentsRouting(m: Machine, contents: seq<byte>, length: nat)
    requires Handle(m, Contents(contents, length)).1 == Done
    ensures var m1 := Handle(m, Contents(contents, length)).0;
      var cf := m.currentFile;
      && cf < |m.outputs| && |m1.outputs| == |m.outputs|
      && m1.outputs[cf] == Sink(m.outputs[cf].size, m.outputs[cf].writes + [Write(contents, length)])
      && (forall i :: 0 <= i < |m.outputs| && i != cf ==> m1.outputs[i] == m.outputs[i])
      && m1 == m.(outputs := m1.outputs)
  {
  }

  /** While receiving, the sinks cover the requests with matching sizes and
      the cursor is on a requested file (or nothing was requested). */
  predicate Valid(m: Machine)
  {
    m.state == Receiving ==>
      && m.requests.Some?
      && |m.outputs| >= |m.requests.value|
      && (forall i :: 0 <= i < |m.requests.value| ==> m.outputs[i].size == m.requests.value[i].size)
      && (m.currentFile < |m.requests.value| || m.requests.value == [])
  }

  lemma HandlePreservesValid(m: Machine, e: EventObject)
    requires Valid(m)
    ensures Valid(Handle(m, e).0)
  {
  }

  lemma ChoosePreservesValid(m: Machine, hooks: Hooks, accept: bool)
    requires Valid(m)
    ensures Valid(Choose(m, hooks, accept).0)
  {
    if m.state == WaitingConfirmation && accept && m.requests.Some? {
      AcceptAllocates(m, hooks);
    }
  }

  lemma FinishPreservesValid(m: Machine, hooks: Hooks)
    requires Valid(m) && |m.outputs| > 0
    ensures Valid(Finish(m, hooks))
  {
  }

  /** A receiver that has been asked for at least one file and accepted
      always has a sink for the content it is given. */
  lemma NoMissingSink(m: Machine, contents: seq<byte>, length: nat)
    requires Valid(m) && m.state == Receiving && m.requests != Some([])
    ensures Handle(m, Contents(contents, length)).1 == Done
  {
  }

  /** Accepting an empty request list still sends "start" and enters
      RECEIVING, but allocates no sink: on a fresh receiver the first content
      then throws, and no sink exists to finish. */
  lemma EmptyAccept(m: Machine, hooks: Hooks, contents: seq<byte>, length: nat)
    requires m.state == WaitingConfirmation && m.requests == Some([]) && m.outputs == []
    ensures var (m1, o) := Choose(m, hooks, true);
      && o == Done && m1.state == Receiving && m1.outputs == []
      && m1.trace == m.trace + Announce(hooks, [], 0) + [Send("start")]
      && Handle(m1, Contents(contents, length)) == (m1, Thrown(NoSink(0)))
  {
  }

  // ---------------------------------------------------------------------
  // A whole transfer

  /** `n` sink completions in a row. */
  function Finishes(m: Machine, hooks: Hooks, n: nat): (r: Machine)
    requires |m.outputs| > 0
    ensures r.outputs == m.outputs && r.requests == m.requests
    decreases n
  {
    if n == 0 then m else Finishes(Finish(m, hooks), hooks, n - 1)
  }

  /** What the receiver says from the completion of the file before `next`
      to the end: "complete", then either the next file's announcement and
      "start", or the final hook and the close. */
  function Handoffs(hooks: Hooks, requests: seq<File>, next: nat): seq<Effect>
    decreases |requests| - next
  {
    [Send("complete")] +
    if next < |requests| then Announce(hooks, requests, next) + [Send("start")] + Handoffs(hooks, requests, next + 1)
    else (if hooks.onTransfersComplete then [OnTransfersComplete] else []) + [CloseConnection]
  }

  /** One completion per remaining file ends the transfer: INITIAL, the
      cursor past the last file, every file handed over in order, and the
      connection closed. */
  lemma {:induction false} FinishAll(m: Machine, hooks: Hooks, k: nat)
    requires m.state == Receiving && |m.outputs| > 0 && k >= 1
    requires m.requests.Some? && m.currentFile + k == |m.requests.value|
    ensures Finishes(m, hooks, k)
            == m.(state := Initial, currentFile := |m.requests.value|,
                  trace := m.trace + Handoffs(hooks, m.requests.value, m.currentFile + 1))
    decreases k
  {
    var m1 := Finish(m, hooks);
    var next := m.currentFile + 1;
    assert Finishes(m, hooks, k) == Finishes(m1, hooks, k - 1);
    if k == 1 {
      LastFinish(m, hooks);
    } else {
      var requests := m.requests.value;
      var step := [Send("complete")] + Announce(hooks, requests, next) + [Send("start")];
      MiddleFinish(m, hooks);
      FinishAll(m1, hooks, k - 1);
      var tail := Handoffs(hooks, requests, next + 1);
      assert Handoffs(hooks, requests, next) == step + tail;
      assert m.trace + step + tail == m.trace + (step + tail);
    }
  }

  /** A completion with files left: the next one is announced and started. */
  lemma MiddleFinish(m: Machine, hooks: Hooks)
    requires |m.outputs| > 0 && m.requests.Some? && m.currentFile + 1 < |m.requests.value|
    ensures Finish(m, hooks)
            == m.(currentFile := m.currentFile + 1,
                  trace := m.trace + ([Send("complete")] + Announce(hooks, m.requests.value, m.currentFile + 1) + [Send("start")]))
  {
    var a := Announce(hooks, m.requests.value, m.currentFile + 1);
    assert m.trace + [Send("complete")] + a + [Send("start")] == m.trace + ([Send("complete")] + a + [Send("start")]);
  }

  /** The completion of the last file ends the transfer. */
  lemma LastFinish(m: Machine, hooks: Hooks)
    requires |m.outputs| > 0 && m.requests.Some? && m.currentFile + 1 == |m.requests.value|
    ensures Finish(m, hooks)
            == m.(state := Initial, currentFile := |m.requests.value|,
                  trace := m.trace + Handoffs(hooks, m.requests.value, m.currentFile + 1))
  {
    var end: seq<Effect> := (if hooks.onTransfersComplete then [OnTransfersComplete] else []) + [CloseConnection];
    assert Handoffs(hooks, m.requests.value, m.currentFile + 1) == [Send("complete")] + end;
    assert m.trace + [Send("complete")] + end == m.trace + ([Send("complete")] + end);
  }

  /** Every file gets exactly one "complete", and the last effect of a
      transfer is closing the connection. */
  lemma {:induction false} HandoffsShape(hooks: Hooks, requests: seq<File>, next: nat)
    requires next <= |requests|
    ensures Count(Handoffs(hooks, requests, next), Send("complete")) == |requests| - next + 1
    ensures Handoffs(hooks, requests, next)[|Handoffs(hooks, requests, next)| - 1] == CloseConnection
    decreases |requests| - next
  {
    if next < |requests| {
      HandoffsShape(hooks, requests, next + 1);
      HandoffsCons(hooks, requests, next);
    } else {
      HandoffsEnd(hooks, requests);
    }
  }

  /** A hand-off that is not the last: one "complete", the announcement and
      "start", then the later hand-offs. */
  lemma HandoffsCons(hooks: Hooks, requests: seq<File>, next: nat)
    requires next < |requests|
    ensures var h := Handoffs(hooks, requests, next);
      var tail := Handoffs(hooks, requests, next + 1);
      Count(h, Send("complete")) == 1 + Count(tail, Send("complete")) && h[|h| - 1] == tail[|tail| - 1]
  {
    var complete := Send("complete");
    var a := Announce(hooks, requests, next);
    var tail := Handoffs(hooks, requests, next + 1);
    var head := [complete] + (a + [Send("start")]);
    assert Handoffs(hooks, requests, next) == head + tail;
    CountAppend(head, tail, complete);
    CountAppend([complete], a + [Send("start")], complete);
    CountAppend(a, [Send("start")], complete);
    assert Count(a, complete) == 0 by {
      if a != [] {
        assert a == [a[0]] + a[1..] && a[1..] == [];
      }
    }
  }

  /** The last hand-off: one "complete", then `onTransfersComplete` if
      installed, then the close. */
  lemma HandoffsEnd(hooks: Hooks, requests: seq<File>)
    ensures var h := Handoffs(hooks, requests, |requests|);
      Count(h, Send("complete")) == 1 && h[|h| - 1] == CloseConnection
  {
    var complete := Send("complete");
    var end: seq<Effect> := (if hooks.onTransfersComplete then [OnTransfersComplete] else []) + [CloseConnection];
    assert Handoffs(hooks, requests, |requests|) == [complete] + end;
    CountAppend([complete], end, complete);
    CountAppend(end[..|end| - 1], [CloseConnection], complete);
    assert end == end[..|end| - 1] + [CloseConnection];
    if hooks.onTransfersComplete {
      assert end[..|end| - 1] == [OnTransfersComplete];
    } else {
      assert end[..|end| - 1] == [];
    }
  }

  function Count(effects: seq<Effect>, x: Effect): nat
  {
    if effects == [] then 0 else (if effects[0] == x then 1 else 0) + Count(effects[1..], x)
  }

  lemma {:induction false} CountAppend(a: seq<Effect>, b: seq<Effect>, x: Effect)
    ensures Count(a + b, x) == Count(a, x) + Count(b, x)
    decreases |a|
  {
    if a == [] {
      assert a + b == b;
    } else {
      assert (a + b)[1..] == a[1..] + b;
      CountAppend(a[1..], b, x);
    }
  }

  /** A transfer from the user's acceptance to the last completion: the
      receiver asks for file 0, and after one completion per file it is back
      in INITIAL with every file handed over and the connection closed. */
  lemma AcceptedTransfer(m: Machine, hooks: Hooks)
    requires m.state == WaitingConfirmation && m.requests.Some? && m.requests.value != []
    ensures var m1 := Choose(m, hooks, true).0;
      var requests := m.requests.value;
      && |m1.outputs| > 0
      && Finishes(m1, hooks, |requests|)
         == m1.(state := Initial, currentFile := |requests|,
                trace := m.trace + Announce(hooks, requests, 0) + [Send("start")] + Handoffs(hooks, requests, 1))
  {
    AcceptAllocates(m, hooks);
    FinishAll(Choose(m, hooks, true).0, hooks, |m.requests.value|);
  }
}
