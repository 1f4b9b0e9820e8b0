/** The sender's protocol table: its events, states and actions, the chunk
    size, and the partial map from (event, state) to the actions to run and
    the state to move to. */
module SenderTable {
  import opened Common

  /** Bytes per binary frame when the file is held in memory. */
  const BUFFER_SIZE: nat := 1024

  datatype Event = Start | BeginFileUpload | ExitFileUpload | UploadComplete

  datatype State = Initial | WaitingToStart | WaitingForCompletion

  datatype Action = SendFileRequest | UploadFile | IncrementFileIndex | Quit

  /** A defined cell of the table. */
  datatype Cell = Cell(actions: seq<Action>, newState: State)

  /** The event-state matrix; `None` is a cell the table leaves undefined. */
  function Lookup(e: Event, s: State): (r: Option<Cell>)
    ensures r.Some? ==> |r.value.actions| == 1 && r.value.newState != s
    ensures r.Some? ==> (r.value.newState == Initial <==> r.value.actions == [Quit])
  {
    match e
    case Start =>
      if s == Initial then Some(Cell([SendFileRequest], WaitingToStart)) else None
    case BeginFileUpload =>
      if s == WaitingToStart then Some(Cell([UploadFile], WaitingForCompletion)) else None
    case UploadComplete =>
      if s == WaitingForCompletion then Some(Cell([IncrementFileIndex], WaitingToStart)) else None
    case ExitFileUpload =>
      if s == WaitingToStart || s == WaitingForCompletion then Some(Cell([Quit], Initial)) else None
  }

  const AllEvents: seq<Event> := [Start, BeginFileUpload, ExitFileUpload, UploadComplete]
  const AllStates: seq<State> := [Initial, WaitingToStart, WaitingForCompletion]

  /** How many of the (event, state) pairs among `pairs` have a defined cell. */
  function CountDefined(pairs: seq<(Event, State)>): nat
  {
    if pairs == [] then 0
    else (if Lookup(pairs[0].0, pairs[0].1).Some? then 1 else 0) + CountDefined(pairs[1..])
  }

  /** Every (event, state) pair, each exactly once. */
  const AllPairs: seq<(Event, State)> :=
    [(Start, Initial), (Start, WaitingToStart), (Start, WaitingForCompletion),
     (BeginFileUpload, Initial), (BeginFileUpload, WaitingToStart),
     (BeginFileUpload, WaitingForCompletion),
     (ExitFileUpload, Initial), (ExitFileUpload, WaitingToStart),
     (ExitFileUpload, WaitingForCompletion),
     (UploadComplete, Initial), (UploadComplete, WaitingToStart),
     (UploadComplete, WaitingForCompletion)]

  lemma AllPairsCover(e: Event, s: State)
    ensures |AllPairs| == 12 && (e, s) in AllPairs
  {
    var i := match e
      case Start => 0 case BeginFileUpload => 1
      case ExitFileUpload => 2 case UploadComplete => 3;
    var j := match s
      case Initial => 0 case WaitingToStart => 1 case WaitingForCompletion => 2;
    assert AllPairs[3 * i + j] == (e, s);
  }

  /** The table is partial: of the twelve (event, state) pairs exactly five
      have a defined cell. */
  lemma FiveDefinedCells()
    ensures CountDefined(AllPairs) == 5
  {
    var ps := AllPairs;
    assert ps[11..][1..] == ps[12..];
    assert ps[10..][1..] == ps[11..];
    assert ps[9..][1..] == ps[10..];
    assert ps[8..][1..] == ps[9..];
    assert ps[7..][1..] == ps[8..];
    assert ps[6..][1..] == ps[7..];
    assert ps[5..][1..] == ps[6..];
    assert ps[4..][1..] == ps[5..];
    assert ps[3..][1..] == ps[4..];
    assert ps[2..][1..] == ps[3..];
    assert ps[1..][1..] == ps[2..];
    assert ps[0..][1..] == ps[1..];
  }

  /** Each defined cell runs exactly one action. */
  lemma OneActionPerCell(e: Event, s: State)
    requires Lookup(e, s).Some?
    ensures |Lookup(e, s).value.actions| == 1
  {
  }

  /** `start` is defined only in INITIAL, sends the manifest and waits to start. */
  lemma StartCell(s: State)
    ensures Lookup(Start, s).Some? <==> s == Initial
    ensures Lookup(Start, Initial) == Some(Cell([SendFileRequest], WaitingToStart))
  {
  }

  /** `beginFileUpload` is defined only in WAITING_TO_START and uploads. */
  lemma BeginFileUploadCell(s: State)
    ensures Lookup(BeginFileUpload, s).Some? <==> s == WaitingToStart
    ensures Lookup(BeginFileUpload, WaitingToStart) == Some(Cell([UploadFile], WaitingForCompletion))
  {
  }

  /** `uploadComplete` is defined only in WAITING_FOR_COMPLETION and moves the cursor. */
  lemma UploadCompleteCell(s: State)
    ensures Lookup(UploadComplete, s).Some? <==> s == WaitingForCompletion
    ensures Lookup(UploadComplete, WaitingForCompletion)
            == Some(Cell([IncrementFileIndex], WaitingToStart))
  {
  }

  /** `exitFileUpload` is defined in both waiting states, not in INITIAL,
      and always quits into INITIAL. */
  lemma ExitFileUploadCell(s: State)
    ensures Lookup(ExitFileUpload, s).Some? <==> s != Initial
    ensures s != Initial ==> Lookup(ExitFileUpload, s) == Some(Cell([Quit], Initial))
  {
  }

  /** Every transition into INITIAL closes the connection. */
  lemma IntoInitialQuits(e: Event, s: State)
    requires Lookup(e, s).Some? && Lookup(e, s).value.newState == Initial
    ensures Quit in Lookup(e, s).value.actions
  {
  }

  /** How deeply an action can re-enter the dispatcher: only
      IncrementFileIndex dispatches an event of its own (`exitFileUpload`),
      whose one action, Quit, dispatches nothing. These ranks bound the
      re-entry of the sender engines. */
  function ActionRank(a: Action): nat
  {
    if a == IncrementFileIndex then 2 else 0
  }

  function EventRank(e: Event): nat
  {
    match e
    case UploadComplete => 2
    case ExitFileUpload => 1
    case _ => 0
  }

  lemma CellRanks(e: Event, s: State)
    requires Lookup(e, s).Some?
    ensures forall a :: a in Lookup(e, s).value.actions ==> ActionRank(a) <= EventRank(e)
  {
  }
}
