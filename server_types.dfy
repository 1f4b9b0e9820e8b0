/** The Go receiver's vocabulary: its states, events and actions (each an
    `iota` enumeration), the per-transfer bookkeeping, and the nested map
    from event and state to the actions to run and the state to enter. */
module ServerTypes {
  import opened Common

  datatype StateID = Initial | ListeningForFileRequests | WaitingForUserConfirmation | Receiving

  datatype Event = PeerConnect | RecvRequests | UserAccept | UserDeny | RecvDone

  datatype Action =
    | DisplayFileRequests
    | IncrementFileIndex
    | SendClientAllow
    | SendStartSignal
    | SendExitSignal
    | SendFinishedSignal
    | StartFileWriter
    | StopFileWriter
    | RecvDoneHandler

  /** The numeric value `iota` gives each state. */
  function StateNumber(s: StateID): (r: nat)
    ensures r < 4
  {
    match s
    case Initial => 0
    case ListeningForFileRequests => 1
    case WaitingForUserConfirmation => 2
    case Receiving => 3
  }

  /** A file as the manifest describes it. `Size` is an `int64` decoded from
      JSON, so nothing keeps it from being negative. */
  datatype File = File(name: string, size: int, mediaType: string)

  /** `TransferState`: the table state, the file cursor and the bytes
      received for the current file. */
  datatype TransferState = TransferState(number: StateID, currentFile: int, received: int)

  datatype Cell = Cell(actions: seq<Action>, newState: StateID)

  /** `EventStateMatrix`; a missing inner key is `None`. */
  function Lookup(e: Event, s: StateID): (r: Option<Cell>)
    ensures r.Some? ==> (r.value.newState == s <==> s == Receiving)
    ensures r.Some? ==> (r.value.newState == Initial <==> SendExitSignal in r.value.actions)
  {
    match e
    case PeerConnect =>
      if s == Initial then Some(Cell([], ListeningForFileRequests)) else None
    case RecvRequests =>
      if s == ListeningForFileRequests then Some(Cell([DisplayFileRequests], WaitingForUserConfirmation)) else None
    case UserAccept =>
      if s == WaitingForUserConfirmation then Some(Cell([StartFileWriter, SendStartSignal], Receiving)) else None
    case UserDeny =>
      if s == WaitingForUserConfirmation then Some(Cell([SendExitSignal], Initial)) else None
    case RecvDone =>
      if s == Receiving then
        Some(Cell([StopFileWriter, IncrementFileIndex, SendFinishedSignal, RecvDoneHandler], Receiving))
      else None
  }

  /** Each event has a cell in exactly one state, and that state is the one
      the protocol expects the event in. */
  lemma OneStatePerEvent(e: Event, s: StateID)
    ensures Lookup(e, s).Some? <==> s == ExpectedState(e)
  {
  }

  function ExpectedState(e: Event): StateID
  {
    match e
    case PeerConnect => Initial
    case RecvRequests => ListeningForFileRequests
    case UserAccept => WaitingForUserConfirmation
    case UserDeny => WaitingForUserConfirmation
    case RecvDone => Receiving
  }

  /** The cells, as the matrix lists them. */
  lemma Cells()
    ensures Lookup(PeerConnect, Initial) == Some(Cell([], ListeningForFileRequests))
    ensures Lookup(RecvRequests, ListeningForFileRequests)
            == Some(Cell([DisplayFileRequests], WaitingForUserConfirmation))
    ensures Lookup(UserAccept, WaitingForUserConfirmation)
            == Some(Cell([StartFileWriter, SendStartSignal], Receiving))
    ensures Lookup(UserDeny, WaitingForUserConfirmation) == Some(Cell([SendExitSignal], Initial))
    ensures Lookup(RecvDone, Receiving)
            == Some(Cell([StopFileWriter, IncrementFileIndex, SendFinishedSignal, RecvDoneHandler], Receiving))
  {
  }

  /** No cell leaves RECEIVING: once receiving, only `recvDone` is defined,
      and it stays. */
  lemma ReceivingIsClosed(e: Event)
    requires Lookup(e, Receiving).Some?
    ensures e == RecvDone && Lookup(e, Receiving).value.newState == Receiving
  {
  }

  /** SendClientAllow is declared but no cell runs it. */
  lemma ClientAllowUnused(e: Event, s: StateID)
    requires Lookup(e, s).Some?
    ensures SendClientAllow !in Lookup(e, s).value.actions
  {
  }

  /** How deeply a handler can re-enter: DisplayFileRequests dispatches
      `userAccept` or `userDeny`, RecvDoneHandler runs StartFileWriter and
      SendStartSignal; nothing else recurses. */
  function ActionRank(a: Action): nat
  {
    match a
    case DisplayFileRequests => 2
    case RecvDoneHandler => 1
    case _ => 0
  }

  function EventRank(e: Event): nat
  {
    match e
    case RecvRequests => 2
    case RecvDone => 1
    case _ => 0
  }

  lemma CellRanks(e: Event, s: StateID)
    requires Lookup(e, s).Some?
    ensures forall a :: a in Lookup(e, s).value.actions ==> ActionRank(a) <= EventRank(e)
  {
  }
}
