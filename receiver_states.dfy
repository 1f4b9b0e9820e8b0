/** The browser receiver's enumerations: its four states and six events, in
    declaration order, and how its states line up with the Go receiver's. */
module ReceiverStates {
  import ServerTypes

  datatype State = Initial | ListeningRequests | WaitingConfirmation | Receiving

  datatype Event = PeerConnect | ReceiveRequests | UserAccept | UserDeny | ReceiveContents | ReceiveDone

  /** The number TypeScript gives each member of `State`. */
  function StateOrdinal(s: State): nat
  {
    match s
    case Initial => 0
    case ListeningRequests => 1
    case WaitingConfirmation => 2
    case Receiving => 3
  }

  /** The number TypeScript gives each member of `Event`. */
  function EventOrdinal(e: Event): nat
  {
    match e
    case PeerConnect => 0
    case ReceiveRequests => 1
    case UserAccept => 2
    case UserDeny => 3
    case ReceiveContents => 4
    case ReceiveDone => 5
  }

  /** The member of `State` with a given number. */
  function StateNamed(n: nat): State
    requires n < 4
  {
    if n == 0 then Initial else if n == 1 then ListeningRequests
    else if n == 2 then WaitingConfirmation else Receiving
  }

  /** The member of `Event` with a given number. */
  function EventNamed(n: nat): Event
    requires n < 6
  {
    if n == 0 then PeerConnect else if n == 1 then ReceiveRequests
    else if n == 2 then UserAccept else if n == 3 then UserDeny
    else if n == 4 then ReceiveContents else ReceiveDone
  }

  /** Exactly four states, numbered 0 to 3 without gaps, INITIAL first. */
  lemma FourStates()
    ensures forall s :: StateOrdinal(s) < 4 && StateNamed(StateOrdinal(s)) == s
    ensures forall n :: 0 <= n < 4 ==> StateOrdinal(StateNamed(n)) == n
    ensures StateOrdinal(Initial) == 0
  {
  }

  /** Exactly six events, numbered 0 to 5 without gaps. */
  lemma SixEvents()
    ensures forall e :: EventOrdinal(e) < 6 && EventNamed(EventOrdinal(e)) == e
    ensures forall n :: 0 <= n < 6 ==> EventOrdinal(EventNamed(n)) == n
  {
  }

  /** The Go receiver's state of the same meaning. */
  function ToServer(s: State): ServerTypes.StateID
  {
    match s
    case Initial => ServerTypes.Initial
    case ListeningRequests => ServerTypes.ListeningForFileRequests
    case WaitingConfirmation => ServerTypes.WaitingForUserConfirmation
    case Receiving => ServerTypes.Receiving
  }

  /** The two receivers number their states alike, and the correspondence
      is one to one. */
  lemma SameStateOrder()
    ensures forall s :: ServerTypes.StateNumber(ToServer(s)) == StateOrdinal(s)
    ensures forall g :: ToServer(StateNamed(ServerTypes.StateNumber(g))) == g
  {
    forall g: ServerTypes.StateID
      ensures ToServer(StateNamed(ServerTypes.StateNumber(g))) == g
    {
      match g
      case Initial =>
      case ListeningForFileRequests =>
      case WaitingForUserConfirmation =>
      case Receiving =>
    }
  }
}
