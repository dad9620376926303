/**
 * `useCallSession`: a five-state tagged union and four transitions, each of
 * which overwrites the state whatever it was. Only `connected` carries a
 * remote stream, and no transition produces it.
 */
module CallSession {
  import opened Browser

  datatype SessionState =
    | Idle
    | Calling
    | Receiving
    | Connected(remoteStream: MediaStream)
    | Disconnected

  class CallSessionHook {
    var sessionState: SessionState

    /** No transition of the hook ever yields `connected`. */
    ghost predicate NeverConnected()
      reads this
    {
      !sessionState.Connected?
    }

    /** The hook's parameters are accepted and not used. */
    constructor (localStream: MediaStream?, remoteStream: MediaStream?)
      ensures sessionState == Idle && NeverConnected()
    {
      sessionState := Idle;
    }

    method StartCall()
      modifies this
      ensures sessionState == Calling && NeverConnected()
    {
      sessionState := Calling;
    }

    /** Sets "receiving", not "connected". */
    method AcceptCall()
      modifies this
      ensures sessionState == Receiving && NeverConnected()
    {
      sessionState := Receiving;
    }

    method RejectCall()
      modifies this
      ensures sessionState == Idle && NeverConnected()
    {
      sessionState := Idle;
    }

    method HungUpCall()
      modifies this
      ensures sessionState == Disconnected && NeverConnected()
    {
      sessionState := Disconnected;
    }
  }
}
