/** The decision both bots take on a `connection.update` event: reconnect
    after a pause unless the session was logged out. */
module Connection {
  import opened Wrappers

  datatype State = Connecting | Open | Close

  /** The fields of a `connection.update` event the decision reads: the new
      state, if the event carries one, and the status code of the error
      that closed the connection, if there is one. */
  datatype ConnectionUpdate = ConnectionUpdate(connection: Option<State>, statusCode: Option<int>)

  /** `DisconnectReason.loggedOut` of the Baileys library. */
  const LoggedOut := 401
  const ReconnectMs := 5000

  /** The reconnect the event schedules, as a delay in milliseconds: after
      a close whose status code is anything but `loggedOut` (a missing code
      included), and never otherwise. */
  function ReconnectDelay(u: ConnectionUpdate): (r: Option<nat>)
    ensures r.Some? <==> u.connection == Some(Close) && u.statusCode != Some(LoggedOut)
    ensures r.Some? ==> r.value == ReconnectMs
  {
    if u.connection == Some(Close) && u.statusCode != Some(LoggedOut) then Some(ReconnectMs) else None
  }

  function CountCloses(us: seq<ConnectionUpdate>): nat
    decreases |us|
  {
    if us == [] then 0 else CountCloses(us[..|us| - 1]) + (if us[|us| - 1].connection == Some(Close) then 1 else 0)
  }

  /** The reconnects a series of events schedules, in order. */
  function Reconnects(us: seq<ConnectionUpdate>): seq<nat>
    decreases |us|
  {
    if us == [] then []
    else
      var d := ReconnectDelay(us[|us| - 1]);
      Reconnects(us[..|us| - 1]) + (if d.Some? then [d.value] else [])
  }

  /** Over any series of events, each close schedules one reconnect of
      5000 ms unless it was a logout, and nothing else schedules any: the
      reconnects are as many as the closes exactly when no close was a
      logout. */
  lemma {:induction false} ReconnectsPerClose(us: seq<ConnectionUpdate>)
    ensures |Reconnects(us)| <= CountCloses(us)
    ensures forall i :: 0 <= i < |Reconnects(us)| ==> Reconnects(us)[i] == ReconnectMs
    ensures |Reconnects(us)| == CountCloses(us) <==>
      forall i :: 0 <= i < |us| && us[i].connection == Some(Close) ==> us[i].statusCode != Some(LoggedOut)
    decreases |us|
  {
    if us != [] {
      var init := us[..|us| - 1];
      var last := us[|us| - 1];
      ReconnectsPerClose(init);
      assert forall i :: 0 <= i < |init| ==> init[i] == us[i];
      if last.connection == Some(Close) && last.statusCode == Some(LoggedOut) {
        assert |Reconnects(us)| == |Reconnects(init)| < CountCloses(us);
      }
    }
  }
}
