/** The community video call: starting and ending a (mock) call, and the
    microphone and camera toggles. */
module VideoCall {
  import opened Wrappers

  datatype Call = Call(isCallActive: bool, isMicMuted: bool, isVideoOff: bool, participants: seq<string>)

  /** The participants the mock call always adds after the viewer. */
  const MockParticipants: seq<string> := ["Alex Turner", "Jamie Oliver", "Maria Rodriguez"]

  function InitialCall(): (c: Call)
    ensures !c.isCallActive && !c.isMicMuted && !c.isVideoOff && c.participants == []
  {
    Call(false, false, false, [])
  }

  /** `user?.name || "You"`: no user, or an empty name, shows as "You". */
  function SelfName(userName: Option<string>): (n: string)
    ensures n != ""
    ensures userName.Some? && userName.value != "" ==> n == userName.value
    ensures userName.None? || userName == Some("") ==> n == "You"
  {
    if userName == None || userName == Some("") then "You" else userName.value
  }

  /** The participant list set when the call becomes active. */
  function Roster(userName: Option<string>): (ps: seq<string>)
    ensures |ps| == 4 && ps[0] == SelfName(userName) && ps[1..] == MockParticipants
  {
    [SelfName(userName)] + MockParticipants
  }

  /** A call is active exactly when it has the viewer and the three mock
      participants, and inactive with nobody in it. */
  predicate CallConsistent(c: Call) {
    if c.isCallActive then |c.participants| == 4 && c.participants[1..] == MockParticipants
    else c.participants == []
  }

  /** `startCall` together with the effect it triggers: signed out nothing
      changes; signed in, an inactive call becomes active with the roster.
      On an already active call the flag does not change, so the effect does
      not run again and nothing changes. */
  function StartCall(c: Call, isAuthenticated: bool, userName: Option<string>): (r: Call)
    ensures !isAuthenticated ==> r == c
    ensures isAuthenticated ==> r.isCallActive
    ensures isAuthenticated && !c.isCallActive ==> r.participants == Roster(userName)
    ensures r.isMicMuted == c.isMicMuted && r.isVideoOff == c.isVideoOff
  {
    if !isAuthenticated || c.isCallActive then c
    else c.(isCallActive := true, participants := Roster(userName))
  }

  /** `endCall`: the call stops and the list empties; the flags stay. */
  function EndCall(c: Call): (r: Call)
    ensures !r.isCallActive && r.participants == []
    ensures r.isMicMuted == c.isMicMuted && r.isVideoOff == c.isVideoOff
  {
    c.(isCallActive := false, participants := [])
  }

  /** `toggleMic` flips the microphone flag and nothing else. */
  function ToggleMic(c: Call): (r: Call)
    ensures r.isMicMuted == !c.isMicMuted
    ensures r.isVideoOff == c.isVideoOff && r.isCallActive == c.isCallActive && r.participants == c.participants
  {
    c.(isMicMuted := !c.isMicMuted)
  }

  /** `toggleVideo` flips the camera flag and nothing else. */
  function ToggleVideo(c: Call): (r: Call)
    ensures r.isVideoOff == !c.isVideoOff
    ensures r.isMicMuted == c.isMicMuted && r.isCallActive == c.isCallActive && r.participants == c.participants
  {
    c.(isVideoOff := !c.isVideoOff)
  }

  /** Two toggles restore the call; the two toggles commute. */
  lemma TogglesRestoreAndCommute(c: Call)
    ensures ToggleMic(ToggleMic(c)) == c
    ensures ToggleVideo(ToggleVideo(c)) == c
    ensures ToggleMic(ToggleVideo(c)) == ToggleVideo(ToggleMic(c))
  {
  }

  /** Every operation keeps the call consistent. */
  lemma OperationsKeepConsistent(c: Call, isAuthenticated: bool, userName: Option<string>)
    requires CallConsistent(c)
    ensures CallConsistent(StartCall(c, isAuthenticated, userName))
    ensures CallConsistent(EndCall(c))
    ensures CallConsistent(ToggleMic(c))
    ensures CallConsistent(ToggleVideo(c))
  {
  }

  /** Starting and then ending a call returns to an inactive, empty call and
      keeps whatever the viewer muted before. */
  lemma StartThenEnd(c: Call, userName: Option<string>)
    requires !c.isCallActive
    ensures var s := StartCall(c, true, userName);
      && s.participants[0] == SelfName(userName)
      && EndCall(s) == c.(participants := [])
  {
  }
}
