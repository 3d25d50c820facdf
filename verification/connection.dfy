/** Connection status and error slot of the transcript hook.

    The real-time client is opaque: only the callbacks it fires are modelled.
    `live` stands for the hook's connection reference being non-null. */
module Connection {
  import opened Wrappers
  import opened Types
  import Transcript

  datatype Status = Disconnected | Connecting | Connected

  /** The hook's inputs; each change re-runs its effect. */
  datatype HookParams = HookParams(hubUrl: Option<string>, token: Option<string>, enabled: bool)

  datatype HookState = HookState(status: Status, error: Option<string>, live: bool, history: seq<ChatMessage>)

  const TokenMissing: string := "Authentication token is missing."

  /** The state before the first effect run. */
  const Initial: HookState := HookState(Disconnected, None, false, [])

  /** A connection is built only when the hook is enabled and both the hub URL
      and the token are truthy. */
  predicate GateOpen(p: HookParams) {
    p.enabled && Present(p.hubUrl) && Present(p.token)
  }

  /** One run of the effect body with parameters `p`. */
  function Activate(s: HookState, p: HookParams): (r: HookState)
    ensures r.history == s.history
    ensures GateOpen(p) ==> r.live && r.status == Connecting && r.error == None
    ensures !GateOpen(p) ==> !r.live
    ensures !GateOpen(p) && s.live ==> r.status == Disconnected
    ensures !GateOpen(p) && !s.live ==> r.status == s.status
    ensures !GateOpen(p) ==> (r.error == Some(TokenMissing) <==> p.enabled && !Present(p.token))
    ensures !GateOpen(p) && r.error != Some(TokenMissing) ==> r.error == None
  {
    if !GateOpen(p) then
      var stopped := if s.live then s.(live := false, status := Disconnected) else s;
      stopped.(error := if !Present(p.token) && p.enabled then Some(TokenMissing) else None)
    else
      s.(error := None, status := Connecting, live := true)
  }

  /** What the real-time client reports about the current connection, or an
      inbound message it delivers. */
  datatype Callback =
    | StartSucceeded
    | StartFailed(reason: string)
    | Closed(closeError: Option<string>)
    | Reconnecting(reconnectError: Option<string>)
    | Reconnected
    | Received(message: SignalRMessage, freshId: string)

  /** The handler registered for each callback. */
  function Fire(s: HookState, c: Callback): (r: HookState)
    ensures r.live == s.live
    ensures !c.Received? ==> r.history == s.history
    ensures c.Received? ==>
              r.history == Transcript.Step(s.history, c.message, c.freshId)
              && r.status == s.status && r.error == s.error
    ensures c == StartSucceeded ==> r.status == Connected && r.error == s.error
    ensures c.StartFailed? ==> r.status == Disconnected && r.error == Some("Connection failed: " + c.reason)
    ensures c.Closed? ==> r.status == Disconnected
    ensures c.Closed? && c.closeError.Some? ==>
              r.error == Some("Connection closed due to error: " + c.closeError.value)
    ensures c.Closed? && c.closeError.None? ==> r.error == None
    ensures c.Reconnecting? ==> r.status == Connecting
    ensures c.Reconnecting? && c.reconnectError.Some? ==>
              r.error == Some("Reconnecting due to error: " + c.reconnectError.value)
    ensures c.Reconnecting? && c.reconnectError.None? ==> r.error == s.error
    ensures c == Reconnected ==> r.status == Connected && r.error == None
  {
    match c
    case StartSucceeded => s.(status := Connected)
    case StartFailed(reason) => s.(error := Some("Connection failed: " + reason), status := Disconnected)
    case Closed(e) =>
      s.(status := Disconnected,
         error := if e.Some? then Some("Connection closed due to error: " + e.value) else None)
    case Reconnecting(e) =>
      s.(status := Connecting,
         error := if e.Some? then Some("Reconnecting due to error: " + e.value) else s.error)
    case Reconnected => s.(status := Connected, error := None)
    case Received(m, id) => s.(history := Transcript.Step(s.history, m, id))
  }

  /** The cleanup the effect returns when it built a connection. */
  function Cleanup(s: HookState): (r: HookState)
    ensures !r.live && r.status == Disconnected && r.history == [] && r.error == s.error
  {
    s.(live := false, status := Disconnected, history := [])
  }

  /** What React does to the hook over its lifetime. `Configure(p)` is a change of
      the effect's dependencies (`hubUrl`, `token`, `enabled`) to `p`; a render
      that leaves them equal re-runs nothing and is not an event here. */
  datatype HookEvent = Configure(params: HookParams) | Notify(callback: Callback) | Unmount

  /** A parameter change runs the pending cleanup (there is one exactly when the
      previous run built a connection) and then the effect body; callbacks reach
      the hook only from the current connection. */
  function HookStep(s: HookState, e: HookEvent): HookState {
    match e
    case Configure(p) => Activate(if s.live then Cleanup(s) else s, p)
    case Notify(c) => if s.live then Fire(s, c) else s
    case Unmount => if s.live then Cleanup(s) else s
  }

  function HookRun(s: HookState, events: seq<HookEvent>): HookState
    decreases |events|
  {
    if events == [] then s else HookRun(HookStep(s, events[0]), events[1..])
  }

  /** Without a connection the hook is disconnected and its history is empty. */
  predicate Quiescent(s: HookState) {
    !s.live ==> s.status == Disconnected && s.history == []
  }

  lemma HookStepQuiescent(s: HookState, e: HookEvent)
    requires Quiescent(s)
    ensures Quiescent(HookStep(s, e))
  {
  }

  /** Every reachable state satisfies `Quiescent`. */
  lemma {:induction false} HookRunQuiescent(s: HookState, events: seq<HookEvent>)
    requires Quiescent(s)
    ensures Quiescent(HookRun(s, events))
    decreases |events|
  {
    if events != [] {
      HookStepQuiescent(s, events[0]);
      HookRunQuiescent(HookStep(s, events[0]), events[1..]);
    }
  }

  /** No callback produces the missing-token error: it can only be one that
      was already there. */
  lemma FireNeverReportsTokenMissing(s: HookState, c: Callback)
    ensures Fire(s, c).error == Some(TokenMissing) ==> s.error == Some(TokenMissing)
  {
    match c
    case StartFailed(reason) =>
      assert ("Connection failed: " + reason)[0] != TokenMissing[0];
    case Closed(e) =>
      if e.Some? {
        assert ("Connection closed due to error: " + e.value)[0] != TokenMissing[0];
      }
    case Reconnecting(e) =>
      if e.Some? {
        assert ("Reconnecting due to error: " + e.value)[0] != TokenMissing[0];
      }
    case _ =>
  }

  /** The missing-token error is shown only while no connection is held. */
  predicate TokenErrorOffline(s: HookState) {
    s.error == Some(TokenMissing) ==> !s.live
  }

  lemma HookStepTokenErrorOffline(s: HookState, e: HookEvent)
    requires TokenErrorOffline(s)
    ensures TokenErrorOffline(HookStep(s, e))
  {
    if e.Notify? && s.live {
      FireNeverReportsTokenMissing(s, e.callback);
    }
  }

  /** Every reachable state satisfies `TokenErrorOffline`. */
  lemma {:induction false} HookRunTokenErrorOffline(s: HookState, events: seq<HookEvent>)
    requires TokenErrorOffline(s)
    ensures TokenErrorOffline(HookRun(s, events))
    decreases |events|
  {
    if events != [] {
      HookStepTokenErrorOffline(s, events[0]);
      HookRunTokenErrorOffline(HookStep(s, events[0]), events[1..]);
    }
  }

  /** From the hook's first render, whatever React and the client do, both
      invariants hold. */
  lemma Reachable(events: seq<HookEvent>)
    ensures Quiescent(HookRun(Initial, events))
    ensures TokenErrorOffline(HookRun(Initial, events))
  {
    HookRunQuiescent(Initial, events);
    HookRunTokenErrorOffline(Initial, events);
  }

  /** Reconfiguring with usable parameters starts afresh: one new connection,
      Connecting, no error and an empty history. */
  lemma ConfigureOpen(s: HookState, p: HookParams)
    requires Quiescent(s) && GateOpen(p)
    ensures HookStep(s, Configure(p)) == HookState(Connecting, None, true, [])
  {
  }

  /** Reconfiguring with unusable parameters leaves no connection, Disconnected
      and an empty history; the error is the token message exactly when the hook
      is enabled without a token, and cleared otherwise. */
  lemma ConfigureClosed(s: HookState, p: HookParams)
    requires Quiescent(s) && !GateOpen(p)
    ensures var r := HookStep(s, Configure(p));
      && !r.live && r.status == Disconnected && r.history == []
      && r.error == (if p.enabled && !Present(p.token) then Some(TokenMissing) else None)
  {
  }

  /** Unmounting leaves no connection and an empty history. */
  lemma UnmountClears(s: HookState)
    requires Quiescent(s)
    ensures var r := HookStep(s, Unmount); !r.live && r.status == Disconnected && r.history == []
  {
  }
}
