/** The browser-side real-time connection manager (the `useWebSocket` hook).

    The hook's refs and state (`wsRef`, `reconnectTimeoutRef`,
    `reconnectAttempts`, `isConnected`, `error`) are the fields of the class
    `WebSocketHook`. Every socket the hook ever created is kept in `sockets`;
    its event handlers are addressed by the socket's index, and each socket
    remembers the `enabled` value captured by the `connect` closure that
    created it, because its `onclose` handler reads that captured value and
    not the current one. */
module WebSocket {
  import opened Wrappers

  const MaxReconnectAttempts: nat := 5
  const MaxReconnectDelay: nat := 30000

  /** Close codes of section 7.4.1 of RFC 6455 that the hook looks at. */
  const CloseNormal: int := 1000
  const ClosePolicyViolation: int := 1008
  /** The code reported for a close frame without a status (section 7.1.5 of RFC 6455). */
  const CloseNoStatus: int := 1005

  const ConnectionErrorText := "WebSocket connection error"
  const CreateFailedText := "Failed to connect to WebSocket"
  const GaveUpText := "Failed to connect to WebSocket after multiple attempts"

  /** The `data` member of an inbound message, with the members the core reads. */
  datatype Payload = Payload(eventTitle: Option<string>, title: Option<string>, status: Option<string>)

  /** `{ type: string, data?: object, message?: string }` */
  datatype Message = Message(msgType: string, data: Option<Payload>, text: Option<string>)

  /** An inbound frame: either JSON that parses to a message, or text that does not parse. */
  datatype Frame = Parsed(msg: Message) | Unparseable(raw: string)

  datatype ReadyState = Connecting | Open | Closing | Closed

  /** The connection URL: base, endpoint, and `?token=<encoded token>` when a token is stored. */
  datatype Url = Url(base: string, endpoint: string, tokenQuery: Option<string>)

  datatype Socket = Socket(url: Url, handlerEnabled: bool, readyState: ReadyState, closeRequested: bool)

  /** A pending `setTimeout(() => connect(), delay)`; `handlerEnabled` is the
      `enabled` of the `connect` closure it will call. */
  datatype Timer = Timer(delay: nat, handlerEnabled: bool)

  datatype State = State(
    enabled: bool,              // the hook's current `enabled` argument
    sockets: seq<Socket>,       // every socket created, in creation order
    current: Option<nat>,       // wsRef.current, as an index into sockets
    timer: Option<Timer>,       // the pending timer held by reconnectTimeoutRef
    strayTimers: seq<Timer>,    // pending timers whose handle was overwritten
    attempts: nat,              // reconnectAttempts.current
    isConnected: bool,
    error: Option<string>,
    delivered: seq<Message>,    // messages handed to onMessage, in order
    transmitted: seq<Message>)  // messages sent on the socket, in order

  ghost predicate ValidState(st: State) {
    && st.attempts <= MaxReconnectAttempts
    && (st.current.Some? ==> st.current.value < |st.sockets|)
  }

  function Pow2(n: nat): (r: nat)
    ensures r >= 1
  {
    if n == 0 then 1 else 2 * Pow2(n - 1)
  }

  /** `Math.min(1000 * Math.pow(2, attempts), 30000)` */
  function BackoffDelay(attempts: nat): (d: nat)
    ensures d <= MaxReconnectDelay
    ensures d == MaxReconnectDelay || d == 1000 * Pow2(attempts)
  {
    if 1000 * Pow2(attempts) < MaxReconnectDelay then 1000 * Pow2(attempts) else MaxReconnectDelay
  }

  predicate IsTerminalClose(code: int) {
    code == CloseNormal || code == ClosePolicyViolation
  }

  function ConnectUrl(base: string, endpoint: string, token: Option<string>): (u: Url)
    ensures u.base == base && u.endpoint == endpoint
    ensures Truthy(token) <==> u.tokenQuery.Some?
    ensures u.tokenQuery.Some? ==> u.tokenQuery == token
  {
    Url(base, endpoint, if Truthy(token) then token else None)
  }

  /** `connect` of the closure that captured `en`: nothing when disabled; otherwise a
      new socket becomes `wsRef.current`, or, when the constructor throws, the error is set. */
  function ConnectWith(st: State, en: bool, base: string, endpoint: string, token: Option<string>, ctorFails: bool): State
  {
    if !en then st
    else if ctorFails then st.(error := Some(CreateFailedText))
    else
      var s := Socket(ConnectUrl(base, endpoint, token), en, Connecting, false);
      st.(sockets := st.sockets + [s], current := Some(|st.sockets|))
  }

  function ConnectStep(st: State, base: string, endpoint: string, token: Option<string>, ctorFails: bool): State {
    ConnectWith(st, st.enabled, base, endpoint, token, ctorFails)
  }

  predicate Live(st: State, i: nat) {
    i < |st.sockets| && st.sockets[i].readyState != Closed
  }

  function SetReadyState(st: State, i: nat, rs: ReadyState): State
    requires i < |st.sockets|
  {
    st.(sockets := st.sockets[i := st.sockets[i].(readyState := rs)])
  }

  /** `onopen` of socket i. */
  function OpenStep(st: State, i: nat): State {
    if i < |st.sockets| && st.sockets[i].readyState == Connecting then
      SetReadyState(st, i, Open).(isConnected := true, error := None, attempts := 0)
    else st
  }

  /** `onmessage` of socket i: a parsed frame reaches onMessage, an unparseable one is dropped. */
  function MessageStep(st: State, i: nat, f: Frame): State {
    if i < |st.sockets| && st.sockets[i].readyState == Open && f.Parsed? then
      st.(delivered := st.delivered + [f.msg])
    else st
  }

  /** `onerror` of socket i. */
  function ErrorStep(st: State, i: nat): State {
    if Live(st, i) then st.(error := Some(ConnectionErrorText), isConnected := false) else st
  }

  /** The body of `onclose` with the close code and the captured `enabled`. */
  function CloseHandler(st: State, code: int, en: bool): State {
    var st1 := st.(isConnected := false, current := None);
    if IsTerminalClose(code) then st1
    else if en && st.attempts < MaxReconnectAttempts then
      var n := st.attempts + 1;
      st1.(attempts := n,
           timer := Some(Timer(BackoffDelay(n), en)),
           strayTimers := if st.timer.Some? then st.strayTimers + [st.timer.value] else st.strayTimers)
    else if st.attempts >= MaxReconnectAttempts then st1.(error := Some(GaveUpText))
    else st1
  }

  /** `onclose` of socket i with the given close code. */
  function CloseStep(st: State, i: nat, code: int): State {
    if Live(st, i) then
      CloseHandler(SetReadyState(st, i, Closed), code, st.sockets[i].handlerEnabled)
    else st
  }

  /** The close event of a socket that `disconnect` closed: `close()` was called
      without a code, so the event reports 1005, which is not terminal. */
  function ClosedAfterDisconnectStep(st: State, i: nat): State {
    if Live(st, i) && st.sockets[i].closeRequested then CloseStep(st, i, CloseNoStatus) else st
  }

  /** The reconnect timer fires and calls the `connect` closure that scheduled it. */
  function FireTimerStep(st: State, base: string, endpoint: string, token: Option<string>, ctorFails: bool): State {
    match st.timer
    case None => st
    case Some(t) => ConnectWith(st.(timer := None), t.handlerEnabled, base, endpoint, token, ctorFails)
  }

  /** A timer whose handle was overwritten fires: it too calls its `connect`. */
  function FireStrayTimerStep(st: State, k: nat, base: string, endpoint: string, token: Option<string>, ctorFails: bool): State {
    if k < |st.strayTimers| then
      var t := st.strayTimers[k];
      ConnectWith(st.(strayTimers := st.strayTimers[..k] + st.strayTimers[k + 1..]), t.handlerEnabled, base, endpoint, token, ctorFails)
    else st
  }

  /** `disconnect`: clear the timer held by the ref, `close()` the current socket
      (no code) and forget it, and report not connected. */
  function DisconnectStep(st: State): State
    requires ValidState(st)
  {
    var st1 := st.(timer := None, isConnected := false, current := None);
    match st.current
    case None => st1
    case Some(i) =>
      var s := st.sockets[i];
      st1.(sockets := st.sockets[i := s.(readyState := if s.readyState == Closed then Closed else Closing, closeRequested := true)])
  }

  /** `sendMessage`: transmitted only while the current socket is OPEN; otherwise dropped. */
  function SendStep(st: State, m: Message): State
    requires ValidState(st)
  {
    if st.current.Some? && st.sockets[st.current.value].readyState == Open then
      st.(transmitted := st.transmitted + [m])
    else st
  }

  /** The hook's effect on a change of `enabled`: the cleanup runs `disconnect`,
      then the new `connect` runs when enabled. */
  function SetEnabledStep(st: State, e: bool, base: string, endpoint: string, token: Option<string>, ctorFails: bool): State
    requires ValidState(st)
  {
    if e == st.enabled then st
    else
      var st1 := DisconnectStep(st).(enabled := e);
      if e then ConnectStep(st1, base, endpoint, token, ctorFails) else st1
  }

  /** Everything that can happen to the hook. */
  datatype Event =
    | EnabledChanged(e: bool, token: Option<string>, ctorFails: bool)
    | ConnectCalled(token: Option<string>, ctorFails: bool)
    | Opened(i: nat)
    | Received(i: nat, frame: Frame)
    | Errored(i: nat)
    | ClosedByPeer(i: nat, code: int)
    | ClosedAfterDisconnect(i: nat)
    | TimerFired(token: Option<string>, ctorFails: bool)
    | StrayTimerFired(k: nat, token: Option<string>, ctorFails: bool)
    | DisconnectCalled
    | SendCalled(m: Message)

  /** Every event keeps the state valid. */
  lemma StepKeepsValid(st: State, e: Event, base: string, endpoint: string)
    requires ValidState(st)
    ensures ValidState(Step(st, e, base, endpoint))
  {
    match e {
      case EnabledChanged(en, token, fails) =>
        var st1 := DisconnectStep(st).(enabled := en);
        assert ValidState(st1);
      case ConnectCalled(token, fails) => assert ValidState(ConnectStep(st, base, endpoint, token, fails));
      case Opened(i) => assert ValidState(OpenStep(st, i));
      case Received(i, f) => assert ValidState(MessageStep(st, i, f));
      case Errored(i) => assert ValidState(ErrorStep(st, i));
      case ClosedByPeer(i, code) => assert ValidState(CloseStep(st, i, code));
      case ClosedAfterDisconnect(i) => assert ValidState(ClosedAfterDisconnectStep(st, i));
      case TimerFired(token, fails) => assert ValidState(FireTimerStep(st, base, endpoint, token, fails));
      case StrayTimerFired(k, token, fails) =>
        assert ValidState(FireStrayTimerStep(st, k, base, endpoint, token, fails));
      case DisconnectCalled => assert ValidState(DisconnectStep(st));
      case SendCalled(m) => assert ValidState(SendStep(st, m));
    }
  }

  lemma StepsKeepValid(st: State, base: string, endpoint: string)
    requires ValidState(st)
    ensures forall e :: ValidState(Step(st, e, base, endpoint))
  {
    forall e ensures ValidState(Step(st, e, base, endpoint)) {
      StepKeepsValid(st, e, base, endpoint);
    }
  }

  function Step(st: State, e: Event, base: string, endpoint: string): (r: State)
    requires ValidState(st)
  {
    match e
    case EnabledChanged(en, token, fails) => SetEnabledStep(st, en, base, endpoint, token, fails)
    case ConnectCalled(token, fails) => ConnectStep(st, base, endpoint, token, fails)
    case Opened(i) => OpenStep(st, i)
    case Received(i, f) => MessageStep(st, i, f)
    case Errored(i) => ErrorStep(st, i)
    case ClosedByPeer(i, code) => CloseStep(st, i, code)
    case ClosedAfterDisconnect(i) => ClosedAfterDisconnectStep(st, i)
    case TimerFired(token, fails) => FireTimerStep(st, base, endpoint, token, fails)
    case StrayTimerFired(k, token, fails) => FireStrayTimerStep(st, k, base, endpoint, token, fails)
    case DisconnectCalled => DisconnectStep(st)
    case SendCalled(m) => SendStep(st, m)
  }

  /** The state after a sequence of events. */
  function Run(st: State, evs: seq<Event>, base: string, endpoint: string): State
    requires ValidState(st)
    decreases |evs|
  {
    if evs == [] then st
    else
      StepsKeepValid(st, base, endpoint);
      Run(Step(st, evs[0], base, endpoint), evs[1..], base, endpoint)
  }

  /** The initial state of a mounted hook, before its effect runs. */
  function Initial(enabled: bool): (st: State)
    ensures ValidState(st) && st.attempts == 0 && st.current.None? && st.timer.None? && !st.isConnected
  {
    State(enabled, [], None, None, [], 0, false, None, [], [])
  }

  /** The mounted hook: its refs and state variables, updated in place by its handlers. */
  class WebSocketHook {
    const base: string
    const endpoint: string
    var enabled: bool
    var sockets: seq<Socket>
    var current: Option<nat>
    var timer: Option<Timer>
    var strayTimers: seq<Timer>
    var attempts: nat
    var isConnected: bool
    var error: Option<string>
    var delivered: seq<Message>
    var transmitted: seq<Message>

    function Snapshot(): State
      reads this
    {
      State(enabled, sockets, current, timer, strayTimers, attempts, isConnected, error, delivered, transmitted)
    }

    ghost predicate Valid()
      reads this
    {
      ValidState(Snapshot())
    }

    /** Mounting: the effect calls `connect` once. */
    constructor (base: string, endpoint: string, enabled: bool, token: Option<string>, ctorFails: bool)
      ensures this.base == base && this.endpoint == endpoint
      ensures Valid() && Snapshot() == ConnectStep(Initial(enabled), base, endpoint, token, ctorFails)
    {
      this.base := base;
      this.endpoint := endpoint;
      this.enabled := enabled;
      sockets := [];
      current := None;
      timer := None;
      strayTimers := [];
      attempts := 0;
      isConnected := false;
      error := None;
      delivered := [];
      transmitted := [];
      new;
      Connect(token, ctorFails);
    }

    /** `connect` of the closure that captured `en`. */
    method ConnectAs(en: bool, token: Option<string>, ctorFails: bool)
      requires Valid()
      modifies this
      ensures Valid() && Snapshot() == ConnectWith(old(Snapshot()), en, base, endpoint, token, ctorFails)
    {
      if !en {
        return;
      }
      if ctorFails {
        error := Some(CreateFailedText);
        return;
      }
      var s := Socket(ConnectUrl(base, endpoint, token), en, Connecting, false);
      current := Some(|sockets|);
      sockets := sockets + [s];
    }

    method Connect(token: Option<string>, ctorFails: bool)
      requires Valid()
      modifies this
      ensures Valid() && Snapshot() == ConnectStep(old(Snapshot()), base, endpoint, token, ctorFails)
    {
      ConnectAs(enabled, token, ctorFails);
    }

    method OnOpen(i: nat)
      requires Valid()
      modifies this
      ensures Valid() && Snapshot() == OpenStep(old(Snapshot()), i)
    {
      if i < |sockets| && sockets[i].readyState == Connecting {
        sockets := sockets[i := sockets[i].(readyState := Open)];
        isConnected := true;
        error := None;
        attempts := 0;
      }
    }

    method OnMessage(i: nat, f: Frame)
      requires Valid()
      modifies this
      ensures Valid() && Snapshot() == MessageStep(old(Snapshot()), i, f)
    {
      if i < |sockets| && sockets[i].readyState == Open {
        match f
        case Parsed(m) => delivered := delivered + [m];
        case Unparseable(_) =>
      }
    }

    method OnError(i: nat)
      requires Valid()
      modifies this
      ensures Valid() && Snapshot() == ErrorStep(old(Snapshot()), i)
    {
      if i < |sockets| && sockets[i].readyState != Closed {
        error := Some(ConnectionErrorText);
        isConnected := false;
      }
    }

    method OnClose(i: nat, code: int)
      requires Valid()
      modifies this
      ensures Valid() && Snapshot() == CloseStep(old(Snapshot()), i, code)
    {
      if !(i < |sockets| && sockets[i].readyState != Closed) {
        return;
      }
      var en := sockets[i].handlerEnabled;
      sockets := sockets[i := sockets[i].(readyState := Closed)];
      isConnected := false;
      current := None;
      if IsTerminalClose(code) {
        return;
      }
      if en && attempts < MaxReconnectAttempts {
        attempts := attempts + 1;
        if timer.Some? {
          strayTimers := strayTimers + [timer.value];
        }
        timer := Some(Timer(BackoffDelay(attempts), en));
      } else if attempts >= MaxReconnectAttempts {
        error := Some(GaveUpText);
      }
    }

    /** The close event of a socket closed by `disconnect`. */
    method OnClosedAfterDisconnect(i: nat)
      requires Valid()
      modifies this
      ensures Valid() && Snapshot() == ClosedAfterDisconnectStep(old(Snapshot()), i)
    {
      if i < |sockets| && sockets[i].readyState != Closed && sockets[i].closeRequested {
        OnClose(i, CloseNoStatus);
      }
    }

    method FireTimer(token: Option<string>, ctorFails: bool)
      requires Valid()
      modifies this
      ensures Valid() && Snapshot() == FireTimerStep(old(Snapshot()), base, endpoint, token, ctorFails)
    {
      if timer.Some? {
        var t := timer.value;
        timer := None;
        ConnectAs(t.handlerEnabled, token, ctorFails);
      }
    }

    method FireStrayTimer(k: nat, token: Option<string>, ctorFails: bool)
      requires Valid()
      modifies this
      ensures Valid() && Snapshot() == FireStrayTimerStep(old(Snapshot()), k, base, endpoint, token, ctorFails)
    {
      if k < |strayTimers| {
        var t := strayTimers[k];
        strayTimers := strayTimers[..k] + strayTimers[k + 1..];
        ConnectAs(t.handlerEnabled, token, ctorFails);
      }
    }

    method Disconnect()
      requires Valid()
      modifies this
      ensures Valid() && Snapshot() == DisconnectStep(old(Snapshot()))
    {
      timer := None;
      if current.Some? {
        var i := current.value;
        var s := sockets[i];
        sockets := sockets[i := s.(readyState := if s.readyState == Closed then Closed else Closing, closeRequested := true)];
        current := None;
      }
      isConnected := false;
    }

    method SendMessage(m: Message)
      requires Valid()
      modifies this
      ensures Valid() && Snapshot() == SendStep(old(Snapshot()), m)
    {
      if current.Some? && sockets[current.value].readyState == Open {
        transmitted := transmitted + [m];
      }
    }

    /** A re-render with a new `enabled`: the old effect's cleanup, then the new effect. */
    method SetEnabled(e: bool, token: Option<string>, ctorFails: bool)
      requires Valid()
      modifies this
      ensures Valid() && Snapshot() == SetEnabledStep(old(Snapshot()), e, base, endpoint, token, ctorFails)
    {
      if e != enabled {
        Disconnect();
        enabled := e;
        if e {
          Connect(token, ctorFails);
        }
      }
    }
  }
}

/** Properties of the connection manager's transitions. */
module WebSocketProperties {
  import opened Wrappers
  import opened WebSocket

  /** `connect` does nothing while disabled; otherwise the URL carries the stored token iff one is stored. */
  lemma ConnectGate(st: State, base: string, endpoint: string, token: Option<string>)
    ensures !st.enabled ==> ConnectStep(st, base, endpoint, token, false) == st
    ensures st.enabled ==>
      var r := ConnectStep(st, base, endpoint, token, false);
      && |r.sockets| == |st.sockets| + 1
      && r.current == Some(|st.sockets|)
      && r.sockets[|st.sockets|].readyState == Connecting
      && (r.sockets[|st.sockets|].url.tokenQuery.Some? <==> Truthy(token))
  {
  }

  /** A successful open reports connected, clears the error and resets the counter. */
  lemma OpenResets(st: State, i: nat)
    requires i < |st.sockets| && st.sockets[i].readyState == Connecting
    ensures var r := OpenStep(st, i);
      r.isConnected && r.error == None && r.attempts == 0 && r.timer == st.timer
  {
  }

  /** Successive reconnect delays, counted as the source counts (increment first). */
  lemma BackoffValues()
    ensures BackoffDelay(1) == 2000 && BackoffDelay(2) == 4000 && BackoffDelay(3) == 8000
    ensures BackoffDelay(4) == 16000 && BackoffDelay(5) == 30000
  {
    assert Pow2(4) == 16;
    assert Pow2(5) == 32;
  }

  /** A terminal close (1000 or 1008) schedules nothing and leaves the counter alone. */
  lemma TerminalCloseSchedulesNothing(st: State, i: nat, code: int)
    requires IsTerminalClose(code)
    ensures var r := CloseStep(st, i, code);
      r.attempts == st.attempts && r.timer == st.timer && r.strayTimers == st.strayTimers
      && r.error == st.error && !(Live(st, i) && r.isConnected)
  {
  }

  predicate AllTerminalCloses(evs: seq<Event>) {
    forall k :: 0 <= k < |evs| ==> evs[k].ClosedByPeer? && IsTerminalClose(evs[k].code)
  }

  /** However often terminal closes repeat, no reconnect is scheduled and the counter is unchanged. */
  lemma {:induction false} TerminalClosesRepeat(st: State, evs: seq<Event>, base: string, endpoint: string)
    requires ValidState(st)
    requires AllTerminalCloses(evs)
    ensures var r := Run(st, evs, base, endpoint);
      r.attempts == st.attempts && r.timer == st.timer && r.strayTimers == st.strayTimers
    decreases |evs|
  {
    if evs != [] {
      StepsKeepValid(st, base, endpoint);
      var st1 := Step(st, evs[0], base, endpoint);
      TerminalCloseSchedulesNothing(st, evs[0].i, evs[0].code);
      assert AllTerminalCloses(evs[1..]) by {
        forall k | 0 <= k < |evs[1..]| ensures evs[1..][k].ClosedByPeer? && IsTerminalClose(evs[1..][k].code) {
          assert evs[1..][k] == evs[k + 1];
        }
      }
      TerminalClosesRepeat(st1, evs[1..], base, endpoint);
    }
  }

  /** Any other close while the handler's `enabled` is true and fewer than five attempts were made
      increments the counter first and then waits BackoffDelay of the new count. */
  lemma NonTerminalCloseReconnects(st: State, i: nat, code: int)
    requires Live(st, i) && !IsTerminalClose(code)
    requires st.sockets[i].handlerEnabled && st.attempts < MaxReconnectAttempts
    ensures var r := CloseStep(st, i, code);
      r.attempts == st.attempts + 1 && r.timer == Some(Timer(BackoffDelay(st.attempts + 1), true))
      && !r.isConnected && r.current == None
  {
  }

  /** At five attempts a non-terminal close schedules nothing and sets the terminal error. */
  lemma CloseAtLimitGivesUp(st: State, i: nat, code: int)
    requires Live(st, i) && !IsTerminalClose(code)
    requires st.attempts == MaxReconnectAttempts
    ensures var r := CloseStep(st, i, code);
      r.attempts == MaxReconnectAttempts && r.timer == st.timer && r.error == Some(GaveUpText)
  {
  }

  /** An error event reports disconnected with an error but schedules nothing. */
  lemma ErrorDoesNotReconnect(st: State, i: nat)
    requires Live(st, i)
    ensures var r := ErrorStep(st, i);
      !r.isConnected && r.error == Some(ConnectionErrorText)
      && r.timer == st.timer && r.attempts == st.attempts && r.current == st.current
  {
  }

  /** An unparseable frame changes nothing; a parsed frame on an open socket reaches onMessage once. */
  lemma FrameHandling(st: State, i: nat, f: Frame)
    ensures f.Unparseable? ==> MessageStep(st, i, f) == st
    ensures f.Parsed? && i < |st.sockets| && st.sockets[i].readyState == Open ==>
      MessageStep(st, i, f) == st.(delivered := st.delivered + [f.msg])
  {
  }

  /** `sendMessage` transmits only when the current socket is OPEN; otherwise the message is dropped. */
  lemma SendOnlyWhenOpen(st: State, m: Message)
    requires ValidState(st)
    ensures var r := SendStep(st, m);
      (st.current.Some? && st.sockets[st.current.value].readyState == Open) <==> r.transmitted == st.transmitted + [m]
    ensures var r := SendStep(st, m); r.transmitted == st.transmitted || r.transmitted == st.transmitted + [m]
  {
    var r := SendStep(st, m);
    assert |st.transmitted + [m]| != |st.transmitted|;
  }

  /** `disconnect` clears the tracked timer, closes and forgets the socket, and reports not connected. */
  lemma DisconnectClears(st: State)
    requires ValidState(st)
    ensures var r := DisconnectStep(st);
      r.timer == None && r.current == None && !r.isConnected && r.attempts == st.attempts
      && (st.current.Some? ==> r.sockets[st.current.value].closeRequested)
  {
  }

  /** The counter never exceeds five, whatever happens. */
  lemma {:induction false} RunKeepsValid(st: State, evs: seq<Event>, base: string, endpoint: string)
    requires ValidState(st)
    ensures ValidState(Run(st, evs, base, endpoint))
    ensures Run(st, evs, base, endpoint).attempts <= MaxReconnectAttempts
    decreases |evs|
  {
    if evs != [] {
      StepsKeepValid(st, base, endpoint);
      RunKeepsValid(Step(st, evs[0], base, endpoint), evs[1..], base, endpoint);
    }
  }

  /** Only a `Received` event touches the delivered messages, and it appends at most one. */
  lemma StepDelivers(st: State, e: Event, base: string, endpoint: string)
    requires ValidState(st)
    ensures !e.Received? ==> Step(st, e, base, endpoint).delivered == st.delivered
    ensures e.Received? && e.frame.Parsed? ==>
      Step(st, e, base, endpoint).delivered in {st.delivered, st.delivered + [e.frame.msg]}
    ensures e.Received? && e.frame.Unparseable? ==> Step(st, e, base, endpoint).delivered == st.delivered
  {
    match e {
      case EnabledChanged(en, token, fails) =>
        assert DisconnectStep(st).delivered == st.delivered;
      case _ =>
    }
  }

  /** Messages already handed to onMessage are never lost or reordered, and only
      `Received` events append to them. */
  lemma {:induction false} RunExtendsDelivered(st: State, evs: seq<Event>, base: string, endpoint: string)
    requires ValidState(st)
    ensures var r := Run(st, evs, base, endpoint);
      |r.delivered| >= |st.delivered| && r.delivered[..|st.delivered|] == st.delivered
    ensures (forall k :: 0 <= k < |evs| ==> !evs[k].Received?) ==>
      Run(st, evs, base, endpoint).delivered == st.delivered
    decreases |evs|
  {
    if evs != [] {
      StepsKeepValid(st, base, endpoint);
      var st1 := Step(st, evs[0], base, endpoint);
      StepDelivers(st, evs[0], base, endpoint);
      assert |st1.delivered| >= |st.delivered| && st1.delivered[..|st.delivered|] == st.delivered;
      RunExtendsDelivered(st1, evs[1..], base, endpoint);
      var r := Run(st1, evs[1..], base, endpoint);
      assert r.delivered[..|st.delivered|] == r.delivered[..|st1.delivered|][..|st.delivered|];
      if forall k :: 0 <= k < |evs| ==> !evs[k].Received? {
        assert !evs[0].Received?;
        assert forall k :: 0 <= k < |evs[1..]| ==> !evs[1..][k].Received? by {
          forall k | 0 <= k < |evs[1..]| ensures !evs[1..][k].Received? {
            assert evs[1..][k] == evs[k + 1];
          }
        }
      }
    }
  }

  /** Repeated failed attempts: close the current socket abnormally (1006) and let the
      reconnect timer fire; the result lists the delays that were scheduled. */
  function FailureRun(st: State, k: nat, base: string, endpoint: string, token: Option<string>): (State, seq<nat>)
    requires ValidState(st)
    decreases k
  {
    if k == 0 || st.current.None? || !Live(st, st.current.value) then (st, [])
    else
      var closed := CloseStep(st, st.current.value, 1006);
      if closed.timer.None? then (closed, [])
      else
        var fired := FireTimerStep(closed, base, endpoint, token, false);
        var (fin, ds) := FailureRun(fired, k - 1, base, endpoint, token);
        (fin, [closed.timer.value.delay] + ds)
  }

  ghost predicate Retrying(st: State) {
    && ValidState(st)
    && st.current.Some? && Live(st, st.current.value)
    && st.sockets[st.current.value].handlerEnabled
    && st.timer.None?
  }

  /** One failed attempt below the limit: the delay is BackoffDelay of the incremented
      counter, and the timer's `connect` leaves a new socket retrying. */
  lemma OneFailure(st: State, k: nat, base: string, endpoint: string, token: Option<string>)
    requires Retrying(st) && st.attempts < MaxReconnectAttempts && k > 0
    ensures var closed := CloseStep(st, st.current.value, 1006);
      var fired := FireTimerStep(closed, base, endpoint, token, false);
      && Retrying(fired) && fired.attempts == st.attempts + 1
      && FailureRun(st, k, base, endpoint, token)
         == (FailureRun(fired, k - 1, base, endpoint, token).0,
             [BackoffDelay(st.attempts + 1)] + FailureRun(fired, k - 1, base, endpoint, token).1)
  {
    NonTerminalCloseReconnects(st, st.current.value, 1006);
  }

  /** At the limit, the next failure schedules nothing and ends with the terminal error. */
  lemma FailureAtLimit(st: State, k: nat, base: string, endpoint: string, token: Option<string>)
    requires Retrying(st) && st.attempts >= MaxReconnectAttempts && k > 0
    ensures FailureRun(st, k, base, endpoint, token).1 == []
    ensures FailureRun(st, k, base, endpoint, token).0.error == Some(GaveUpText)
    ensures FailureRun(st, k, base, endpoint, token).0.timer.None?
  {
    CloseAtLimitGivesUp(st, st.current.value, 1006);
  }

  /** The delays `k` failures in a row schedule from `a` attempts: BackoffDelay(a + 1),
      BackoffDelay(a + 2), ..., stopping at the fifth attempt. */
  function ScheduledDelays(a: nat, k: nat): seq<nat>
    decreases k
  {
    if k == 0 || a >= MaxReconnectAttempts then []
    else
      [BackoffDelay(a + 1)] + ScheduledDelays(a + 1, k - 1)
  }

  /** ScheduledDelays counts one delay per attempt left, each the backoff of its attempt. */
  lemma {:induction false} ScheduledDelaysShape(a: nat, k: nat)
    ensures var ds := ScheduledDelays(a, k);
      && |ds| == (if a >= MaxReconnectAttempts then 0
                  else if k <= MaxReconnectAttempts - a then k else MaxReconnectAttempts - a)
      && forall j :: 0 <= j < |ds| ==> ds[j] == BackoffDelay(a + j + 1)
    decreases k
  {
    if k > 0 && a < MaxReconnectAttempts {
      ScheduledDelaysShape(a + 1, k - 1);
      var ds := ScheduledDelays(a, k);
      forall j | 0 <= j < |ds| ensures ds[j] == BackoffDelay(a + j + 1) {
        if j > 0 { assert ds[j] == ScheduledDelays(a + 1, k - 1)[j - 1]; }
      }
    }
  }

  /** `k` failures in a row from a retrying state schedule exactly ScheduledDelays. */
  lemma {:induction false} FailureRunDelays(st: State, k: nat, base: string, endpoint: string, token: Option<string>)
    requires Retrying(st)
    ensures FailureRun(st, k, base, endpoint, token).1 == ScheduledDelays(st.attempts, k)
    decreases k
  {
    if k == 0 {
    } else if st.attempts < MaxReconnectAttempts {
      OneFailure(st, k, base, endpoint, token);
      var fired := FireTimerStep(CloseStep(st, st.current.value, 1006), base, endpoint, token, false);
      FailureRunDelays(fired, k - 1, base, endpoint, token);
    } else {
      FailureAtLimit(st, k, base, endpoint, token);
    }
  }

  /** When the failures outnumber the attempts left, the run ends with the terminal error
      and no timer pending. */
  lemma {:induction false} FailureRunGivesUp(st: State, k: nat, base: string, endpoint: string, token: Option<string>)
    requires Retrying(st) && k > MaxReconnectAttempts - st.attempts
    ensures FailureRun(st, k, base, endpoint, token).0.error == Some(GaveUpText)
    ensures FailureRun(st, k, base, endpoint, token).0.timer.None?
    decreases k
  {
    if st.attempts < MaxReconnectAttempts {
      OneFailure(st, k, base, endpoint, token);
      var fired := FireTimerStep(CloseStep(st, st.current.value, 1006), base, endpoint, token, false);
      FailureRunGivesUp(fired, k - 1, base, endpoint, token);
    } else {
      FailureAtLimit(st, k, base, endpoint, token);
    }
  }

  /** From a fresh start, six failures in a row: delays 2000, 4000, 8000, 16000, 30000, then give up. */
  lemma FreshFailureSchedule(st: State, base: string, endpoint: string, token: Option<string>)
    requires Retrying(st) && st.attempts == 0
    ensures FailureRun(st, 6, base, endpoint, token).1 == [2000, 4000, 8000, 16000, 30000]
    ensures FailureRun(st, 6, base, endpoint, token).0.error == Some(GaveUpText)
  {
    FailureRunDelays(st, 6, base, endpoint, token);
    FailureRunGivesUp(st, 6, base, endpoint, token);
    BackoffValues();
    ScheduledDelaysShape(0, 6);
    var ds := ScheduledDelays(0, 6);
    assert |ds| == 5;
    assert ds[0] == 2000 && ds[1] == 4000 && ds[2] == 8000 && ds[3] == 16000 && ds[4] == 30000;
  }

  /** Turning `enabled` off closes the socket without a code; its close event (1005) then runs
      the old handler, which still sees `enabled` as true, schedules a reconnect, and the timer
      opens a new socket although the hook is now disabled. */
  lemma DisableThenReconnects(st: State, base: string, endpoint: string, token: Option<string>)
    requires Retrying(st) && st.enabled && st.attempts < MaxReconnectAttempts
    ensures var i := st.current.value;
      var off := SetEnabledStep(st, false, base, endpoint, token, false);
      var closed := ClosedAfterDisconnectStep(off, i);
      var fired := FireTimerStep(closed, base, endpoint, token, false);
      && !off.enabled && off.timer.None? && off.current.None?
      && closed.timer == Some(Timer(BackoffDelay(st.attempts + 1), true))
      && !fired.enabled && fired.current == Some(|st.sockets|)
      && fired.sockets[|st.sockets|].readyState == Connecting
  {
    var i := st.current.value;
    var off := SetEnabledStep(st, false, base, endpoint, token, false);
    assert off.sockets[i].closeRequested && Live(off, i);
    NonTerminalCloseReconnects(off, i, CloseNoStatus);
  }
}
