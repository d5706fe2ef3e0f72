/** The organisation's notification aggregator (the `useNotifications` hook).

    Every `loadUnreadCount()` / `loadPendingApplications()` call issues one
    request; its answer arrives later as a separate event. The class keeps the
    hook's state variables and counts the requests issued, so that "one refresh"
    can be stated. Toasts shown are recorded in order. */
module Notifications {
  import opened Wrappers
  import opened ApiTypes
  import WebSocket

  const PollIntervalMs: nat := 30000
  const UnknownEventText := "Nepoznat događaj"
  const NewApplicationPrefix := "🔔 Nova prijava na događaj: "
  const StatusChangedPrefix := "Status prijave je promenjen: "

  /** The socket subscription and the poll exist only for an authenticated organisation. */
  predicate Subscribed(isAuthenticated: bool, role: Option<string>) {
    isAuthenticated && role == Some("organisation")
  }

  /** The body of `GET /notifications/count`: the client reads `count`, the server sends `unread`. */
  datatype CountBody = CountBody(count: Option<int>, unread: Option<int>)

  datatype CountFetch = CountFailed | CountOk(body: Option<CountBody>)

  datatype PendingFetch = PendingFailed | PendingOk(apps: seq<ApplicationPublic>)

  /** `result?.count || 0` */
  function StoredCount(body: Option<CountBody>): (n: int)
    ensures body.Some? && body.value.count.Some? ==> n == body.value.count.value
    ensures body.None? || body.value.count.None? ==> n == 0
  {
    match body
    case Some(b) => b.count.GetOr(0)
    case None => 0
  }

  /** The status word shown for a status change; an absent status prints as "undefined". */
  function StatusLabel(status: Option<string>): (shown: string)
    ensures status == Some("accepted") ==> shown == "prihvaćena"
    ensures status == Some("rejected") ==> shown == "odbijena"
    ensures status.Some? && status.value != "accepted" && status.value != "rejected" ==> shown == status.value
  {
    match status
    case None => "undefined"
    case Some(s) => if s == "accepted" then "prihvaćena" else if s == "rejected" then "odbijena" else s
  }

  /** `data.event_title || data.title || "Nepoznat događaj"` */
  function EventLabel(p: WebSocket.Payload): (shown: string)
    ensures shown != ""
    ensures Truthy(p.eventTitle) ==> shown == p.eventTitle.value
    ensures !Truthy(p.eventTitle) && Truthy(p.title) ==> shown == p.title.value
  {
    OrElse(OrElse(p.eventTitle, p.title), Some(UnknownEventText)).value
  }

  datatype State = State(
    unreadCount: int,
    pending: seq<ApplicationPublic>,
    hasNewApplication: bool,
    countRequests: nat,      // calls of loadUnreadCount so far
    pendingRequests: nat,    // calls of loadPendingApplications so far
    toasts: seq<string>,     // "info" toasts shown, in order
    polling: bool,           // the 30 s interval exists
    isConnected: bool)       // the value the effect last saw

  predicate IsNewApplication(t: string) { t == "new_application" || t == "application_created" }
  predicate IsStatusChange(t: string) { t == "application_status_changed" || t == "application_updated" }

  function RefreshBoth(st: State): State {
    st.(countRequests := st.countRequests + 1, pendingRequests := st.pendingRequests + 1)
  }

  /** `handleWebSocketMessage` */
  function MessageStep(st: State, m: WebSocket.Message): State {
    if IsNewApplication(m.msgType) then
      var st1 := RefreshBoth(st).(hasNewApplication := true);
      if m.data.Some? then st1.(toasts := st.toasts + [NewApplicationPrefix + EventLabel(m.data.value)])
      else if Truthy(m.text) then st1.(toasts := st.toasts + [m.text.value])
      else st1
    else if IsStatusChange(m.msgType) then
      var st1 := RefreshBoth(st);
      if m.data.Some? then st1.(toasts := st.toasts + [StatusChangedPrefix + StatusLabel(m.data.value.status)])
      else st1
    else if m.msgType == "notification" then
      var st1 := st.(countRequests := st.countRequests + 1);
      if Truthy(m.text) then st1.(toasts := st.toasts + [m.text.value]) else st1
    else st
  }

  /** The answer to a `loadUnreadCount` request. */
  function CountLoadedStep(st: State, f: CountFetch): State {
    match f
    case CountFailed => st
    case CountOk(body) => st.(unreadCount := StoredCount(body))
  }

  /** The answer to a `loadPendingApplications` request. */
  function PendingLoadedStep(st: State, f: PendingFetch): State {
    match f
    case PendingFailed => st.(pending := [])
    case PendingOk(apps) => st.(pending := WithStatus(apps, "pending"))
  }

  /** The polling effect, run whenever `isAuthenticated`, `role` or `isConnected` changes:
      the previous interval is cleared, and for an organisation both values are loaded
      and a new interval started. */
  function EffectStep(st: State, isAuthenticated: bool, role: Option<string>, isConnected: bool): State {
    var st1 := st.(polling := false, isConnected := isConnected);
    if Subscribed(isAuthenticated, role) then RefreshBoth(st1).(polling := true) else st1
  }

  /** One tick of the interval. */
  function PollTickStep(st: State): State {
    if st.polling && !st.isConnected then RefreshBoth(st) else st
  }

  /** The hook's state variables, updated by its callbacks. */
  class NotificationsHook {
    var unreadCount: int
    var pending: seq<ApplicationPublic>
    var hasNewApplication: bool
    var countRequests: nat
    var pendingRequests: nat
    var toasts: seq<string>
    var polling: bool
    var isConnected: bool

    function Snapshot(): State
      reads this
    {
      State(unreadCount, pending, hasNewApplication, countRequests, pendingRequests, toasts, polling, isConnected)
    }

    /** Mounting: initial values, then the effect's first run. */
    constructor (isAuthenticated: bool, role: Option<string>)
      ensures Snapshot() == EffectStep(State(0, [], false, 0, 0, [], false, false), isAuthenticated, role, false)
    {
      unreadCount := 0;
      pending := [];
      hasNewApplication := false;
      countRequests := 0;
      pendingRequests := 0;
      toasts := [];
      polling := false;
      isConnected := false;
      new;
      RunEffect(isAuthenticated, role, false);
    }

    method LoadUnreadCount()
      modifies this
      ensures Snapshot() == old(Snapshot()).(countRequests := old(countRequests) + 1)
    {
      countRequests := countRequests + 1;
    }

    method LoadPendingApplications()
      modifies this
      ensures Snapshot() == old(Snapshot()).(pendingRequests := old(pendingRequests) + 1)
    {
      pendingRequests := pendingRequests + 1;
    }

    method HandleWebSocketMessage(m: WebSocket.Message)
      modifies this
      ensures Snapshot() == MessageStep(old(Snapshot()), m)
    {
      ghost var before := Snapshot();
      if IsNewApplication(m.msgType) {
        hasNewApplication := true;
        LoadUnreadCount();
        LoadPendingApplications();
        assert Snapshot() == RefreshBoth(before).(hasNewApplication := true);
        if m.data.Some? {
          toasts := toasts + [NewApplicationPrefix + EventLabel(m.data.value)];
        } else if Truthy(m.text) {
          toasts := toasts + [m.text.value];
        }
      } else if IsStatusChange(m.msgType) {
        LoadUnreadCount();
        LoadPendingApplications();
        assert Snapshot() == RefreshBoth(before);
        if m.data.Some? {
          toasts := toasts + [StatusChangedPrefix + StatusLabel(m.data.value.status)];
        }
      } else if m.msgType == "notification" {
        LoadUnreadCount();
        if Truthy(m.text) {
          toasts := toasts + [m.text.value];
        }
      }
    }

    method OnCountLoaded(f: CountFetch)
      modifies this
      ensures Snapshot() == CountLoadedStep(old(Snapshot()), f)
    {
      if f.CountOk? {
        unreadCount := StoredCount(f.body);
      }
    }

    method OnPendingLoaded(f: PendingFetch)
      modifies this
      ensures Snapshot() == PendingLoadedStep(old(Snapshot()), f)
    {
      match f
      case PendingFailed => pending := [];
      case PendingOk(apps) => pending := WithStatus(apps, "pending");
    }

    method RunEffect(isAuthenticated: bool, role: Option<string>, connected: bool)
      modifies this
      ensures Snapshot() == EffectStep(old(Snapshot()), isAuthenticated, role, connected)
    {
      polling := false;
      isConnected := connected;
      if isAuthenticated && role == Some("organisation") {
        LoadUnreadCount();
        LoadPendingApplications();
        polling := true;
      }
    }

    method PollTick()
      modifies this
      ensures Snapshot() == PollTickStep(old(Snapshot()))
    {
      if polling && !isConnected {
        LoadUnreadCount();
        LoadPendingApplications();
      }
    }

    /** The exported `setHasNewApplication`. */
    method SetHasNewApplication(b: bool)
      modifies this
      ensures Snapshot() == old(Snapshot()).(hasNewApplication := b)
    {
      hasNewApplication := b;
    }
  }
}

/** What the aggregator promises. */
module NotificationsProperties {
  import opened Wrappers
  import opened ApiTypes
  import opened Notifications
  import WebSocket

  /** A new application raises the flag and issues exactly one refresh of each value. */
  lemma NewApplicationRefreshesBoth(st: State, m: WebSocket.Message)
    requires IsNewApplication(m.msgType)
    ensures var r := MessageStep(st, m);
      && r.hasNewApplication
      && r.countRequests == st.countRequests + 1 && r.pendingRequests == st.pendingRequests + 1
      && r.unreadCount == st.unreadCount && r.pending == st.pending && r.polling == st.polling
  {
  }

  /** A status change refreshes both values and leaves the flag as it was; its toast names
      the new status in words. */
  lemma StatusChangeRefreshesBoth(st: State, m: WebSocket.Message)
    requires IsStatusChange(m.msgType)
    ensures var r := MessageStep(st, m);
      && r.hasNewApplication == st.hasNewApplication
      && r.countRequests == st.countRequests + 1 && r.pendingRequests == st.pendingRequests + 1
      && (m.data.Some? ==> r.toasts == st.toasts + [StatusChangedPrefix + StatusLabel(m.data.value.status)])
      && (m.data.None? ==> r.toasts == st.toasts)
  {
  }

  /** A general notification refreshes only the unread count; any other type changes nothing. */
  lemma OtherMessages(st: State, m: WebSocket.Message)
    ensures m.msgType == "notification" ==>
      var r := MessageStep(st, m);
      r.countRequests == st.countRequests + 1 && r.pendingRequests == st.pendingRequests
      && r.hasNewApplication == st.hasNewApplication
    ensures !IsNewApplication(m.msgType) && !IsStatusChange(m.msgType) && m.msgType != "notification" ==>
      MessageStep(st, m) == st
  {
  }

  /** The pending snapshot is replaced outright: afterwards it depends only on the answer,
      holds exactly the fetched pending applications, and is empty after a failure. */
  lemma PendingIsReplaced(st1: State, st2: State, f: PendingFetch)
    ensures PendingLoadedStep(st1, f).pending == PendingLoadedStep(st2, f).pending
    ensures f.PendingFailed? ==> PendingLoadedStep(st1, f).pending == []
    ensures f.PendingOk? ==> forall a :: a in PendingLoadedStep(st1, f).pending <==> a in f.apps && a.status == "pending"
  {
  }

  /** A failed count fetch keeps the previous count. */
  lemma CountFailureKeeps(st: State)
    ensures CountLoadedStep(st, CountFailed) == st
  {
  }

  /** The server's answer `{"unread": n}` has no `count`. */
  predicate ServerShaped(f: CountFetch) {
    f.CountOk? ==> f.body.Some? && f.body.value.count.None?
  }

  /** Everything that happens to the hook. */
  datatype Event =
    | Message(m: WebSocket.Message)
    | CountLoaded(cf: CountFetch)
    | PendingLoaded(pf: PendingFetch)
    | Effect(isAuthenticated: bool, role: Option<string>, isConnected: bool)
    | Tick
    | FlagSet(b: bool)

  function Step(st: State, e: Event): State {
    match e
    case Message(m) => MessageStep(st, m)
    case CountLoaded(f) => CountLoadedStep(st, f)
    case PendingLoaded(f) => PendingLoadedStep(st, f)
    case Effect(a, r, c) => EffectStep(st, a, r, c)
    case Tick => PollTickStep(st)
    case FlagSet(b) => st.(hasNewApplication := b)
  }

  function Run(st: State, evs: seq<Event>): State
    decreases |evs|
  {
    if evs == [] then st else Run(Step(st, evs[0]), evs[1..])
  }

  /** Against the real server the displayed unread count stays 0 forever. */
  lemma {:induction false} UnreadCountStaysZero(st: State, evs: seq<Event>)
    requires st.unreadCount == 0
    requires forall k :: 0 <= k < |evs| && evs[k].CountLoaded? ==> ServerShaped(evs[k].cf)
    ensures Run(st, evs).unreadCount == 0
    decreases |evs|
  {
    if evs != [] {
      var st1 := Step(st, evs[0]);
      assert st1.unreadCount == 0;
      forall k | 0 <= k < |evs[1..]| && evs[1..][k].CountLoaded?
        ensures ServerShaped(evs[1..][k].cf)
      {
        assert evs[1..][k] == evs[k + 1];
      }
      UnreadCountStaysZero(st1, evs[1..]);
    }
  }

  /** A poll tick refreshes both values exactly when the interval exists and the socket
      is down; the interval exists exactly for an authenticated organisation. */
  lemma PollGate(st: State, isAuthenticated: bool, role: Option<string>, isConnected: bool)
    ensures var r := PollTickStep(st);
      (r == RefreshBoth(st) <==> st.polling && !st.isConnected)
      && (r != RefreshBoth(st) ==> r == st)
    ensures EffectStep(st, isAuthenticated, role, isConnected).polling <==> Subscribed(isAuthenticated, role)
  {
    assert RefreshBoth(st).countRequests != st.countRequests;
  }

  /** Ticks change nothing once the effect ran for anyone but an authenticated organisation. */
  lemma {:induction false} NoPollingWhenUnsubscribed(st: State, isAuthenticated: bool, role: Option<string>, c: bool, n: nat)
    requires !Subscribed(isAuthenticated, role)
    ensures var st1 := EffectStep(st, isAuthenticated, role, c);
      Run(st1, seq(n, _ => Tick)) == st1
    decreases n
  {
    var st1 := EffectStep(st, isAuthenticated, role, c);
    if n > 0 {
      assert seq(n, _ => Tick)[1..] == seq(n - 1, _ => Tick);
      NoPollingWhenUnsubscribed(st, isAuthenticated, role, c, n - 1);
    }
  }
}
