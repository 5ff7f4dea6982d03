/** The bridge between the Arlo base station and the MQTT alarm panel, as a pure state
    machine. Each function below is one callback of `ArloAlarmControlPanel`, run atomically
    (the app's lock makes the three lock-holding callbacks mutually exclusive); the cloud's
    answers come in as parameters and the MQTT publishes, cloud requests, logins and
    AppDaemon timers are recorded in the state. */
module BridgeMachine {
  import opened Wrappers
  import opened ArloConfig

  // Alarm modes, as published on the state topic and as the Arlo cloud names them.
  const UNKNOWN := "unknown"
  const PENDING := "pending"
  const DISARMED := "disarmed"
  const ARMED := "armed"
  const ARMED_AWAY := "armed_away"

  // The two commands recognised on the command topic.
  const DISARM_PAYLOAD := "DISARM"
  const ARM_AWAY_PAYLOAD := "ARM_AWAY"

  /** Seconds between two polls of the base station. */
  const POLL_INTERVAL := 1
  /** Every publish on the state topic asks for at-least-once delivery. */
  const STATE_QOS := 1

  /** What a timer runs when it fires: the poll `update_state`, or `_set_alarm_mode` with
      the `mode` keyword it was scheduled with. */
  datatype Callback = Poll | SetMode(mode: string)

  /** One call to AppDaemon's `run_in`: the delay in seconds and the callback. */
  datatype Timer = Timer(delay: int, callback: Callback)

  /** One `client.publish(topic, payload, qos=..., retain=...)`. */
  datatype Publish = Publish(topic: string, payload: string, qos: nat, retain: bool)

  /** Whether `arlo.login()` returns or raises. */
  datatype LoginOutcome = LoginSucceeds | LoginRaises

  /** Whether `base.publish(action='set', ...)` returns or raises. */
  datatype RequestOutcome = RequestSucceeds | RequestRaises

  /** A timer handle is the position of its `run_in` call in the timer log. */
  type TimerHandle = nat

  /** The app's fields, plus logs of everything it has done to the outside world:
      - previousMode: the last mode published as the durable state (`previous_mode`)
      - pendingCommand: the slot of the delayed mode change (`pending_command`)
      - handle: the slot of the poll timer (`handle`)
      - arloLive: false once `terminate` has set `arlo` to None
      - timers: every `run_in`, in order; cancelled: handles passed to `cancel_timer`;
        fired: handles whose callback has run
      - published, cloudRequests, logins: MQTT publishes, modes sent to the base station,
        and the number of `login()` attempts */
  datatype State = State(
    previousMode: string,
    pendingCommand: Option<TimerHandle>,
    handle: TimerHandle,
    arloLive: bool,
    timers: seq<Timer>,
    cancelled: set<TimerHandle>,
    fired: set<TimerHandle>,
    published: seq<Publish>,
    cloudRequests: seq<string>,
    logins: nat)

  /** A timer that was scheduled and has neither been cancelled nor run yet. */
  predicate Outstanding(st: State, h: TimerHandle) {
    h < |st.timers| && h !in st.cancelled && h !in st.fired
  }

  /** The state `initialize` leaves: mode unknown, no command pending, and the first poll
      scheduled one second out. */
  function InitialState(): (st: State)
    ensures st.previousMode == UNKNOWN && st.pendingCommand.None? && st.arloLive
    ensures st.timers == [Timer(POLL_INTERVAL, Poll)] && Outstanding(st, st.handle)
    ensures st.published == [] && st.cloudRequests == [] && st.logins == 0
  {
    State(UNKNOWN, None, 0, true, [Timer(POLL_INTERVAL, Poll)], {}, {}, [], [], 0)
  }

  /** `cancel_timer` on a slot; an empty slot cancels nothing. */
  function CancelSlot(cancelled: set<TimerHandle>, slot: Option<TimerHandle>): set<TimerHandle> {
    match slot
    case Some(h) => cancelled + {h}
    case None => cancelled
  }

  /** Publish the transient `pending` and schedule `_set_alarm_mode(mode=target)`. */
  function Announce(cfg: Config, st: State, target: string, delay: int): State {
    st.(published := st.published + [Publish(Resolve(cfg).stateTopic, PENDING, STATE_QOS, false)],
        pendingCommand := Some(|st.timers|),
        timers := st.timers + [Timer(delay, SetMode(target))])
  }

  /** `on_message`: cancel both timer slots, act on a recognised command, and schedule the
      next poll. Note that ARM_AWAY takes its delay from the `armed_away` section but asks the
      cloud for mode `armed`. */
  function OnMessage(cfg: Config, st: State, payload: string): (r: State)
    ensures st.handle in r.cancelled
    ensures st.pendingCommand.Some? ==> st.pendingCommand.value in r.cancelled
    ensures r.handle == |r.timers| - 1 && r.timers[r.handle] == Timer(POLL_INTERVAL, Poll)
    ensures |st.timers| < |r.timers| && r.timers[..|st.timers|] == st.timers
    ensures |st.published| <= |r.published| <= |st.published| + 1 && r.published[..|st.published|] == st.published
    ensures r.previousMode == st.previousMode && r.arloLive == st.arloLive
    ensures r.cloudRequests == st.cloudRequests && r.logins == st.logins && r.fired == st.fired
  {
    var st1 := st.(cancelled := CancelSlot(CancelSlot(st.cancelled, Some(st.handle)), st.pendingCommand));
    var st2 :=
      if payload == DISARM_PAYLOAD then Announce(cfg, st1, DISARMED, PendingTime(cfg, DISARMED))
      else if payload == ARM_AWAY_PAYLOAD then Announce(cfg, st1, ARMED, PendingTime(cfg, ARMED_AWAY))
      else st1;
    st2.(handle := |st2.timers|, timers := st2.timers + [Timer(POLL_INTERVAL, Poll)])
  }

  /** `_set_alarm_mode`: nothing once the session is torn down; otherwise ask the cloud for
      `mode` and, when that request returns, mark the last mode as `pending`. */
  function SetAlarmMode(st: State, mode: string, request: RequestOutcome): (r: State)
    ensures r.published == st.published && r.timers == st.timers && r.handle == st.handle
    ensures r.pendingCommand == st.pendingCommand && r.arloLive == st.arloLive
    ensures r.previousMode == st.previousMode || r.previousMode == PENDING
    ensures r.cloudRequests == st.cloudRequests || r.cloudRequests == st.cloudRequests + [mode]
    ensures r.logins == st.logins && r.cancelled == st.cancelled && r.fired == st.fired
  {
    if !st.arloLive then st
    else
      var st1 := st.(cloudRequests := st.cloudRequests + [mode]);
      if request == RequestRaises then st1 else st1.(previousMode := PENDING)
  }

  /** `_set_alarm_mode` ends with the cloud's exception propagating. */
  predicate SetAlarmModeRaises(st: State, request: RequestOutcome) {
    st.arloLive && request == RequestRaises
  }

  /** The cloud's `armed` carries no home/away distinction and is reported as `armed_away`;
      every other reading, and the absence of one, is kept. */
  function Normalize(cloudMode: Option<string>): (mode: Option<string>)
    ensures mode != Some(ARMED)
    ensures cloudMode == Some(ARMED) ==> mode == Some(ARMED_AWAY)
    ensures mode.None? <==> cloudMode.None?
    ensures cloudMode.Some? && cloudMode.value != ARMED ==> mode == cloudMode
  {
    if cloudMode == Some(ARMED) then Some(ARMED_AWAY) else cloudMode
  }

  /** `update_state`: nothing once the session is torn down. Otherwise read the base
      station's mode; an absent one means a stale session and costs one login, whose
      exception ends the callback without a reschedule, and whose success still leaves the
      mode absent for this round. A present, normalised mode that differs from the last one
      is published retained and becomes the last one. Then the next poll is scheduled. */
  function UpdateState(cfg: Config, st: State, cloudMode: Option<string>, login: LoginOutcome): (r: State)
    ensures r.cloudRequests == st.cloudRequests && r.pendingCommand == st.pendingCommand
    ensures r.arloLive == st.arloLive && r.cancelled == st.cancelled && r.fired == st.fired
    ensures st.logins <= r.logins <= st.logins + 1
    ensures |st.timers| <= |r.timers| <= |st.timers| + 1 && r.timers[..|st.timers|] == st.timers
    ensures r.published == st.published
         || r.published == st.published + [Publish(Resolve(cfg).stateTopic, r.previousMode, STATE_QOS, true)]
  {
    if !st.arloLive then st
    else if cloudMode.None? && login == LoginRaises then st.(logins := st.logins + 1)
    else
      var st1 := if cloudMode.None? then st.(logins := st.logins + 1) else st;
      var mode := Normalize(cloudMode);
      var st2 :=
        if mode.Some? && st1.previousMode != mode.value then
          st1.(previousMode := mode.value,
               published := st1.published + [Publish(Resolve(cfg).stateTopic, mode.value, STATE_QOS, true)])
        else st1;
      st2.(handle := |st2.timers|, timers := st2.timers + [Timer(POLL_INTERVAL, Poll)])
  }

  /** `update_state` ends with the login's exception propagating. */
  predicate UpdateStateRaises(st: State, cloudMode: Option<string>, login: LoginOutcome) {
    st.arloLive && cloudMode.None? && login == LoginRaises
  }

  /** `terminate`: the session is dropped; no timer is cancelled. */
  function Terminate(st: State): (r: State)
    ensures !r.arloLive
    ensures r.previousMode == st.previousMode && r.pendingCommand == st.pendingCommand && r.handle == st.handle
    ensures r.timers == st.timers && r.cancelled == st.cancelled && r.fired == st.fired
    ensures r.published == st.published && r.cloudRequests == st.cloudRequests && r.logins == st.logins
  {
    st.(arloLive := false)
  }

  /** Something that happens to the app: a message on the command topic, a timer firing
      (with the answers the cloud gives during its callback), or `terminate`. */
  datatype Event =
    | Message(payload: string)
    | Fire(h: TimerHandle, cloudMode: Option<string>, login: LoginOutcome, request: RequestOutcome)
    | Teardown

  /** Timer `h` fires: it is used up, and its callback runs with the keywords it was
      scheduled with. */
  function FireTimer(cfg: Config, st: State, h: TimerHandle, cloudMode: Option<string>,
                     login: LoginOutcome, request: RequestOutcome): (r: State)
    requires h < |st.timers|
    ensures r.fired == st.fired + {h} && r.cancelled == st.cancelled
    ensures |st.timers| <= |r.timers| && r.timers[..|st.timers|] == st.timers
    ensures r.arloLive == st.arloLive
  {
    var st1 := st.(fired := st.fired + {h});
    match st.timers[h].callback
    case Poll => UpdateState(cfg, st1, cloudMode, login)
    case SetMode(m) => SetAlarmMode(st1, m, request)
  }

  /** One event. Only an outstanding timer fires (a cancelled one never does), and once
      `terminate` has stopped the MQTT loop no message is delivered. */
  function Step(cfg: Config, st: State, e: Event): State {
    match e
    case Message(p) => if st.arloLive then OnMessage(cfg, st, p) else st
    case Fire(h, c, l, r) => if Outstanding(st, h) then FireTimer(cfg, st, h, c, l, r) else st
    case Teardown => Terminate(st)
  }

  /** A sequence of events, one after the other. */
  function Run(cfg: Config, st: State, events: seq<Event>): State
    decreases |events|
  {
    if events == [] then st else Run(cfg, Step(cfg, st, events[0]), events[1..])
  }

  /** Both timer slots point at timers of their kind, and only scheduled timers are ever
      cancelled or fired. */
  ghost predicate WellFormed(st: State) {
    && st.handle < |st.timers|
    && (forall h :: h in st.cancelled ==> h < |st.timers|)
    && (forall h :: h in st.fired ==> h < |st.timers|)
    && st.timers[st.handle].callback.Poll?
    && (st.pendingCommand.Some? ==>
          st.pendingCommand.value < |st.timers| && st.timers[st.pendingCommand.value].callback.SetMode?)
  }

  /** The bridge's timer discipline: the only poll timer that can still fire is the one in
      `handle`, and the only mode change that can still fire is the one in `pendingCommand`. */
  ghost predicate Inv(st: State) {
    && WellFormed(st)
    && (forall h: TimerHandle :: Outstanding(st, h) && st.timers[h].callback.Poll? ==> h == st.handle)
    && (forall h: TimerHandle :: Outstanding(st, h) && st.timers[h].callback.SetMode? ==> st.pendingCommand == Some(h))
  }
}
