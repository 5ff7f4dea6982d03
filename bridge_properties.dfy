/** What the bridge promises, proved about the state machine of `BridgeMachine`. */
module BridgeProperties {
  import opened Wrappers
  import opened ArloConfig
  import opened BridgeMachine

  /** Every state-topic publish goes to the configured topic with qos 1; the non-retained
      ones are the transient `pending`, and the cloud's raw `armed` is never published. */
  ghost predicate PublishesConform(cfg: Config, st: State) {
    forall i :: 0 <= i < |st.published| ==>
      && st.published[i].topic == Resolve(cfg).stateTopic
      && st.published[i].qos == STATE_QOS
      && st.published[i].payload != ARMED
      && (!st.published[i].retain ==> st.published[i].payload == PENDING)
  }

  /** No poll timer can fire any more. */
  ghost predicate PollingStopped(st: State) {
    forall k: TimerHandle :: Outstanding(st, k) ==> !st.timers[k].callback.Poll?
  }

  // ----- initialize -----

  /** `initialize` starts with mode `unknown`, no command, and one poll one second out. */
  lemma InitialStateKeepsDiscipline(cfg: Config)
    ensures Inv(InitialState()) && PublishesConform(cfg, InitialState())
    ensures InitialState().previousMode == UNKNOWN && InitialState().pendingCommand.None?
    ensures Outstanding(InitialState(), InitialState().handle)
    ensures InitialState().timers[InitialState().handle] == Timer(POLL_INTERVAL, Poll)
  {
  }

  // ----- on_message -----

  /** A `DISARM` command announces `pending` once, non-retained, and schedules exactly one
      `_set_alarm_mode(mode='disarmed')` after the `disarmed` delay; the last published mode,
      the cloud and the login count are untouched. */
  lemma DisarmAnnouncesPending(cfg: Config, st: State)
    requires WellFormed(st)
    ensures var st' := OnMessage(cfg, st, DISARM_PAYLOAD);
      && st'.published == st.published + [Publish(Resolve(cfg).stateTopic, PENDING, STATE_QOS, false)]
      && st'.pendingCommand.Some? && Outstanding(st', st'.pendingCommand.value)
      && st'.timers[st'.pendingCommand.value] == Timer(PendingTime(cfg, DISARMED), SetMode(DISARMED))
      && st'.previousMode == st.previousMode
      && st'.cloudRequests == st.cloudRequests && st'.logins == st.logins
  {
  }

  /** An `ARM_AWAY` command announces `pending` non-retained and schedules a change to the
      cloud mode `armed`, delayed by the `armed_away` section's setting. */
  lemma ArmAwayAnnouncesPending(cfg: Config, st: State)
    requires WellFormed(st)
    ensures var st' := OnMessage(cfg, st, ARM_AWAY_PAYLOAD);
      && st'.published == st.published + [Publish(Resolve(cfg).stateTopic, PENDING, STATE_QOS, false)]
      && st'.pendingCommand.Some? && Outstanding(st', st'.pendingCommand.value)
      && st'.timers[st'.pendingCommand.value] == Timer(PendingTime(cfg, ARMED_AWAY), SetMode(ARMED))
      && st'.previousMode == st.previousMode
      && st'.cloudRequests == st.cloudRequests && st'.logins == st.logins
  {
  }

  /** Any other payload publishes nothing and schedules no mode change, yet still cancels the
      one in flight: afterwards no mode change can fire. */
  lemma OtherPayloadDropsCommand(cfg: Config, st: State, payload: string)
    requires Inv(st)
    requires payload != DISARM_PAYLOAD && payload != ARM_AWAY_PAYLOAD
    ensures var st' := OnMessage(cfg, st, payload);
      && st'.published == st.published
      && st'.previousMode == st.previousMode
      && (forall h: TimerHandle :: Outstanding(st', h) ==> !st'.timers[h].callback.SetMode?)
  {
  }

  /** After any message the earlier poll timer and mode change are cancelled, exactly one poll
      is outstanding (the new one, one second out) and at most one mode change: the last
      command wins. */
  lemma OnMessageKeepsDiscipline(cfg: Config, st: State, payload: string)
    requires Inv(st)
    ensures var st' := OnMessage(cfg, st, payload);
      && Inv(st')
      && st.handle in st'.cancelled
      && (st.pendingCommand.Some? ==> st.pendingCommand.value in st'.cancelled)
      && Outstanding(st', st'.handle)
      && st'.timers[st'.handle] == Timer(POLL_INTERVAL, Poll)
      && (forall h: TimerHandle :: Outstanding(st', h) && st'.timers[h].callback.Poll? ==> h == st'.handle)
  {
  }

  /** The delays of the scenario where the default is 5 seconds and `armed_away` overrides
      it with 10: arming waits 10 seconds, disarming 5. */
  lemma ScenarioPendingTimes(st: State)
    requires WellFormed(st)
    ensures var cfg := Config(Some(5), None, None, None, map[ARMED_AWAY := map[PENDING_TIME_KEY := 10]]);
      var armed := OnMessage(cfg, st, ARM_AWAY_PAYLOAD);
      var disarmed := OnMessage(cfg, st, DISARM_PAYLOAD);
      && armed.pendingCommand.Some? && armed.timers[armed.pendingCommand.value].delay == 10
      && disarmed.pendingCommand.Some? && disarmed.timers[disarmed.pendingCommand.value].delay == 5
  {
  }

  // ----- _set_alarm_mode -----

  /** A mode change on a live session asks the cloud for that mode and, when the request
      returns, sets the last mode to `pending`, so the next poll that reads any mode other
      than `pending` publishes it; when the request raises, the last mode is kept. Nothing
      is published either way. */
  lemma SetAlarmModeForcesRepublish(cfg: Config, st: State, mode: string, request: RequestOutcome,
                                    cloudMode: string, login: LoginOutcome)
    requires st.arloLive
    requires Normalize(Some(cloudMode)) != Some(PENDING)
    ensures var st' := SetAlarmMode(st, mode, request);
      && st'.cloudRequests == st.cloudRequests + [mode]
      && st'.published == st.published
      && (SetAlarmModeRaises(st, request) ==> st'.previousMode == st.previousMode)
      && (request == RequestSucceeds ==>
            && st'.previousMode == PENDING
            && UpdateState(cfg, st', Some(cloudMode), login).published
               == st'.published + [Publish(Resolve(cfg).stateTopic, Normalize(Some(cloudMode)).value, STATE_QOS, true)])
  {
  }

  /** A command whose cloud request raises leaves `pending` as the last message on the state
      topic, and a poll that reads the mode the bridge last recorded does not correct it. */
  lemma PendingStuckAfterRaisedRequest(cfg: Config, st: State, cloudMode: string, login: LoginOutcome)
    requires WellFormed(st) && st.arloLive
    requires Normalize(Some(cloudMode)) == Some(st.previousMode)
    ensures var announced := OnMessage(cfg, st, DISARM_PAYLOAD);
      var applied := SetAlarmMode(announced, DISARMED, RequestRaises);
      var polled := UpdateState(cfg, applied, Some(cloudMode), login);
      && polled.published == announced.published
      && polled.published[|polled.published| - 1].payload == PENDING
  {
  }

  /** A command dropped by an unrecognised payload leaves `pending` as the last message on the
      state topic with no mode change left to fire, and a poll that reads the mode the bridge
      last recorded does not correct it. */
  lemma PendingStuckAfterDroppedCommand(cfg: Config, st: State, payload: string, cloudMode: string,
                                        login: LoginOutcome)
    requires Inv(st) && st.arloLive
    requires payload != DISARM_PAYLOAD && payload != ARM_AWAY_PAYLOAD
    requires Normalize(Some(cloudMode)) == Some(st.previousMode)
    ensures var announced := OnMessage(cfg, st, DISARM_PAYLOAD);
      var dropped := OnMessage(cfg, announced, payload);
      var polled := UpdateState(cfg, dropped, Some(cloudMode), login);
      && polled.published == announced.published
      && polled.published[|polled.published| - 1].payload == PENDING
      && (forall h: TimerHandle :: Outstanding(dropped, h) ==> !dropped.timers[h].callback.SetMode?)
  {
    OnMessageKeepsDiscipline(cfg, st, DISARM_PAYLOAD);
    OtherPayloadDropsCommand(cfg, OnMessage(cfg, st, DISARM_PAYLOAD), payload);
  }

  // ----- update_state -----

  /** A poll that reads a mode publishes its normalised form, retained with qos 1, exactly
      when it differs from the last published mode, and then records it; in every case it
      reschedules itself one second out and touches neither the cloud nor the login count. */
  lemma PollPublishesOnlyChanges(cfg: Config, st: State, cloudMode: string, login: LoginOutcome)
    requires st.arloLive
    ensures var st' := UpdateState(cfg, st, Some(cloudMode), login);
      var mode := Normalize(Some(cloudMode)).value;
      && (mode != st.previousMode ==>
            st'.published == st.published + [Publish(Resolve(cfg).stateTopic, mode, STATE_QOS, true)])
      && (mode == st.previousMode ==> st'.published == st.published)
      && st'.previousMode == mode
      && st'.handle == |st.timers| && st'.timers == st.timers + [Timer(POLL_INTERVAL, Poll)]
      && st'.logins == st.logins && st'.cloudRequests == st.cloudRequests
      && !UpdateStateRaises(st, Some(cloudMode), login)
  {
  }

  /** The cloud's `armed` is published as `armed_away`. */
  lemma PollReportsArmedAsArmedAway(cfg: Config, st: State, login: LoginOutcome)
    requires st.arloLive && st.previousMode != ARMED_AWAY
    ensures var st' := UpdateState(cfg, st, Some(ARMED), login);
      && st'.published == st.published + [Publish(Resolve(cfg).stateTopic, ARMED_AWAY, STATE_QOS, true)]
      && st'.previousMode == ARMED_AWAY
  {
  }

  /** Two polls in a row that read the same thing publish at most once between them, and the
      second publishes nothing. */
  lemma RepeatedPollPublishesOnce(cfg: Config, st: State, cloudMode: Option<string>, login: LoginOutcome)
    ensures var st' := UpdateState(cfg, st, cloudMode, login);
      var st'' := UpdateState(cfg, st', cloudMode, login);
      && |st'.published| <= |st.published| + 1
      && st''.published == st'.published
  {
  }

  /** A poll that reads no mode treats the session as stale: exactly one login attempt, no
      publish, the last mode kept. A login that returns leads to the usual reschedule; one that
      raises ends the callback with no new timer. */
  lemma StaleSessionLogsInOnce(cfg: Config, st: State, login: LoginOutcome)
    requires st.arloLive
    ensures var st' := UpdateState(cfg, st, None, login);
      && st'.logins == st.logins + 1
      && st'.published == st.published
      && st'.previousMode == st.previousMode
      && (login == LoginSucceeds ==>
            st'.handle == |st.timers| && st'.timers == st.timers + [Timer(POLL_INTERVAL, Poll)])
      && (login == LoginRaises ==>
            UpdateStateRaises(st, None, login) && st'.handle == st.handle && st'.timers == st.timers)
  {
  }

  /** Once `terminate` has dropped the session, the poll and the mode change do nothing at all. */
  lemma TornDownCallbacksDoNothing(cfg: Config, st: State, mode: string, cloudMode: Option<string>,
                                   login: LoginOutcome, request: RequestOutcome)
    requires !st.arloLive
    ensures UpdateState(cfg, st, cloudMode, login) == st
    ensures SetAlarmMode(st, mode, request) == st
    ensures !UpdateStateRaises(st, cloudMode, login) && !SetAlarmModeRaises(st, request)
  {
  }

  // ----- timers firing -----

  /** A timer firing keeps the timer discipline. */
  lemma FireKeepsDiscipline(cfg: Config, st: State, h: TimerHandle, cloudMode: Option<string>,
                            login: LoginOutcome, request: RequestOutcome)
    requires Inv(st) && Outstanding(st, h)
    ensures Inv(FireTimer(cfg, st, h, cloudMode, login, request))
  {
  }

  /** A poll that ends without rescheduling itself, because the login raised or the session is
      gone, leaves no poll outstanding. Polling then resumes only with the next message on the
      command topic, which schedules a new poll; after teardown no message is delivered, so
      there polling has stopped for good. */
  lemma PollWithoutRescheduleStopsPolling(cfg: Config, st: State, h: TimerHandle, cloudMode: Option<string>,
                                          login: LoginOutcome, request: RequestOutcome)
    requires Inv(st) && Outstanding(st, h) && st.timers[h].callback.Poll?
    requires UpdateStateRaises(st, cloudMode, login) || !st.arloLive
    ensures PollingStopped(FireTimer(cfg, st, h, cloudMode, login, request))
  {
  }

  /** While no poll is outstanding, every event other than a message leaves none outstanding:
      only `on_message` schedules a poll from outside the poll itself. */
  lemma OnlyMessageRestartsPolling(cfg: Config, st: State, e: Event)
    requires Inv(st)
    requires PollingStopped(st)
    requires !e.Message?
    ensures PollingStopped(Step(cfg, st, e))
  {
  }

  /** Once polling has stopped, it stays stopped through any sequence of events that holds no
      message on the command topic. */
  lemma {:induction false} PollingStaysStoppedWithoutMessages(cfg: Config, st: State, events: seq<Event>)
    requires Inv(st)
    requires PollingStopped(st)
    requires forall i :: 0 <= i < |events| ==> !events[i].Message?
    ensures PollingStopped(Run(cfg, st, events))
    decreases |events|
  {
    if events != [] {
      OnlyMessageRestartsPolling(cfg, st, events[0]);
      StepKeepsDiscipline(cfg, st, events[0]);
      assert forall i :: 0 <= i < |events[1..]| ==> !events[1..][i].Message? by {
        forall i | 0 <= i < |events[1..]| ensures !events[1..][i].Message? {
          assert events[1..][i] == events[i + 1];
        }
      }
      var next := Step(cfg, st, events[0]);
      PollingStaysStoppedWithoutMessages(cfg, next, events[1..]);
    }
  }

  /** Every event keeps the timer discipline. */
  lemma StepKeepsDiscipline(cfg: Config, st: State, e: Event)
    requires Inv(st)
    ensures Inv(Step(cfg, st, e))
  {
    match e
    case Message(p) =>
      if st.arloLive { OnMessageKeepsDiscipline(cfg, st, p); }
    case Fire(h, c, l, r) =>
      if Outstanding(st, h) { FireKeepsDiscipline(cfg, st, h, c, l, r); }
    case Teardown =>
  }

  /** Whatever happens, at most one poll and at most one mode change can still fire, and they
      are the ones in the app's two slots. */
  lemma {:induction false} RunKeepsDiscipline(cfg: Config, st: State, events: seq<Event>)
    requires Inv(st)
    ensures Inv(Run(cfg, st, events))
    decreases |events|
  {
    if events != [] {
      StepKeepsDiscipline(cfg, st, events[0]);
      RunKeepsDiscipline(cfg, Step(cfg, st, events[0]), events[1..]);
    }
  }

  /** Every event keeps the publish log conforming. */
  lemma StepKeepsPublishesConform(cfg: Config, st: State, e: Event)
    requires WellFormed(st) && PublishesConform(cfg, st)
    ensures PublishesConform(cfg, Step(cfg, st, e))
  {
  }

  /** From start-up on, whatever happens, the state topic only ever receives `pending`
      non-retained and the cloud's normalised modes retained, all with qos 1. */
  lemma {:induction false} RunKeepsPublishesConform(cfg: Config, st: State, events: seq<Event>)
    requires Inv(st) && PublishesConform(cfg, st)
    ensures PublishesConform(cfg, Run(cfg, st, events))
    decreases |events|
  {
    if events != [] {
      StepKeepsPublishesConform(cfg, st, events[0]);
      StepKeepsDiscipline(cfg, st, events[0]);
      RunKeepsPublishesConform(cfg, Step(cfg, st, events[0]), events[1..]);
    }
  }

  /** After `terminate`, no sequence of events publishes, talks to the cloud, logs in,
      schedules a timer or changes the last mode. */
  lemma {:induction false} TeardownIsFinal(cfg: Config, st: State, events: seq<Event>)
    requires !st.arloLive
    ensures var st' := Run(cfg, st, events);
      && !st'.arloLive
      && st'.published == st.published && st'.cloudRequests == st.cloudRequests
      && st'.logins == st.logins && st'.timers == st.timers && st'.previousMode == st.previousMode
    decreases |events|
  {
    if events != [] {
      TeardownIsFinal(cfg, Step(cfg, st, events[0]), events[1..]);
    }
  }

  /** From start-up, after any events, at most one poll and one mode change are outstanding
      and every publish conforms. */
  lemma BridgeFromStartUp(cfg: Config, events: seq<Event>)
    ensures Inv(Run(cfg, InitialState(), events))
    ensures PublishesConform(cfg, Run(cfg, InitialState(), events))
  {
    InitialStateKeepsDiscipline(cfg);
    RunKeepsDiscipline(cfg, InitialState(), events);
    RunKeepsPublishesConform(cfg, InitialState(), events);
  }
}
