# Arlo alarm control panel bridge, in Dafny

This project models the `ArloAlarmControlPanel` AppDaemon app, which bridges the alarm mode
of a Netgear Arlo base station to an MQTT alarm control panel. The app polls the base
station's mode once a second and publishes it, retained, on a state topic whenever it
changes. Commands on a command topic (`DISARM`, `ARM_AWAY`) are answered at once with a
non-retained `pending`. The mode change itself is sent to the cloud after a configurable delay.
Each new command cancels the previous poll timer and the previous delayed command, so the
last command wins.

Modules:

- `Wrappers` (wrappers.dfy): `Option`.
- `ArloConfig` (arlo_config.dfy): the app's arguments, the defaults `initialize` fills in, and
  the per-mode delay lookup `_pending_time`.
- `BridgeMachine` (bridge_machine.dfy): the app's state as a datatype, with one function per
  callback (`OnMessage`, `SetAlarmMode`, `UpdateState`, `Terminate`). It also defines a timer
  firing (`FireTimer`), a single event (`Step`), a run of events (`Run`) and the timer
  discipline `Inv`.
- `BridgeProperties` (bridge_properties.dfy): the lemmas stating what the bridge promises.
- `AlarmControlPanel` (alarm_control_panel.dfy): the class `ArloAlarmControlPanel`, whose
  fields are the app's fields. Its methods update those fields statement by statement as the
  source does. Each method's postcondition equates the new state with the `BridgeMachine`
  function of the old state. `OnMessage`, `Terminate` and `Fire` also keep `Inv`.

How the outside world appears:

- The base station's mode is a parameter `Option<string>`.
- The outcome of `login()` is a parameter, and so is the outcome of the cloud mode request
  `base.publish(action='set', ...)`. Each is either "returns" or "raises".
- MQTT publishes are logged as `(topic, payload, qos, retain)`.
- Modes requested from the cloud and login attempts are logged too.
- AppDaemon timers are entries in a timer log. A handle is the entry's position in that log.
  There is a set of cancelled handles and a set of fired handles.
- A timer fires only while it is outstanding (neither cancelled nor fired). Firing runs its
  callback with the `mode` keyword it was scheduled with. No time passes in the model.
- The app's lock is modelled by treating every callback as one atomic step.

## Model

| member | source | states |
|---|---|---|
| `ArloConfig.Resolve` | apps/alarm_control_panel.py:32-35 | each of `pending_time`, `state_topic`, `command_topic`, `availability_topic` is taken from the arguments when given. Otherwise it is 0, `home/alarm`, `home/alarm/set` or `home/alarm/availability` |
| `ArloConfig.PendingTime` | apps/alarm_control_panel.py:98-102 | a mode section's own `pending_time` wins. Without one, the global `pending_time` is used, and that is 0 when absent |
| `BridgeMachine.Normalize` | apps/alarm_control_panel.py:137-138 | the cloud's `armed` becomes `armed_away`. Any other reading is kept, absent stays absent, and the result is never `armed` |
| `BridgeMachine.InitialState` | apps/alarm_control_panel.py:43-45 | the initial state has mode `unknown`, no command, no publishes, requests or logins, and a single timer: an outstanding one-second poll in `handle`. `InitialStateKeepsDiscipline` adds the timer discipline |
| `BridgeMachine.OnMessage` | apps/alarm_control_panel.py:83-96 | the old poll and command slots are cancelled. A new one-second poll is the last timer and sits in `handle`. Earlier timers and publishes are kept, and at most one publish is added. The last mode, cloud requests, logins and fired timers are untouched. The per-payload effects are in `DisarmAnnouncesPending`, `ArmAwayAnnouncesPending` and `OtherPayloadDropsCommand` |
| `BridgeMachine.SetAlarmMode` | apps/alarm_control_panel.py:104-120 | nothing is published or scheduled, and both slots are kept. The last mode stays or becomes `pending`, and at most the requested mode is added to the cloud requests. `SetAlarmModeForcesRepublish` and `TornDownCallbacksDoNothing` say which case applies |
| `BridgeMachine.UpdateState` | apps/alarm_control_panel.py:122-149 | no cloud request is made and no timer is cancelled. At most one login and at most one poll timer are added. The publish log is unchanged or gains exactly one retained qos-1 publish of the newly recorded mode. `PollPublishesOnlyChanges` and `StaleSessionLogsInOnce` say which case applies |
| `BridgeMachine.Terminate` | apps/alarm_control_panel.py:61-72 | the session is dropped and nothing else changes. In particular no timer is cancelled |
| `BridgeMachine.FireTimer` | apps/alarm_control_panel.py:89-96 | AppDaemon running a timer scheduled at lines 89, 92 or 96 (or 147) with its `mode` keyword: that timer becomes fired, no timer is cancelled, earlier timers are kept, and the session is unchanged |
| `AlarmControlPanel.ArloAlarmControlPanel.Fire` | apps/alarm_control_panel.py:89-96 | the fields become `BridgeMachine.FireTimer` of the old ones, and validity is kept. `raised` is the raise of whichever callback ran |
| `BridgeProperties.InitialStateKeepsDiscipline` | apps/alarm_control_panel.py:43-45 | start-up leaves mode `unknown`, no command, and exactly one outstanding poll one second out. The timer discipline holds |
| `BridgeProperties.DisarmAnnouncesPending` | apps/alarm_control_panel.py:87-89 | `DISARM` publishes exactly one `pending` (qos 1, not retained) and schedules one outstanding `SetMode("disarmed")` after `PendingTime(cfg, "disarmed")`. The last mode, cloud requests and logins are unchanged |
| `BridgeProperties.ArmAwayAnnouncesPending` | apps/alarm_control_panel.py:90-92 | `ARM_AWAY` publishes `pending` (not retained) and schedules `SetMode("armed")` after the delay configured for `armed_away` |
| `BridgeProperties.OtherPayloadDropsCommand` | apps/alarm_control_panel.py:84-96 | any other payload publishes nothing and leaves the last mode alone. No mode change remains outstanding, so an in-flight command is dropped |
| `BridgeProperties.OnMessageKeepsDiscipline` | apps/alarm_control_panel.py:83-96 | after any message, the old poll timer and the old command are cancelled. The only outstanding poll is the new one, with delay 1, and at most one command is outstanding. `Inv` is kept |
| `BridgeProperties.ScenarioPendingTimes` | apps/alarm_control_panel.py:89-102 | with default 5 and an `armed_away` override of 10, `ARM_AWAY` waits 10 and `DISARM` waits 5 |
| `BridgeProperties.SetAlarmModeForcesRepublish` | apps/alarm_control_panel.py:104-120 | on a live session the mode is requested from the cloud and nothing is published. If the request returns, the last mode becomes `pending`, and the next poll reading any mode other than `pending` publishes it retained. If the request raises, the last mode is kept |
| `BridgeProperties.PendingStuckAfterRaisedRequest` | apps/alarm_control_panel.py:87-140 | after `DISARM`, if the cloud request raises and the next poll reads the mode last recorded, nothing more is published. `pending` stays the last message on the state topic |
| `BridgeProperties.PendingStuckAfterDroppedCommand` | apps/alarm_control_panel.py:83-140 | after `DISARM` and then an unrecognised payload, no mode change is left to fire. A poll reading the mode last recorded publishes nothing, so `pending` stays the last message on the state topic |
| `BridgeProperties.PollPublishesOnlyChanges` | apps/alarm_control_panel.py:137-147 | a poll that reads a mode publishes its normalised form (retained, qos 1) if and only if it differs from the last mode, and records it. It always reschedules one second out and makes no login or cloud request |
| `BridgeProperties.PollReportsArmedAsArmedAway` | apps/alarm_control_panel.py:137-145 | a cloud reading `armed` is published and recorded as `armed_away`, when the last mode is not already `armed_away` |
| `BridgeProperties.RepeatedPollPublishesOnce` | apps/alarm_control_panel.py:128-147 | two polls in a row with the same reading publish at most once, and the second publishes nothing |
| `BridgeProperties.StaleSessionLogsInOnce` | apps/alarm_control_panel.py:128-147 | an absent reading costs exactly one login, publishes nothing and keeps the last mode. A login that returns still publishes nothing but reschedules. A login that raises propagates and schedules nothing |
| `BridgeProperties.TornDownCallbacksDoNothing` | apps/alarm_control_panel.py:104-126 | once the session is dropped, the poll and the mode change leave the state exactly as it was and raise nothing |
| `BridgeProperties.FireKeepsDiscipline` | apps/alarm_control_panel.py:104-149 | a timer firing (poll or mode change) keeps `Inv` |
| `BridgeProperties.PollWithoutRescheduleStopsPolling` | apps/alarm_control_panel.py:122-149 | right after a poll whose login raises, or which runs after teardown, no poll is outstanding |
| `BridgeProperties.OnlyMessageRestartsPolling` | apps/alarm_control_panel.py:96-147 | while no poll is outstanding, any event other than a command-topic message (a timer firing, teardown) leaves none outstanding. Only `on_message` schedules a poll from outside the poll itself |
| `BridgeProperties.PollingStaysStoppedWithoutMessages` | apps/alarm_control_panel.py:96-147 | once no poll is outstanding, none becomes outstanding through any sequence of events without a command-topic message |
| `BridgeProperties.StepKeepsDiscipline` | apps/alarm_control_panel.py:83-149 | every event (message, timer firing, teardown) keeps `Inv` |
| `BridgeProperties.RunKeepsDiscipline` | apps/alarm_control_panel.py:83-149 | after any sequence of events, at most one poll and at most one command are outstanding, and they are the ones in `handle` and `pending_command` |
| `BridgeProperties.StepKeepsPublishesConform` | apps/alarm_control_panel.py:88-144 | every event keeps every publish on the state topic with qos 1. Non-retained publishes are `pending`, and `armed` is never published |
| `BridgeProperties.RunKeepsPublishesConform` | apps/alarm_control_panel.py:88-144 | the same holds after any sequence of events |
| `BridgeProperties.TeardownIsFinal` | apps/alarm_control_panel.py:61-126 | after `terminate`, no sequence of events publishes, requests a mode, logs in, schedules a timer or changes the last mode |
| `BridgeProperties.BridgeFromStartUp` | apps/alarm_control_panel.py:26-149 | from start-up, after any events, the timer discipline holds and every publish conforms |
| `AlarmControlPanel.ArloAlarmControlPanel.Initialize` | apps/alarm_control_panel.py:26-45 | the settings are resolved from the arguments. The new object is in the initial state and valid |
| `AlarmControlPanel.ArloAlarmControlPanel.Terminate` | apps/alarm_control_panel.py:61-72 | the session is dropped, nothing else changes, and validity is kept |
| `AlarmControlPanel.ArloAlarmControlPanel.OnMessage` | apps/alarm_control_panel.py:83-96 | the fields become `BridgeMachine.OnMessage` of the old ones. Validity is kept, and the new poll timer is outstanding with delay 1 |
| `AlarmControlPanel.ArloAlarmControlPanel.SetAlarmMode` | apps/alarm_control_panel.py:104-120 | the fields become `BridgeMachine.SetAlarmMode` of the old ones. `raised` is true exactly when the live session's request raised |
| `AlarmControlPanel.ArloAlarmControlPanel.UpdateState` | apps/alarm_control_panel.py:122-149 | the fields become `BridgeMachine.UpdateState` of the old ones. `raised` is true exactly when a live session's login raised |

## Left out

- MQTT transport (apps/alarm_control_panel.py:47-59, 74-81): client construction, the last will, `connect_async`, `loop_start`, the subscribe and `online` publish in `on_connect`, `on_disconnect`, and `wait_for_publish`. These are network I/O. `command_topic` and `availability_topic` are resolved but not used further. QoS and retain are plain fields of the publish log; their delivery semantics are not modelled.
- The PyArlo session (apps/alarm_control_panel.py:39-41): construction and `base_stations[0]` are foreign calls. The mode read, the login and the mode request are inputs or logged effects.
- The lock (apps/alarm_control_panel.py:38, 63-72, 105-120, 123-149): every callback is one atomic step. `on_message` takes no lock in the source, so a message that arrives while `update_state` runs could leave two poll timers live. That interleaving is not modelled.
- AppDaemon scheduling: timers carry a delay, but time does not pass and no firing order is imposed. `Fire` is any outstanding timer, chosen by the event sequence.
- Messages after `terminate`: the source stops the MQTT loop in `terminate` (lines 68-70), so `Step` drops messages once the session is gone. `on_message` itself is modelled without a session check, as written.
- Logging (`self.log`) and the `del` statements in `terminate` have no effect on the state beyond `arlo = None`.
- Payloads are compared as ASCII strings (`"DISARM"`), not as Python `bytes`; the comparison is exact in both cases.
- `ArloConfig.PendingTime`: delays are integers; the source also accepts fractional seconds, which are not modelled.
- Arguments that are not dictionaries where the source expects one (for example a mode section given as a string) are not modelled; a mode section is a map of integer options.

## Notes on behaviour

- `terminate` cancels no timer. A poll that fires after it does nothing and does not reschedule. No message is delivered after teardown, so polling ends for good (`PollWithoutRescheduleStopsPolling`, `TeardownIsFinal`).
- A failed re-login propagates out of `update_state` before the reschedule, so no poll is outstanding afterwards (`PollWithoutRescheduleStopsPolling`). Polling resumes only when the next message on the command topic arrives, because `on_message` always schedules a poll (line 96; `OnlyMessageRestartsPolling`, `PollingStaysStoppedWithoutMessages`). This is kept as written.
- A successful re-login does not re-read the mode, so that poll publishes nothing (`StaleSessionLogsInOnce`).
- `_set_alarm_mode` lets an exception from the cloud request propagate. In that case `previous_mode` is not set to `pending` and the last recorded mode is kept (`SetAlarmModeForcesRepublish`).
- The state topic can therefore stay at `pending`. This happens when a command's cloud request raises, or when an unrecognised payload cancels the command in flight. `previous_mode` still holds the mode from before the command, so a poll that reads that mode publishes nothing (lines 118, 140). The announcement then stays the last message until the cloud mode changes (`PendingStuckAfterRaisedRequest`, `PendingStuckAfterDroppedCommand`).
