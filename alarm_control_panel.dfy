/** `ArloAlarmControlPanel` as an object whose callbacks update its fields in place. Each
    method's body follows the source statement by statement; its postcondition ties the new
    fields to the `BridgeMachine` function of the old ones, and the methods that the host can
    call from outside keep the timer discipline `Inv`. */
module AlarmControlPanel {
  import opened Wrappers
  import opened ArloConfig
  import opened BridgeMachine
  import opened BridgeProperties

  class ArloAlarmControlPanel {
    /** The app's arguments and what `initialize` resolved from them. */
    const args: Config
    const settings: Settings

    var previousMode: string
    var pendingCommand: Option<TimerHandle>
    var handle: TimerHandle
    var arloLive: bool

    // What the app has done to AppDaemon, MQTT and the Arlo cloud.
    var timers: seq<Timer>
    var cancelled: set<TimerHandle>
    var fired: set<TimerHandle>
    var published: seq<Publish>
    var cloudRequests: seq<string>
    var logins: nat

    /** The fields as a `BridgeMachine.State`. */
    function Model(): State
      reads this
    {
      State(previousMode, pendingCommand, handle, arloLive, timers, cancelled, fired,
            published, cloudRequests, logins)
    }

    ghost predicate Valid()
      reads this
    {
      settings == Resolve(args) && Inv(Model())
    }

    /** `initialize`: resolve the settings, start with mode `unknown` and no command, and
        schedule the first poll. */
    constructor Initialize(args: Config)
      ensures this.args == args && Valid()
      ensures Model() == InitialState()
    {
      this.args := args;
      settings := Resolve(args);
      arloLive := true;
      previousMode := UNKNOWN;
      pendingCommand := None;
      timers, cancelled, fired := [], {}, {};
      published, cloudRequests, logins := [], [], 0;
      new;
      handle := RunIn(POLL_INTERVAL, Poll);
    }

    /** AppDaemon's `run_in`: a new timer, whose handle is returned. */
    method RunIn(delay: int, callback: Callback) returns (h: TimerHandle)
      modifies this`timers
      ensures h == |old(timers)| && timers == old(timers) + [Timer(delay, callback)]
    {
      h := |timers|;
      timers := timers + [Timer(delay, callback)];
    }

    /** AppDaemon's `cancel_timer`; an empty slot cancels nothing. */
    method CancelTimer(slot: Option<TimerHandle>)
      modifies this`cancelled
      ensures cancelled == CancelSlot(old(cancelled), slot)
    {
      if slot.Some? {
        cancelled := cancelled + {slot.value};
      }
    }

    /** `client.publish` on the state topic with qos 1. */
    method PublishState(payload: string, retain: bool)
      modifies this`published
      ensures published == old(published) + [Publish(settings.stateTopic, payload, STATE_QOS, retain)]
    {
      published := published + [Publish(settings.stateTopic, payload, STATE_QOS, retain)];
    }

    /** `terminate`: drop the session under the lock. */
    method Terminate()
      requires Valid()
      modifies this`arloLive
      ensures Valid() && Model() == BridgeMachine.Terminate(old(Model()))
    {
      arloLive := false;
    }

    /** `on_message`: cancel both slots, announce `pending` and schedule the mode change for
        a recognised command, then schedule the next poll. */
    method OnMessage(payload: string)
      requires Valid()
      modifies this
      ensures Valid() && Model() == BridgeMachine.OnMessage(args, old(Model()), payload)
      ensures Outstanding(Model(), handle) && timers[handle] == Timer(POLL_INTERVAL, Poll)
    {
      CancelTimer(Some(handle));
      CancelTimer(pendingCommand);
      if payload == DISARM_PAYLOAD {
        PublishState(PENDING, false);
        var h := RunIn(PendingTime(args, DISARMED), SetMode(DISARMED));
        pendingCommand := Some(h);
      } else if payload == ARM_AWAY_PAYLOAD {
        PublishState(PENDING, false);
        var h := RunIn(PendingTime(args, ARMED_AWAY), SetMode(ARMED));
        pendingCommand := Some(h);
      }
      handle := RunIn(POLL_INTERVAL, Poll);
      OnMessageKeepsDiscipline(args, old(Model()), payload);
    }

    /** `_set_alarm_mode`: on a live session, ask the base station for `mode`; when that
        returns, mark the last mode `pending`. `raised` tells whether the cloud's exception
        propagated. Like every callback, it is entered only through `Fire`, when its timer runs. */
    method SetAlarmMode(mode: string, request: RequestOutcome) returns (raised: bool)
      requires Valid()
      modifies this`cloudRequests, this`previousMode
      ensures Valid()
      ensures Model() == BridgeMachine.SetAlarmMode(old(Model()), mode, request)
      ensures raised == SetAlarmModeRaises(old(Model()), request)
    {
      if !arloLive {
        return false;
      }
      cloudRequests := cloudRequests + [mode];
      if request == RequestRaises {
        return true;
      }
      previousMode := PENDING;
      raised := false;
    }

    /** `update_state`: on a live session, read the mode; re-login on an absent one (its
        exception propagates with no reschedule), report `armed` as `armed_away`, publish a
        changed mode retained, and schedule the next poll. It is entered only through `Fire`,
        when the poll timer in `handle` runs: called on its own it would leave two polls live,
        so it keeps the settings but not `Valid()`. */
    method UpdateState(cloudMode: Option<string>, login: LoginOutcome) returns (raised: bool)
      requires settings == Resolve(args)
      modifies this`logins, this`previousMode, this`published, this`timers, this`handle
      ensures Model() == BridgeMachine.UpdateState(args, old(Model()), cloudMode, login)
      ensures raised == UpdateStateRaises(old(Model()), cloudMode, login)
    {
      if !arloLive {
        return false;
      }
      var mode := cloudMode;
      if mode.None? {
        logins := logins + 1;
        if login == LoginRaises {
          return true;
        }
      } else if mode.value == ARMED {
        mode := Some(ARMED_AWAY);
      }
      if mode.Some? && previousMode != mode.value {
        previousMode := mode.value;
        PublishState(mode.value, true);
      }
      handle := RunIn(POLL_INTERVAL, Poll);
      raised := false;
    }

    /** Timer `h` fires and its callback runs, with the cloud's answers as inputs. */
    method Fire(h: TimerHandle, cloudMode: Option<string>, login: LoginOutcome, request: RequestOutcome)
      returns (raised: bool)
      requires Valid() && Outstanding(Model(), h)
      modifies this
      ensures Valid() && Model() == FireTimer(args, old(Model()), h, cloudMode, login, request)
      ensures raised == if old(timers[h].callback).Poll? then UpdateStateRaises(old(Model()), cloudMode, login)
                        else SetAlarmModeRaises(old(Model()), request)
    {
      fired := fired + {h};
      match timers[h].callback {
        case Poll =>
          raised := UpdateState(cloudMode, login);
        case SetMode(m) =>
          raised := SetAlarmMode(m, request);
      }
      FireKeepsDiscipline(args, old(Model()), h, cloudMode, login, request);
    }
  }
}
