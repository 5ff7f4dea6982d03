/** The app's arguments as the host passes them, the settings `initialize` resolves from them
    once at start-up, and the per-mode delay lookup `_pending_time`. */
module ArloConfig {
  import opened Wrappers

  const PENDING_TIME_KEY := "pending_time"
  const DEFAULT_PENDING_TIME := 0
  const DEFAULT_STATE_TOPIC := "home/alarm"
  const DEFAULT_COMMAND_TOPIC := "home/alarm/set"
  const DEFAULT_AVAILABILITY_TOPIC := "home/alarm/availability"

  /** The optional top-level arguments, plus the nested sections keyed by name
      (`disarmed`, `armed_away`, ...), each a map of numeric options. */
  datatype Config = Config(
    pendingTime: Option<int>,
    stateTopic: Option<string>,
    commandTopic: Option<string>,
    availabilityTopic: Option<string>,
    sections: map<string, map<string, int>>)

  /** What `initialize` stores on the app: every optional argument with its default filled in. */
  datatype Settings = Settings(
    pendingTime: int,
    stateTopic: string,
    commandTopic: string,
    availabilityTopic: string)

  /** The settings read at start-up: a given argument wins, an absent one takes its default. */
  function Resolve(cfg: Config): (s: Settings)
    ensures cfg.pendingTime.Some? ==> s.pendingTime == cfg.pendingTime.value
    ensures cfg.pendingTime.None? ==> s.pendingTime == DEFAULT_PENDING_TIME
    ensures cfg.stateTopic.Some? ==> s.stateTopic == cfg.stateTopic.value
    ensures cfg.stateTopic.None? ==> s.stateTopic == DEFAULT_STATE_TOPIC
    ensures cfg.commandTopic.Some? ==> s.commandTopic == cfg.commandTopic.value
    ensures cfg.commandTopic.None? ==> s.commandTopic == DEFAULT_COMMAND_TOPIC
    ensures cfg.availabilityTopic.Some? ==> s.availabilityTopic == cfg.availabilityTopic.value
    ensures cfg.availabilityTopic.None? ==> s.availabilityTopic == DEFAULT_AVAILABILITY_TOPIC
  {
    Settings(
      cfg.pendingTime.GetOr(DEFAULT_PENDING_TIME),
      cfg.stateTopic.GetOr(DEFAULT_STATE_TOPIC),
      cfg.commandTopic.GetOr(DEFAULT_COMMAND_TOPIC),
      cfg.availabilityTopic.GetOr(DEFAULT_AVAILABILITY_TOPIC))
  }

  /** True when the section named `mode` exists and carries its own `pending_time`. */
  predicate HasOverride(cfg: Config, mode: string) {
    mode in cfg.sections && PENDING_TIME_KEY in cfg.sections[mode]
  }

  /** The delay before a command for `mode` is sent: the section's own `pending_time` when it
      has one, otherwise the global `pending_time`, which is 0 when that too is absent. */
  function PendingTime(cfg: Config, mode: string): (delay: int)
    ensures HasOverride(cfg, mode) ==> delay == cfg.sections[mode][PENDING_TIME_KEY]
    ensures !HasOverride(cfg, mode) && cfg.pendingTime.Some? ==> delay == cfg.pendingTime.value
    ensures !HasOverride(cfg, mode) && cfg.pendingTime.None? ==> delay == 0
  {
    if HasOverride(cfg, mode) then cfg.sections[mode][PENDING_TIME_KEY]
    else Resolve(cfg).pendingTime
  }
}
