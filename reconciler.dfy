/**
 * The state machine behind the bridge: the tracking state observed on the
 * tracking service, the state the wearable asked for, and the one pending
 * command that should carry the first to the second.
 */
module Reconciler {
  import opened Wrappers

  /** The tracking service's states, STATE_MYTRACKS_* on the wire. */
  datatype TrackingState = Nothing | Recording | Paused {
    /** The byte sent to the wearable for this state. */
    function Code(): (c: int)
      ensures 1 <= c <= 3
    {
      match this
      case Nothing => 1
      case Recording => 2
      case Paused => 3
    }
  }

  /** The pending command (currentCommand); CmdUnknown, code 0x0, means none. */
  datatype Command = CmdUnknown | CmdStart | CmdStop | CmdPause | CmdResume

  /** The calls the bridge can make on the tracking service. */
  datatype Action = StartNewTrack | EndCurrentTrack | PauseCurrentTrack | ResumeCurrentTrack

  // Command codes sent by the wearable or the owning process.
  const CMD_START_TRACK: int := 0x1
  const CMD_STOP_TRACK: int := 0x2
  const CMD_PAUSE_TRACK: int := 0x3
  const CMD_RESUME_TRACK: int := 0x4
  const EVENT_MYTRACKS_STARTED: int := 0x10
  const EVENT_MYTRACKS_STOPPED: int := 0x11

  /**
   * The switch of processCommand: the new desired state and pending command
   * after receiving `code`. Codes it does not list change nothing.
   */
  function Intake(code: int, desired: TrackingState, pending: Command): (next: (TrackingState, Command))
    ensures CommandOf(code).Some? ==> next.1 == CommandOf(code).value && Agrees(next.0, next.1)
    ensures CommandOf(code).None? ==> next.1 == CmdUnknown || next == (desired, pending)
  {
    if code == CMD_START_TRACK then (Recording, CmdStart)
    else if code == CMD_STOP_TRACK then (Nothing, CmdStop)
    else if code == CMD_PAUSE_TRACK then (Paused, CmdPause)
    else if code == CMD_RESUME_TRACK then (Recording, CmdResume)
    else if code == EVENT_MYTRACKS_STARTED then (Recording, CmdUnknown)
    else if code == EVENT_MYTRACKS_STOPPED then (Nothing, CmdUnknown)
    else (desired, pending)
  }

  /** The state read off the service's isRecording and isPaused flags. */
  function Observe(recording: bool, paused: bool): (s: TrackingState)
    ensures s == Paused <==> recording && paused
    ensures s == Recording <==> recording && !paused
    ensures s == Nothing <==> !recording
  {
    if recording then (if paused then Paused else Recording) else Nothing
  }

  /**
   * The guarded switch of updateMyTracks: the action fired for the pending
   * command, if its guard on (current, desired) holds. STOP has two guards,
   * tested one after the other.
   */
  function Guard(pending: Command, current: TrackingState, desired: TrackingState): (fired: Option<Action>)
    ensures fired.Some? ==> fired == Issues(pending) && current in Sources(fired.value) && Target(fired.value) == desired
  {
    match pending
    case CmdUnknown => None
    case CmdStart =>
      if current == Nothing && desired == Recording then Some(StartNewTrack) else None
    case CmdStop =>
      if current == Recording && desired == Nothing then Some(EndCurrentTrack)
      else if current == Paused && desired == Nothing then Some(EndCurrentTrack)
      else None
    case CmdPause =>
      if current == Recording && desired == Paused then Some(PauseCurrentTrack) else None
    case CmdResume =>
      if current == Paused && desired == Recording then Some(ResumeCurrentTrack) else None
  }

  /** The calls recorded on the service when `fired` is the outcome of a guard. */
  function Fired(fired: Option<Action>): (log: seq<Action>)
    ensures |log| <= 1
    ensures fired.None? ==> log == []
    ensures fired.Some? ==> log == [fired.value]
  {
    match fired
    case None => []
    case Some(a) => [a]
  }

  /** The terminal steady states, in which the updater stops itself. */
  predicate IsTerminal(current: TrackingState, desired: TrackingState): (quiet: bool)
    ensures quiet ==> current == desired && forall p: Command :: Guard(p, current, desired).None?
  {
    current == desired && (current == Nothing || current == Paused)
  }

  // ---- A reference table of the transitions, written independently. ----

  /** The action a command is meant to issue. */
  function Issues(pending: Command): Option<Action>
  {
    match pending
    case CmdUnknown => None
    case CmdStart => Some(StartNewTrack)
    case CmdStop => Some(EndCurrentTrack)
    case CmdPause => Some(PauseCurrentTrack)
    case CmdResume => Some(ResumeCurrentTrack)
  }

  /** The states from which an action is legal. */
  function Sources(a: Action): set<TrackingState>
  {
    match a
    case StartNewTrack => {Nothing}
    case EndCurrentTrack => {Recording, Paused}
    case PauseCurrentTrack => {Recording}
    case ResumeCurrentTrack => {Paused}
  }

  /** The state an action leads to. */
  function Target(a: Action): TrackingState
  {
    match a
    case StartNewTrack => Recording
    case EndCurrentTrack => Nothing
    case PauseCurrentTrack => Paused
    case ResumeCurrentTrack => Recording
  }

  /**
   * The pending command agrees with the desired state: a command is only ever
   * pending together with the state it is meant to reach.
   */
  predicate Agrees(desired: TrackingState, pending: Command)
  {
    Issues(pending).None? || Target(Issues(pending).value) == desired
  }

  /** The command a user command code stands for; None for every other code. */
  function CommandOf(code: int): Option<Command>
  {
    if code == CMD_START_TRACK then Some(CmdStart)
    else if code == CMD_STOP_TRACK then Some(CmdStop)
    else if code == CMD_PAUSE_TRACK then Some(CmdPause)
    else if code == CMD_RESUME_TRACK then Some(CmdResume)
    else None
  }

  // ---- Properties ----

  /**
   * The command table: a user command becomes the pending command and sets
   * the desired state to the target of the action it issues; the two events
   * set the desired state and clear the pending command; anything else
   * changes nothing.
   */
  lemma IntakeTable(code: int, desired: TrackingState, pending: Command)
    ensures CommandOf(code).Some? ==>
      var c := CommandOf(code).value;
      Intake(code, desired, pending) == (Target(Issues(c).value), c)
    ensures code == EVENT_MYTRACKS_STARTED ==> Intake(code, desired, pending) == (Recording, CmdUnknown)
    ensures code == EVENT_MYTRACKS_STOPPED ==> Intake(code, desired, pending) == (Nothing, CmdUnknown)
    ensures CommandOf(code).None? && code != EVENT_MYTRACKS_STARTED && code != EVENT_MYTRACKS_STOPPED ==>
      Intake(code, desired, pending) == (desired, pending)
  {
  }

  /** Receiving the same code twice is the same as receiving it once. */
  lemma IntakeIdempotent(code: int, desired: TrackingState, pending: Command)
    ensures var (d, p) := Intake(code, desired, pending);
      Intake(code, d, p) == (d, p)
  {
  }

  /** Every code keeps the pending command in agreement with the desired state. */
  lemma IntakeKeepsAgreement(code: int, desired: TrackingState, pending: Command)
    requires Agrees(desired, pending)
    ensures var (d, p) := Intake(code, desired, pending); Agrees(d, p)
  {
  }

  /**
   * The guarded switch fires exactly the action of the reference table:
   * the one its command issues, when the current state is one of that
   * action's sources and the desired state is its target.
   */
  lemma GuardMatchesTable(pending: Command, current: TrackingState, desired: TrackingState)
    ensures Guard(pending, current, desired).Some? <==>
      Issues(pending).Some? && current in Sources(Issues(pending).value) && desired == Target(Issues(pending).value)
  {
  }

  /** An action fires only when current and desired differ, and it aims at the desired state. */
  lemma GuardMovesTowardDesired(pending: Command, current: TrackingState, desired: TrackingState)
    ensures Guard(pending, current, desired).Some? ==>
      current != desired && Target(Guard(pending, current, desired).value) == desired
  {
    GuardMatchesTable(pending, current, desired);
  }

  /**
   * When the pending command agrees with the desired state, whether it fires
   * depends on the current state alone.
   */
  lemma GuardUnderAgreement(pending: Command, current: TrackingState, desired: TrackingState)
    requires Agrees(desired, pending) && pending != CmdUnknown
    ensures Guard(pending, current, desired).Some? <==> current in Sources(Issues(pending).value)
  {
    GuardMatchesTable(pending, current, desired);
  }
}
