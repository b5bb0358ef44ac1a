/**
 * The bridge service itself: the reconciler's three fields, the updater's
 * running flag, the label-resend counter, the telemetry snapshot and the
 * configuration, updated in place by the service's methods. The tracking
 * service it drives is an object of its own.
 */
module Service {
  import opened Wrappers
  import opened Text
  import opened Reconciler
  import opened Telemetry
  import opened Formatting
  import opened Wearable

  /** The tracking service as the bridge sees it: its two state flags and a log of the calls made on it. */
  class TrackingService {
    var recording: bool
    var paused: bool
    var log: seq<Action>

    constructor (recording: bool, paused: bool)
      ensures this.recording == recording && this.paused == paused && log == []
    {
      this.recording := recording;
      this.paused := paused;
      log := [];
    }

    method IsRecording() returns (r: bool)
      ensures r == recording
    {
      r := recording;
    }

    method IsPaused() returns (r: bool)
      ensures r == paused
    {
      r := paused;
    }

    method StartNewTrack()
      modifies this`log
      ensures log == old(log) + [Action.StartNewTrack]
    {
      log := log + [Action.StartNewTrack];
    }

    method EndCurrentTrack()
      modifies this`log
      ensures log == old(log) + [Action.EndCurrentTrack]
    {
      log := log + [Action.EndCurrentTrack];
    }

    method PauseCurrentTrack()
      modifies this`log
      ensures log == old(log) + [Action.PauseCurrentTrack]
    {
      log := log + [Action.PauseCurrentTrack];
    }

    method ResumeCurrentTrack()
      modifies this`log
      ensures log == old(log) + [Action.ResumeCurrentTrack]
    {
      log := log + [Action.ResumeCurrentTrack];
    }
  }

  /** The settings as read from the preference store, already parsed; `parameter(i)` is slot i's choice. */
  datatype Preferences = Preferences(
    alternativeAppUuid: string,
    useAlternativeSportsApp: bool,
    updateInterval: int,
    metric: bool,
    parameter: nat -> ParameterType)

  class PebbleSportsService {
    var currentState: TrackingState
    var desiredState: TrackingState
    var currentCommand: Command
    /** The bound tracking service; null while unbound. */
    var myTracksService: TrackingService?

    var updateInterval: int
    var metricUnits: bool
    /** True when the custom multi-slot app is used. */
    var myapp: bool
    var appUUID: AppUuid
    var alternativeAppUUID: string
    /** The slot assignment (MyAppSettings' parameters). */
    var slots: seq<ParameterType>

    /** How many more custom dispatches carry the slot labels. */
    var sendConfig: int
    /** Whether the periodic updater is scheduled (scheduleTaskExecutor != null). */
    var running: bool
    var sportsData: SportsData
    /** Every message handed to the wearable's SDK, oldest first. */
    var outbox: seq<Message>

    ghost predicate Valid()
      reads this
    {
      && |slots| == NumFields
      && sendConfig >= 0
      && Agrees(desiredState, currentCommand)
      && appUUID == (if myapp then Alternative(alternativeAppUUID) else SportsUuid)
    }

    /** The configuration fields hold what `prefs` says. */
    ghost predicate Configured(prefs: Preferences)
      reads this
    {
      && alternativeAppUUID == prefs.alternativeAppUuid
      && myapp == prefs.useAlternativeSportsApp
      && appUUID == (if myapp then Alternative(alternativeAppUUID) else SportsUuid)
      && updateInterval == prefs.updateInterval
      && metricUnits == prefs.metric
      && |slots| == NumFields
      && forall i :: 0 <= i < NumFields ==> slots[i] == prefs.parameter(i)
    }

    /** onCreate: both states NOTHING, no command, preferences loaded, updater started. */
    constructor (prefs: Preferences, provider: ProviderData)
      ensures Valid() && Configured(prefs)
      ensures currentState == Nothing && desiredState == Nothing && currentCommand == CmdUnknown
      ensures myTracksService == null && outbox == []
      ensures running && sendConfig == 10
      ensures sportsData == Primed(EmptySportsData, provider)
    {
      currentState, desiredState, currentCommand := Nothing, Nothing, CmdUnknown;
      myTracksService := null;
      sportsData := EmptySportsData;
      slots := seq(NumFields, _ => NoValue);
      alternativeAppUUID := "";
      myapp := false;
      appUUID := SportsUuid;
      sendConfig := 0;
      running := false;
      outbox := [];
      new;
      ReloadPreferences(prefs);
      StartUpdater(provider);
    }

    /** reloadPreferences, on settings that are already parsed. */
    method ReloadPreferences(prefs: Preferences)
      requires |slots| == NumFields
      modifies this`alternativeAppUUID, this`myapp, this`appUUID, this`updateInterval, this`metricUnits, this`slots
      ensures Configured(prefs)
    {
      alternativeAppUUID := prefs.alternativeAppUuid;
      if prefs.useAlternativeSportsApp {
        myapp := true;
        appUUID := Alternative(alternativeAppUUID);
      } else {
        myapp := false;
        appUUID := SportsUuid;
      }
      updateInterval := prefs.updateInterval;
      metricUnits := prefs.metric;
      for i := 0 to NumFields
        modifies this`slots
        invariant |slots| == NumFields
        invariant forall j :: 0 <= j < i ==> slots[j] == prefs.parameter(j)
      {
        slots := slots[i := prefs.parameter(i)];
      }
    }

    /** onSharedPreferenceChanged: reload, and resend the labels five times. */
    method OnSharedPreferenceChanged(prefs: Preferences)
      requires Valid()
      modifies this`alternativeAppUUID, this`myapp, this`appUUID, this`updateInterval, this`metricUnits, this`slots, this`sendConfig
      ensures Valid() && Configured(prefs)
      ensures sendConfig == 5
    {
      ReloadPreferences(prefs);
      sendConfig := 5;
    }

    /** stopUpdater: idempotent; afterwards the updater is not running. */
    method StopUpdater()
      modifies this`running
      ensures !running
    {
      if running {
        running := false;
      }
    }

    /**
     * startUpdater: nothing when already running; otherwise reset the label
     * counter to 10, prime the snapshot and start the updater.
     */
    method StartUpdater(provider: ProviderData)
      modifies this`running, this`sendConfig, this`sportsData
      ensures running
      ensures old(running) ==> sendConfig == old(sendConfig) && sportsData == old(sportsData)
      ensures !old(running) ==> sendConfig == 10 && sportsData == Primed(old(sportsData), provider)
    {
      if running {
        return;
      }
      sendConfig := 10;
      InitSportsData(provider);
      running := true;
    }

    /** initSportsData: the fake start time, and the odometer summed over all tracks. */
    method InitSportsData(provider: ProviderData)
      modifies this`sportsData
      ensures sportsData == Primed(old(sportsData), provider)
    {
      match provider.lastTrack {
        case None =>
          // getLastTrack() returned null: the first dereference throws and nothing is set.
        case Some(last) =>
          var statistics := last.statistics;
          sportsData := sportsData.(fakeStartTime := statistics.startTime);
          ghost var started := sportsData;
          var tracks := provider.allTracks;
          var odometer := 0.0;
          var i := 0;
          while i < |tracks|
            invariant 0 <= i <= |tracks|
            invariant odometer == SumDistance(tracks[..i])
            invariant sportsData == if i == 0 then started else started.(odometer := odometer)
          {
            assert tracks[..i + 1][..i] == tracks[..i];
            odometer := odometer + tracks[i].statistics.totalDistance;
            sportsData := sportsData.(odometer := odometer);
            i := i + 1;
          }
          assert tracks[..i] == tracks;
      }
    }

    /**
     * processCommand: start the updater, apply the command table, and, if the
     * watch is connected, acknowledge both states to the alternative app.
     */
    method ProcessCommand(cmd: int, connected: bool, provider: ProviderData)
      requires Valid()
      modifies this`running, this`sendConfig, this`sportsData, this`desiredState, this`currentCommand, this`outbox
      ensures Valid()
      ensures running
      ensures old(running) ==> sendConfig == old(sendConfig) && sportsData == old(sportsData)
      ensures !old(running) ==> sendConfig == 10 && sportsData == Primed(old(sportsData), provider)
      ensures (desiredState, currentCommand) == Intake(cmd, old(desiredState), old(currentCommand))
      ensures outbox == old(outbox) +
        (if connected then [Message(Alternative(alternativeAppUUID), StatePayload(currentState, desiredState))] else [])
    {
      StartUpdater(provider);
      IntakeKeepsAgreement(cmd, desiredState, currentCommand);
      if cmd == CMD_START_TRACK {
        desiredState := Recording;
        currentCommand := CmdStart;
      } else if cmd == CMD_STOP_TRACK {
        desiredState := Nothing;
        currentCommand := CmdStop;
      } else if cmd == CMD_PAUSE_TRACK {
        desiredState := Paused;
        currentCommand := CmdPause;
      } else if cmd == CMD_RESUME_TRACK {
        desiredState := Recording;
        currentCommand := CmdResume;
      } else if cmd == EVENT_MYTRACKS_STARTED {
        desiredState := Recording;
        currentCommand := CmdUnknown;
      } else if cmd == EVENT_MYTRACKS_STOPPED {
        desiredState := Nothing;
        currentCommand := CmdUnknown;
      }
      if connected {
        outbox := outbox + [Message(Alternative(alternativeAppUUID), StatePayload(currentState, desiredState))];
      }
    }

    /**
     * updateMyTracks: when the tracking service is bound, observe its state,
     * fire the pending command if its guard holds, clear the command in any
     * case, and stop the updater in a terminal steady state. Unbound, nothing
     * happens and a pending command stays pending.
     */
    method UpdateMyTracks()
      requires Valid()
      modifies this`currentState, this`currentCommand, this`running, myTracksService
      ensures Valid()
      ensures myTracksService == old(myTracksService)
      ensures myTracksService == null ==>
        currentState == old(currentState) && currentCommand == old(currentCommand) && running == old(running)
      ensures myTracksService != null ==>
        && myTracksService.recording == old(myTracksService.recording)
        && myTracksService.paused == old(myTracksService.paused)
        && currentState == Observe(myTracksService.recording, myTracksService.paused)
        && myTracksService.log == old(myTracksService.log) + Fired(Guard(old(currentCommand), currentState, desiredState))
        && currentCommand == CmdUnknown
        && running == (old(running) && !IsTerminal(currentState, desiredState))
    {
      var service := myTracksService;
      if service == null {
        return;
      }
      var recording := service.IsRecording();
      if recording {
        var paused := service.IsPaused();
        if paused {
          currentState := Paused;
        } else {
          currentState := Recording;
        }
      } else {
        currentState := Nothing;
      }

      if currentCommand != CmdUnknown {
        match currentCommand {
          case CmdStart =>
            if currentState == Nothing && desiredState == Recording {
              service.StartNewTrack();
            }
          case CmdStop =>
            if currentState == Recording && desiredState == Nothing {
              service.EndCurrentTrack();
            }
            if currentState == Paused && desiredState == Nothing {
              service.EndCurrentTrack();
              currentCommand := CmdUnknown;
            }
          case CmdPause =>
            if currentState == Recording && desiredState == Paused {
              service.PauseCurrentTrack();
            }
          case CmdResume =>
            if currentState == Paused && desiredState == Recording {
              service.ResumeCurrentTrack();
            }
          case CmdUnknown =>
        }
        currentCommand := CmdUnknown;
      }

      if currentState == desiredState {
        if currentState == Nothing {
          StopUpdater();
        }
        if currentState == Paused {
          StopUpdater();
        }
      }
    }

    /**
     * updateSportsData: refresh the snapshot from the provider, the wall
     * clock `now` and the geodesic distance `distanceTo`.
     */
    method UpdateSportsData(provider: ProviderData, now: int, distanceTo: (Location, Location) -> real)
      modifies this`sportsData
      ensures sportsData == Refresh(old(sportsData), provider, now, distanceTo)
    {
      var loc := provider.lastValidTrackPoint;
      match provider.lastTrack {
        case None =>
          // getLastTrack() returned null: the first dereference throws and nothing is set.
        case Some(track) =>
          var statistics := track.statistics;
          var startLocation := provider.firstValidTrackPoint(track.id);
          if startLocation.Some? {
            if loc.None? {
              return; // loc.distanceTo throws on the null fix
            }
            sportsData := sportsData.(distanceToStart := distanceTo(loc.value, startLocation.value));
          } else {
            sportsData := sportsData.(distanceToStart := 0.0);
          }
          if loc.None? {
            return; // loc.getAltitude throws on the null fix
          }
          var fix := loc.value;
          sportsData := sportsData.(altitude := fix.altitude);
          sportsData := sportsData.(startTime := statistics.startTime);
          sportsData := sportsData.(stopTime := statistics.stopTime);
          sportsData := sportsData.(maxAltitude := statistics.maxElevation);
          sportsData := sportsData.(avgMovingSpeed := statistics.averageMovingSpeed);
          sportsData := sportsData.(avgSpeed := statistics.averageSpeed);
          sportsData := sportsData.(bearing := fix.bearing);
          sportsData := sportsData.(totalMovingTime := statistics.movingTime);
          sportsData := sportsData.(totalTime := statistics.totalTime);
          sportsData := sportsData.(totalTimeFromStart := now - statistics.startTime);
          sportsData := sportsData.(distance := statistics.totalDistance);
          sportsData := sportsData.(elevationGain := statistics.totalElevationGain);
          sportsData := sportsData.(speed := 0.0);
          if fix.time - SPEED_WINDOW_MS < sportsData.locationTime && fix.hasSpeed {
            sportsData := sportsData.(speed := fix.speed);
          }
          sportsData := sportsData.(locationTime := fix.time);
      }
    }

    /**
     * The loop of updateMyApp: walk the slots in order, appending each slot's
     * value token and label token, with ';' between tokens.
     */
    method SlotStrings(r: Renderer) returns (values: string, valueNames: string)
      requires |slots| == NumFields
      ensures values == Join(SlotTexts(slots, sportsData, metricUnits, r), ';')
      ensures valueNames == Join(SlotLabels(slots, r), ';')
    {
      ghost var texts := SlotTexts(slots, sportsData, metricUnits, r);
      ghost var labels := SlotLabels(slots, r);
      values := "";
      valueNames := "";
      var i := 0;
      while i < NumFields
        invariant 0 <= i <= NumFields
        invariant values == Join(texts[..i], ';')
        invariant valueNames == Join(labels[..i], ';')
      {
        var t := slots[i];
        if i > 0 {
          values := values + ";";
          valueNames := valueNames + ";";
        }
        valueNames := valueNames + r.pebbleName(t);
        values := values + RenderText(SlotRendering(t, sportsData, metricUnits), r);
        assert texts[i] == RenderText(SlotRendering(t, sportsData, metricUnits), r) && labels[i] == r.pebbleName(t);
        JoinStep(texts, ';', i);
        JoinStep(labels, ';', i);
        i := i + 1;
      }
      assert texts[..i] == texts && labels[..i] == labels;
    }

    /**
     * updateMyApp: build the ';'-joined values and labels, one token per slot
     * in slot order; if the watch is connected, send them to the alternative
     * app with both states, the labels only while the counter is positive.
     */
    method UpdateMyApp(connected: bool, r: Renderer)
      requires Valid()
      modifies this`sendConfig, this`outbox
      ensures Valid()
      ensures var values := Join(SlotTexts(slots, sportsData, metricUnits, r), ';');
        var names := Join(SlotLabels(slots, r), ';');
        var step := Dispatch(old(sendConfig));
        if connected then
          && sendConfig == step.next
          && outbox == old(outbox) + [Message(Alternative(alternativeAppUUID),
               CustomPayload(values, if step.includeNames then Some(names) else None, currentState, desiredState))]
        else
          sendConfig == old(sendConfig) && outbox == old(outbox)
    {
      var values, valueNames := SlotStrings(r);

      if connected {
        ghost var step := Dispatch(sendConfig);
        var names: Option<string> := None;
        if sendConfig > 0 {
          names := Some(valueNames);
          sendConfig := sendConfig - 1;
        }
        assert sendConfig == step.next && names == (if step.includeNames then Some(valueNames) else None);
        outbox := outbox + [Message(Alternative(alternativeAppUUID), CustomPayload(values, names, currentState, desiredState))];
      }
    }

    /**
     * updatePebbleSportsApp: fill the sports app's dictionary field by field
     * and send it to the configured app, connected or not.
     */
    method UpdatePebbleSportsApp(r: Renderer)
      modifies this`outbox
      ensures outbox == old(outbox) + [Message(appUUID, SportsPayload(sportsData, metricUnits, r))]
    {
      var data: map<Key, Value> := map[];
      data := data[SPORTS_TIME_KEY := Str(ClockText(SportsClock(sportsData.totalTime)))];
      // The speed and the total distance, converted to the configured units.
      var speed := sportsData.speed * SpeedFactor(metricUnits);
      var totalDistance := SportsDistance(sportsData, metricUnits);
      if metricUnits {
        data := data[SPORTS_UNITS_KEY := Uint8(UnitsMetric)];
      } else {
        data := data[SPORTS_UNITS_KEY := Uint8(UnitsImperial)];
      }
      data := data[SPORTS_LABEL_KEY := Uint8(DataSpeed)];
      data := data[SPORTS_DISTANCE_KEY := Str(r.decimal(totalDistance, SportsDistancePlaces(totalDistance)))];
      data := data[SPORTS_DATA_KEY := Str(r.decimal(speed, 1))];
      outbox := outbox + [Message(appUUID, data)];
    }

    /**
     * One tick of the updater: reconcile, refresh the snapshot, then dispatch
     * in the configured shape.
     */
    method Tick(provider: ProviderData, connected: bool, now: int,
                distanceTo: (Location, Location) -> real, r: Renderer)
      requires Valid()
      requires running
      modifies this`currentState, this`currentCommand, this`running, this`sportsData, this`sendConfig, this`outbox,
        myTracksService
      ensures Valid()
      ensures myTracksService == old(myTracksService)
      ensures myTracksService == null ==>
        currentState == old(currentState) && currentCommand == old(currentCommand) && running == old(running)
      ensures myTracksService != null ==>
        && myTracksService.recording == old(myTracksService.recording)
        && myTracksService.paused == old(myTracksService.paused)
        && currentState == Observe(myTracksService.recording, myTracksService.paused)
        && myTracksService.log == old(myTracksService.log) + Fired(Guard(old(currentCommand), currentState, desiredState))
        && currentCommand == CmdUnknown
        && running == (old(running) && !IsTerminal(currentState, desiredState))
      ensures sportsData == Refresh(old(sportsData), provider, now, distanceTo)
      ensures !myapp ==> sendConfig == old(sendConfig)
      ensures !myapp ==> outbox == old(outbox) + [Message(appUUID, SportsPayload(sportsData, metricUnits, r))]
      ensures myapp ==>
        var values := Join(SlotTexts(slots, sportsData, metricUnits, r), ';');
        var names := Join(SlotLabels(slots, r), ';');
        var step := Dispatch(old(sendConfig));
        if connected then
          && sendConfig == step.next
          && outbox == old(outbox) + [Message(Alternative(alternativeAppUUID),
               CustomPayload(values, if step.includeNames then Some(names) else None, currentState, desiredState))]
        else
          sendConfig == old(sendConfig) && outbox == old(outbox)
    {
      UpdateMyTracks();
      UpdateSportsData(provider, now, distanceTo);
      if myapp {
        UpdateMyApp(connected, r);
      } else {
        UpdatePebbleSportsApp(r);
      }
    }
  }

  /** Preferences of a custom-app user, and a provider with no tracks yet. */
  function SamplePreferences(): Preferences
  {
    Preferences("5E1ED09C-2624-4F25-8EC1-32B0563036AC", true, 5000, true, _ => NoValue)
  }

  function EmptyProvider(): ProviderData
  {
    ProviderData(None, None, _ => None, [])
  }

  /**
   * START while idle: the next tick, with an idle tracking service bound,
   * starts one new track, clears the command and keeps the updater running
   * (current NOTHING still differs from desired RECORDING).
   */
  method StartFromIdle() returns (log: seq<Action>, pending: Command, stillRunning: bool)
    ensures log == [Action.StartNewTrack] && pending == CmdUnknown && stillRunning
  {
    var bridge := new PebbleSportsService(SamplePreferences(), EmptyProvider());
    var tracking := new TrackingService(false, false);
    bridge.myTracksService := tracking; // as onServiceConnected does
    bridge.ProcessCommand(CMD_START_TRACK, true, EmptyProvider());
    bridge.UpdateMyTracks();
    log, pending, stillRunning := tracking.log, bridge.currentCommand, bridge.running;
  }

  /**
   * PAUSE while paused: nothing is called on the tracking service, and since
   * current and desired are both PAUSED the updater stops itself.
   */
  method PauseWhenPaused() returns (log: seq<Action>, stillRunning: bool)
    ensures log == [] && !stillRunning
  {
    var bridge := new PebbleSportsService(SamplePreferences(), EmptyProvider());
    var tracking := new TrackingService(true, true);
    bridge.myTracksService := tracking; // as onServiceConnected does
    bridge.ProcessCommand(CMD_PAUSE_TRACK, false, EmptyProvider());
    bridge.UpdateMyTracks();
    log, stillRunning := tracking.log, bridge.running;
  }
}
