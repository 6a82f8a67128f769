/** What manage_torrent_task promises, proved about its reference run. */
module TorrentTaskProperties {
  import opened SyncTypes
  import opened Messages
  import opened RateLimits
  import opened TorrentTask

  /** The statuses among a sequence of UI items, in order. */
  function Statuses(items: seq<UiItem>): seq<SyncStatus>
  {
    if |items| == 0 then []
    else (if items[0].Status? then [items[0].status] else []) + Statuses(items[1..])
  }

  /** The events among a sequence of UI items, in order. */
  function Events(items: seq<UiItem>): seq<SyncEvent>
  {
    if |items| == 0 then []
    else (if items[0].Event? then [items[0].event] else []) + Events(items[1..])
  }

  lemma {:induction false} EmittedAppend(a: seq<Step>, b: seq<Step>)
    ensures Emitted(a + b) == Emitted(a) + Emitted(b)
  {
    if |a| == 0 {
      assert a + b == b;
    } else {
      assert (a + b)[0] == a[0];
      assert (a + b)[1..] == a[1..] + b;
      EmittedAppend(a[1..], b);
      calc {
        Emitted(a + b);
        (if a[0].Emit? then [a[0].item] else []) + Emitted(a[1..] + b);
        (if a[0].Emit? then [a[0].item] else []) + (Emitted(a[1..]) + Emitted(b));
        ((if a[0].Emit? then [a[0].item] else []) + Emitted(a[1..])) + Emitted(b);
      }
    }
  }

  lemma {:induction false} EngineCallsAppend(a: seq<Step>, b: seq<Step>)
    ensures EngineCalls(a + b) == EngineCalls(a) + EngineCalls(b)
  {
    if |a| == 0 {
      assert a + b == b;
    } else {
      assert (a + b)[0] == a[0];
      assert (a + b)[1..] == a[1..] + b;
      EngineCallsAppend(a[1..], b);
      calc {
        EngineCalls(a + b);
        (if a[0].Call? then [a[0].call] else []) + EngineCalls(a[1..] + b);
        (if a[0].Call? then [a[0].call] else []) + (EngineCalls(a[1..]) + EngineCalls(b));
        ((if a[0].Call? then [a[0].call] else []) + EngineCalls(a[1..])) + EngineCalls(b);
      }
    }
  }

  lemma {:induction false} StatusesAppend(a: seq<UiItem>, b: seq<UiItem>)
    ensures Statuses(a + b) == Statuses(a) + Statuses(b)
  {
    if |a| == 0 {
      assert a + b == b;
    } else {
      assert (a + b)[0] == a[0];
      assert (a + b)[1..] == a[1..] + b;
      StatusesAppend(a[1..], b);
      calc {
        Statuses(a + b);
        (if a[0].Status? then [a[0].status] else []) + Statuses(a[1..] + b);
        (if a[0].Status? then [a[0].status] else []) + (Statuses(a[1..]) + Statuses(b));
        ((if a[0].Status? then [a[0].status] else []) + Statuses(a[1..])) + Statuses(b);
      }
    }
  }

  lemma {:induction false} EventsAppend(a: seq<UiItem>, b: seq<UiItem>)
    ensures Events(a + b) == Events(a) + Events(b)
  {
    if |a| == 0 {
      assert a + b == b;
    } else {
      assert (a + b)[0] == a[0];
      assert (a + b)[1..] == a[1..] + b;
      EventsAppend(a[1..], b);
      calc {
        Events(a + b);
        (if a[0].Event? then [a[0].event] else []) + Events(a[1..] + b);
        (if a[0].Event? then [a[0].event] else []) + (Events(a[1..]) + Events(b));
        ((if a[0].Event? then [a[0].event] else []) + Events(a[1..])) + Events(b);
      }
    }
  }

  /** Each projection of a run splits along its three phases. */
  lemma CallsOfPhases(a: seq<Step>, b: seq<Step>, c: seq<Step>)
    ensures EngineCalls(a + b + c) == EngineCalls(a) + EngineCalls(b) + EngineCalls(c)
  {
    EngineCallsAppend(a + b, c);
    EngineCallsAppend(a, b);
  }

  lemma StatusesOfPhases(a: seq<Step>, b: seq<Step>, c: seq<Step>)
    ensures Statuses(Emitted(a + b + c)) == Statuses(Emitted(a)) + Statuses(Emitted(b)) + Statuses(Emitted(c))
  {
    EmittedAppend(a + b, c);
    EmittedAppend(a, b);
    StatusesAppend(Emitted(a) + Emitted(b), Emitted(c));
    StatusesAppend(Emitted(a), Emitted(b));
  }

  lemma EventsOfPhases(a: seq<Step>, b: seq<Step>, c: seq<Step>)
    ensures Events(Emitted(a + b + c)) == Events(Emitted(a)) + Events(Emitted(b)) + Events(Emitted(c))
  {
    EmittedAppend(a + b, c);
    EmittedAppend(a, b);
    EventsAppend(Emitted(a) + Emitted(b), Emitted(c));
    EventsAppend(Emitted(a), Emitted(b));
  }

  lemma ProjectOne(x: Step)
    ensures EngineCalls([x]) == (if x.Call? then [x.call] else [])
    ensures Emitted([x]) == (if x.Emit? then [x.item] else [])
    ensures Statuses(Emitted([x])) == (if x.Emit? && x.item.Status? then [x.item.status] else [])
    ensures Events(Emitted([x])) == (if x.Emit? && x.item.Event? then [x.item.event] else [])
  {
    assert [x][1..] == [];
    if x.Emit? {
      assert [x.item][1..] == [];
    }
  }

  /** What the retire phase calls and sends. */
  lemma RetirePhaseCalls(previous: Option<nat>, forgetOutcome: Result<(), EngineError>)
    ensures EngineCalls(RetirePhase(previous, forgetOutcome)) ==
      (if previous.Some? then [Forget(previous.value)] else [])
  {
    if previous.Some? {
      var x, y := Emit(Status(UpdatingTorrent)), Call(Forget(previous.value));
      var failure := if forgetOutcome.Err?
        then [Emit(Event(SyncEvent.Error(ForgetFailed(previous.value, forgetOutcome.error))))] else [];
      assert RetirePhase(previous, forgetOutcome) == [x] + [y] + failure;
      ProjectOne(x);
      ProjectOne(y);
      if |failure| > 0 {
        assert failure == [failure[0]];
        ProjectOne(failure[0]);
      }
      CallsOfPhases([x], [y], failure);
    }
  }

  lemma RetirePhaseStatuses(previous: Option<nat>, forgetOutcome: Result<(), EngineError>)
    ensures Statuses(Emitted(RetirePhase(previous, forgetOutcome))) ==
      (if previous.Some? then [UpdatingTorrent] else [])
  {
    if previous.Some? {
      var x, y := Emit(Status(UpdatingTorrent)), Call(Forget(previous.value));
      var failure := if forgetOutcome.Err?
        then [Emit(Event(SyncEvent.Error(ForgetFailed(previous.value, forgetOutcome.error))))] else [];
      assert RetirePhase(previous, forgetOutcome) == [x] + [y] + failure;
      ProjectOne(x);
      ProjectOne(y);
      if |failure| > 0 {
        assert failure == [failure[0]];
        ProjectOne(failure[0]);
      }
      StatusesOfPhases([x], [y], failure);
    }
  }

  lemma RetirePhaseEvents(previous: Option<nat>, forgetOutcome: Result<(), EngineError>)
    ensures Events(Emitted(RetirePhase(previous, forgetOutcome))) ==
      (if previous.Some? && forgetOutcome.Err?
       then [SyncEvent.Error(ForgetFailed(previous.value, forgetOutcome.error))] else [])
  {
    if previous.Some? {
      var x, y := Emit(Status(UpdatingTorrent)), Call(Forget(previous.value));
      var failure := if forgetOutcome.Err?
        then [Emit(Event(SyncEvent.Error(ForgetFailed(previous.value, forgetOutcome.error))))] else [];
      assert RetirePhase(previous, forgetOutcome) == [x] + [y] + failure;
      ProjectOne(x);
      ProjectOne(y);
      if |failure| > 0 {
        assert failure == [failure[0]];
        ProjectOne(failure[0]);
      }
      EventsOfPhases([x], [y], failure);
    }
  }

  /** What the path guard and the add call send and call. */
  lemma RegisterPhaseCalls(config: AppConfig, content: seq<Byte>)
    requires SpeedsFit(config)
    ensures EngineCalls(RegisterPhase(config, content)) ==
      (if |config.downloadPath| > 0 then [Add(FromBytes(content), BuildOptions(config))] else [])
  {
    var steps := RegisterPhase(config, content);
    {
      assert steps == [steps[0]] + [steps[1]] + [];
      ProjectOne(steps[0]);
      ProjectOne(steps[1]);
      CallsOfPhases([steps[0]], [steps[1]], []);
    }
  }

  lemma RegisterPhaseStatuses(config: AppConfig, content: seq<Byte>)
    requires SpeedsFit(config)
    ensures Statuses(Emitted(RegisterPhase(config, content))) ==
      (if |config.downloadPath| > 0 then [UpdatingTorrent] else [SyncStatus.Error(PATH_NOT_CONFIGURED)])
  {
    var steps := RegisterPhase(config, content);
    {
      assert steps == [steps[0]] + [steps[1]] + [];
      ProjectOne(steps[0]);
      ProjectOne(steps[1]);
      StatusesOfPhases([steps[0]], [steps[1]], []);
    }
  }

  lemma RegisterPhaseEvents(config: AppConfig, content: seq<Byte>)
    requires SpeedsFit(config)
    ensures Events(Emitted(RegisterPhase(config, content))) ==
      (if |config.downloadPath| > 0 then [] else [SyncEvent.Error(Text(PATH_NOT_CONFIGURED))])
  {
    var steps := RegisterPhase(config, content);
    {
      assert steps == [steps[0]] + [steps[1]] + [];
      ProjectOne(steps[0]);
      ProjectOne(steps[1]);
      EventsOfPhases([steps[0]], [steps[1]], []);
    }
  }

  /** What is sent once the engine has answered add; the engine is not called again. */
  lemma ResponsePhaseCalls(config: AppConfig, addOutcome: Result<AddResponse, EngineError>)
    ensures EngineCalls(ResponsePhase(config, addOutcome)) == []
  {
    var steps := ResponsePhase(config, addOutcome);
    if |steps| > 0 {
      assert steps == [steps[0]] + [steps[1]] + [];
      ProjectOne(steps[0]);
      ProjectOne(steps[1]);
      CallsOfPhases([steps[0]], [steps[1]], []);
    }
  }

  lemma ResponsePhaseStatuses(config: AppConfig, addOutcome: Result<AddResponse, EngineError>)
    ensures Statuses(Emitted(ResponsePhase(config, addOutcome))) ==
      (if |config.downloadPath| == 0 || addOutcome.Err? then []
       else if addOutcome.value.id.Some? then [Idle] else [SyncStatus.Error(NO_ID_RETURNED)])
  {
    var steps := ResponsePhase(config, addOutcome);
    if |steps| > 0 {
      assert steps == [steps[0]] + [steps[1]] + [];
      ProjectOne(steps[0]);
      ProjectOne(steps[1]);
      StatusesOfPhases([steps[0]], [steps[1]], []);
    }
  }

  lemma ResponsePhaseEvents(config: AppConfig, addOutcome: Result<AddResponse, EngineError>)
    ensures Events(Emitted(ResponsePhase(config, addOutcome))) ==
      (if |config.downloadPath| == 0 || addOutcome.Err? then []
       else if addOutcome.value.id.Some? then [TorrentAdded(addOutcome.value.id.value)]
       else [SyncEvent.Error(Text(NO_ID_RETURNED))])
  {
    var steps := ResponsePhase(config, addOutcome);
    if |steps| > 0 {
      assert steps == [steps[0]] + [steps[1]] + [];
      ProjectOne(steps[0]);
      ProjectOne(steps[1]);
      EventsOfPhases([steps[0]], [steps[1]], []);
    }
  }

  /** The number of Error events among a sequence of events. */
  function ErrorCount(events: seq<SyncEvent>): nat
  {
    if |events| == 0 then 0
    else (if events[0].Error? then 1 else 0) + ErrorCount(events[1..])
  }

  lemma {:induction false} ErrorCountAppend(a: seq<SyncEvent>, b: seq<SyncEvent>)
    ensures ErrorCount(a + b) == ErrorCount(a) + ErrorCount(b)
  {
    if |a| == 0 {
      assert a + b == b;
    } else {
      assert (a + b)[1..] == a[1..] + b;
      ErrorCountAppend(a[1..], b);
    }
  }

  /** The engine sees a forget for the previous id, if there is one, and then
      an add carrying the new content and the configured options, if the path
      is set; nothing else. So forget never happens without a previous id, it
      always comes before add, and a failing forget does not prevent add. */
  lemma EngineCallsOfRun(
    config: AppConfig, previous: Option<nat>, content: seq<Byte>,
    forgetOutcome: Result<(), EngineError>, addOutcome: Result<AddResponse, EngineError>)
    requires SpeedsFit(config)
    ensures EngineCalls(Run(config, previous, content, forgetOutcome, addOutcome).steps) ==
      (if previous.Some? then [Forget(previous.value)] else []) +
      (if |config.downloadPath| > 0 then [Add(FromBytes(content), BuildOptions(config))] else [])
  {
    CallsOfPhases(RetirePhase(previous, forgetOutcome), RegisterPhase(config, content), ResponsePhase(config, addOutcome));
    RetirePhaseCalls(previous, forgetOutcome);
    RegisterPhaseCalls(config, content);
    ResponsePhaseCalls(config, addOutcome);
  }

  /** With a previous id, the first thing that happens is the UpdatingTorrent
      status, and the second is the forget call for that id. */
  lemma StatusPrecedesForget(
    config: AppConfig, id: nat, content: seq<Byte>,
    forgetOutcome: Result<(), EngineError>, addOutcome: Result<AddResponse, EngineError>)
    requires SpeedsFit(config)
    ensures Run(config, Some(id), content, forgetOutcome, addOutcome).steps[..2] ==
      [Emit(Status(UpdatingTorrent)), Call(Forget(id))]
  {
  }

  /** A failing forget changes the run in one way only: one Error event,
      carrying the failure, right after the forget call. What is returned
      stays the same. */
  lemma ForgetFailureIsSwallowed(
    config: AppConfig, id: nat, content: seq<Byte>, e: EngineError, addOutcome: Result<AddResponse, EngineError>)
    requires SpeedsFit(config)
    ensures
      var ok := Run(config, Some(id), content, Ok(()), addOutcome);
      var failed := Run(config, Some(id), content, Err(e), addOutcome);
      && failed.result == ok.result
      && failed.steps == ok.steps[..2] + [Emit(Event(SyncEvent.Error(ForgetFailed(id, e))))] + ok.steps[2..]
  {
    RetiredRun(config, id, content, Ok(()), addOutcome);
    RetiredRun(config, id, content, Err(e), addOutcome);
  }

  /** A failing forget leaves the engine calls unchanged and adds exactly one
      event, the failure, in front of the others. */
  lemma ForgetFailureOnlyAddsItsEvent(
    config: AppConfig, id: nat, content: seq<Byte>, e: EngineError, addOutcome: Result<AddResponse, EngineError>)
    requires SpeedsFit(config)
    ensures
      var ok := Run(config, Some(id), content, Ok(()), addOutcome).steps;
      var failed := Run(config, Some(id), content, Err(e), addOutcome).steps;
      && EngineCalls(failed) == EngineCalls(ok)
      && Events(Emitted(failed)) == [SyncEvent.Error(ForgetFailed(id, e))] + Events(Emitted(ok))
  {
    RetiredRun(config, id, content, Ok(()), addOutcome);
    RetiredRun(config, id, content, Err(e), addOutcome);
    FailureEventAddsNoCall(id, e, RegisterPhase(config, content) + ResponsePhase(config, addOutcome));
    FailureEventIsFirstEvent(id, e, RegisterPhase(config, content) + ResponsePhase(config, addOutcome));
  }

  /** Inserting the forget failure after the status and the forget call adds
      no engine call, whatever follows. */
  lemma FailureEventAddsNoCall(id: nat, e: EngineError, rest: seq<Step>)
    ensures
      var head := [Emit(Status(UpdatingTorrent)), Call(Forget(id))];
      EngineCalls(head + [Emit(Event(SyncEvent.Error(ForgetFailed(id, e))))] + rest) == EngineCalls(head + [] + rest)
  {
    var head := [Emit(Status(UpdatingTorrent)), Call(Forget(id))];
    var event := Emit(Event(SyncEvent.Error(ForgetFailed(id, e))));
    assert head + [] == head;
    assert [event][1..] == [];
    EngineCallsAppend(head + [event], rest);
    EngineCallsAppend(head, [event]);
  }

  /** Inserting the forget failure after the status and the forget call adds
      that one event in front of the others, whatever follows. */
  lemma FailureEventIsFirstEvent(id: nat, e: EngineError, rest: seq<Step>)
    ensures
      var head := [Emit(Status(UpdatingTorrent)), Call(Forget(id))];
      var failure := SyncEvent.Error(ForgetFailed(id, e));
      Events(Emitted(head + [Emit(Event(failure))] + rest)) == [failure] + Events(Emitted(head + [] + rest))
  {
    var head := [Emit(Status(UpdatingTorrent)), Call(Forget(id))];
    var failed := head + [Emit(Event(SyncEvent.Error(ForgetFailed(id, e))))];
    assert head + [] == head;
    FailedRetireEvents(id, SyncEvent.Error(ForgetFailed(id, e)));
    EmittedAppend(failed, rest);
    EventsAppend(Emitted(failed), Emitted(rest));
    EmittedAppend(head, rest);
    EventsAppend(Emitted(head), Emitted(rest));
  }

  /** The events of the retire phase, with and without a failure event. */
  lemma FailedRetireEvents(id: nat, failure: SyncEvent)
    ensures Events(Emitted([Emit(Status(UpdatingTorrent)), Call(Forget(id))])) == []
    ensures Events(Emitted([Emit(Status(UpdatingTorrent)), Call(Forget(id))] + [Emit(Event(failure))])) == [failure]
  {
    RetireEmitted(id, failure);
    var status, event := Status(UpdatingTorrent), Event(failure);
    assert [status][1..] == [];
    assert [status, event][1..] == [event];
    assert [event][1..] == [];
  }

  /** What the retire phase with a failed forget sends. */
  lemma RetireEmitted(id: nat, failure: SyncEvent)
    ensures Emitted([Emit(Status(UpdatingTorrent)), Call(Forget(id))]) == [Status(UpdatingTorrent)]
    ensures Emitted([Emit(Status(UpdatingTorrent)), Call(Forget(id))] + [Emit(Event(failure))]) ==
      [Status(UpdatingTorrent), Event(failure)]
  {
    var status, forget, event := Emit(Status(UpdatingTorrent)), Call(Forget(id)), Emit(Event(failure));
    assert [status, forget] == [status] + [forget];
    EmittedAppend([status], [forget]);
    EmittedAppend([status, forget], [event]);
    ProjectOne(status);
    ProjectOne(forget);
    ProjectOne(event);
  }

  /** A run with a previous id: the status and the forget call, the failure
      event if forget failed, and then the remaining two phases. */
  lemma RetiredRun(
    config: AppConfig, id: nat, content: seq<Byte>,
    forgetOutcome: Result<(), EngineError>, addOutcome: Result<AddResponse, EngineError>)
    requires SpeedsFit(config)
    ensures
      var head := [Emit(Status(UpdatingTorrent)), Call(Forget(id))];
      var failure := if forgetOutcome.Err? then [Emit(Event(SyncEvent.Error(ForgetFailed(id, forgetOutcome.error))))] else [];
      var rest := RegisterPhase(config, content) + ResponsePhase(config, addOutcome);
      var steps := Run(config, Some(id), content, forgetOutcome, addOutcome).steps;
      && steps == head + failure + rest
      && steps[..2] == head
      && steps[2..] == failure + rest
  {
    var head := [Emit(Status(UpdatingTorrent)), Call(Forget(id))];
    var failure := if forgetOutcome.Err? then [Emit(Event(SyncEvent.Error(ForgetFailed(id, forgetOutcome.error))))] else [];
    Associative(head + failure, RegisterPhase(config, content), ResponsePhase(config, addOutcome));
    Associative(head, failure, RegisterPhase(config, content) + ResponsePhase(config, addOutcome));
  }

  /** An empty download path: Ok(None) is returned, add is never called, and
      the run ends with an Error event followed by the Error status
      "Download path not configured", after the whole retire phase. */
  lemma EmptyPathReturnsNone(
    config: AppConfig, previous: Option<nat>, content: seq<Byte>,
    forgetOutcome: Result<(), EngineError>, addOutcome: Result<AddResponse, EngineError>)
    requires SpeedsFit(config) && |config.downloadPath| == 0
    ensures
      var run := Run(config, previous, content, forgetOutcome, addOutcome);
      && run.result == Ok(None)
      && |run.steps| >= 2
      && run.steps[..|run.steps| - 2] == RetirePhase(previous, forgetOutcome)
      && run.steps[|run.steps| - 2..] ==
           [Emit(Event(SyncEvent.Error(Text(PATH_NOT_CONFIGURED)))), Emit(Status(SyncStatus.Error(PATH_NOT_CONFIGURED)))]
      && EngineCalls(run.steps) == (if previous.Some? then [Forget(previous.value)] else [])
  {
    EngineCallsOfRun(config, previous, content, forgetOutcome, addOutcome);
  }

  /** When the path is set, the last engine call is add, with the new
      content, output folder = the download path, overwrite on, paused
      exactly when seeding is off, and each direction's limit translated
      from that direction's own setting. */
  lemma AddOptionsFromConfig(
    config: AppConfig, previous: Option<nat>, content: seq<Byte>,
    forgetOutcome: Result<(), EngineError>, addOutcome: Result<AddResponse, EngineError>)
    requires SpeedsFit(config) && |config.downloadPath| > 0
    ensures
      var calls := EngineCalls(Run(config, previous, content, forgetOutcome, addOutcome).steps);
      && |calls| > 0
      && calls[|calls| - 1].Add?
      && calls[|calls| - 1].request == FromBytes(content)
      && var options := calls[|calls| - 1].options;
      && options.outputFolder == Some(config.downloadPath)
      && options.overwrite
      && (options.paused <==> !config.shouldSeed)
      && options.ratelimits.downloadBps == TranslateLimit(config.maxDownloadSpeed)
      && options.ratelimits.uploadBps == TranslateLimit(config.maxUploadSpeed)
  {
    EngineCallsOfRun(config, previous, content, forgetOutcome, addOutcome);
  }

  /** A failing add is returned as an error with its context, and the add call
      is the last step: no TorrentAdded event and no Idle status follow it. */
  lemma AddFailurePropagates(
    config: AppConfig, previous: Option<nat>, content: seq<Byte>,
    forgetOutcome: Result<(), EngineError>, e: EngineError)
    requires SpeedsFit(config) && |config.downloadPath| > 0
    ensures
      var run := Run(config, previous, content, forgetOutcome, Err(e));
      && run.result == Err(TaskError(ADD_FAILED_CONTEXT, e))
      && |run.steps| > 0
      && run.steps[|run.steps| - 1] == Call(Add(FromBytes(content), BuildOptions(config)))
  {
  }

  /** A new id: Ok(Some(id)) is returned and the run ends with the add call,
      then TorrentAdded(id), then Idle. */
  lemma AddedIdIsReported(
    config: AppConfig, previous: Option<nat>, content: seq<Byte>,
    forgetOutcome: Result<(), EngineError>, id: nat)
    requires SpeedsFit(config) && |config.downloadPath| > 0
    ensures
      var run := Run(config, previous, content, forgetOutcome, Ok(AddResponse(Some(id))));
      && run.result == Ok(Some(id))
      && |run.steps| >= 3
      && run.steps[|run.steps| - 3..] ==
           [Call(Add(FromBytes(content), BuildOptions(config))), Emit(Event(TorrentAdded(id))), Emit(Status(Idle))]
  {
  }

  /** Add succeeded without an id: Ok(None) is returned and the run ends with
      the add call, an Error event and an Error status. */
  lemma MissingIdIsReported(
    config: AppConfig, previous: Option<nat>, content: seq<Byte>,
    forgetOutcome: Result<(), EngineError>)
    requires SpeedsFit(config) && |config.downloadPath| > 0
    ensures
      var run := Run(config, previous, content, forgetOutcome, Ok(AddResponse(None)));
      && run.result == Ok(None)
      && |run.steps| >= 3
      && run.steps[|run.steps| - 3..] ==
           [Call(Add(FromBytes(content), BuildOptions(config))),
            Emit(Event(SyncEvent.Error(Text(NO_ID_RETURNED)))), Emit(Status(SyncStatus.Error(NO_ID_RETURNED)))]
  {
  }

  /** How the result depends on the inputs: an error exactly when the path is
      set and add failed; Ok(None) exactly when the path is empty or add gave
      no id; otherwise the id add gave. The forget outcome never matters. */
  lemma ResultCases(
    config: AppConfig, previous: Option<nat>, content: seq<Byte>,
    forgetOutcome: Result<(), EngineError>, addOutcome: Result<AddResponse, EngineError>,
    otherForgetOutcome: Result<(), EngineError>)
    requires SpeedsFit(config)
    ensures
      var result := Run(config, previous, content, forgetOutcome, addOutcome).result;
      && (result.Err? <==> |config.downloadPath| > 0 && addOutcome.Err?)
      && (result == Ok(None) <==> |config.downloadPath| == 0 || addOutcome == Ok(AddResponse(None)))
      && (result.Ok? && result.value.Some? <==>
            |config.downloadPath| > 0 && addOutcome.Ok? && addOutcome.value.id.Some?)
      && (result.Ok? && result.value.Some? ==> result.value == addOutcome.value.id)
      && result == Run(config, previous, content, otherForgetOutcome, addOutcome).result
  {
  }

  /** The statuses sent on a run: UpdatingTorrent for the retire phase, if any,
      then the Error status of the path guard, or UpdatingTorrent followed by
      the status for the engine's answer to add (none for an add error). */
  lemma StatusesOfRun(
    config: AppConfig, previous: Option<nat>, content: seq<Byte>,
    forgetOutcome: Result<(), EngineError>, addOutcome: Result<AddResponse, EngineError>)
    requires SpeedsFit(config)
    ensures
      Statuses(Emitted(Run(config, previous, content, forgetOutcome, addOutcome).steps)) ==
        (if previous.Some? then [UpdatingTorrent] else []) +
        (if |config.downloadPath| == 0 then [SyncStatus.Error(PATH_NOT_CONFIGURED)]
         else if addOutcome.Err? then [UpdatingTorrent]
         else if addOutcome.value.id.Some? then [UpdatingTorrent, Idle]
         else [UpdatingTorrent, SyncStatus.Error(NO_ID_RETURNED)])
  {
    StatusesOfPhases(RetirePhase(previous, forgetOutcome), RegisterPhase(config, content), ResponsePhase(config, addOutcome));
    RetirePhaseStatuses(previous, forgetOutcome);
    RegisterResponseStatuses(config, content, addOutcome);
    Associative(Statuses(Emitted(RetirePhase(previous, forgetOutcome))),
      Statuses(Emitted(RegisterPhase(config, content))), Statuses(Emitted(ResponsePhase(config, addOutcome))));
  }

  /** The statuses of the path guard and the add response together. */
  lemma RegisterResponseStatuses(config: AppConfig, content: seq<Byte>, addOutcome: Result<AddResponse, EngineError>)
    requires SpeedsFit(config)
    ensures Statuses(Emitted(RegisterPhase(config, content))) + Statuses(Emitted(ResponsePhase(config, addOutcome))) ==
      (if |config.downloadPath| == 0 then [SyncStatus.Error(PATH_NOT_CONFIGURED)]
       else if addOutcome.Err? then [UpdatingTorrent]
       else if addOutcome.value.id.Some? then [UpdatingTorrent, Idle]
       else [UpdatingTorrent, SyncStatus.Error(NO_ID_RETURNED)])
  {
    if |config.downloadPath| == 0 {
      UnconfiguredStatuses(config, content, addOutcome);
    } else {
      ConfiguredStatuses(config, content, addOutcome);
    }
  }

  lemma UnconfiguredStatuses(config: AppConfig, content: seq<Byte>, addOutcome: Result<AddResponse, EngineError>)
    requires SpeedsFit(config) && |config.downloadPath| == 0
    ensures Statuses(Emitted(RegisterPhase(config, content))) + Statuses(Emitted(ResponsePhase(config, addOutcome))) ==
      [SyncStatus.Error(PATH_NOT_CONFIGURED)]
  {
    RegisterPhaseStatuses(config, content);
    ResponsePhaseStatuses(config, addOutcome);
  }

  lemma ConfiguredStatuses(config: AppConfig, content: seq<Byte>, addOutcome: Result<AddResponse, EngineError>)
    requires SpeedsFit(config) && |config.downloadPath| > 0
    ensures Statuses(Emitted(RegisterPhase(config, content))) + Statuses(Emitted(ResponsePhase(config, addOutcome))) ==
      [UpdatingTorrent] +
      (if addOutcome.Err? then [] else if addOutcome.value.id.Some? then [Idle] else [SyncStatus.Error(NO_ID_RETURNED)])
  {
    RegisterPhaseStatuses(config, content);
    ResponsePhaseStatuses(config, addOutcome);
  }

  /** The statuses sent follow the state machine: every status but the last is
      UpdatingTorrent; the last is a resting one (Idle or Error) exactly when
      the result is Ok, so a failing add leaves UpdatingTorrent as the last
      status sent; and a run that does anything starts with UpdatingTorrent. */
  lemma StatusesFollowStateMachine(
    config: AppConfig, previous: Option<nat>, content: seq<Byte>,
    forgetOutcome: Result<(), EngineError>, addOutcome: Result<AddResponse, EngineError>)
    requires SpeedsFit(config)
    ensures
      var run := Run(config, previous, content, forgetOutcome, addOutcome);
      var statuses := Statuses(Emitted(run.steps));
      && |statuses| > 0
      && (forall i :: 0 <= i < |statuses| - 1 ==> statuses[i] == UpdatingTorrent)
      && (run.result.Ok? <==> IsResting(statuses[|statuses| - 1]))
      && (previous.Some? || |config.downloadPath| > 0 ==> statuses[0] == UpdatingTorrent)
  {
    StatusesOfRun(config, previous, content, forgetOutcome, addOutcome);
  }

  /** The events sent on a run: the forget failure, if any, then the event for
      the path guard or for the engine's answer to add (none for an add error). */
  lemma EventsOfRun(
    config: AppConfig, previous: Option<nat>, content: seq<Byte>,
    forgetOutcome: Result<(), EngineError>, addOutcome: Result<AddResponse, EngineError>)
    requires SpeedsFit(config)
    ensures
      var retired := Events(Emitted(RetirePhase(previous, forgetOutcome)));
      var events := Events(Emitted(Run(config, previous, content, forgetOutcome, addOutcome).steps));
      && retired == (if previous.Some? && forgetOutcome.Err?
                     then [SyncEvent.Error(ForgetFailed(previous.value, forgetOutcome.error))] else [])
      && events == retired +
           (if |config.downloadPath| == 0 then [SyncEvent.Error(Text(PATH_NOT_CONFIGURED))]
            else if addOutcome.Err? then []
            else if addOutcome.value.id.Some? then [TorrentAdded(addOutcome.value.id.value)]
            else [SyncEvent.Error(Text(NO_ID_RETURNED))])
  {
    EventsOfPhases(RetirePhase(previous, forgetOutcome), RegisterPhase(config, content), ResponsePhase(config, addOutcome));
    RetirePhaseEvents(previous, forgetOutcome);
    RegisterPhaseEvents(config, content);
    ResponsePhaseEvents(config, addOutcome);
    var retired := Events(Emitted(RetirePhase(previous, forgetOutcome)));
    var registered := Events(Emitted(RegisterPhase(config, content)));
    var responded := Events(Emitted(ResponsePhase(config, addOutcome)));
    Associative(retired, registered, responded);
    if |config.downloadPath| == 0 {
      assert registered + responded == [SyncEvent.Error(Text(PATH_NOT_CONFIGURED))];
    } else if addOutcome.Err? {
      assert registered + responded == [];
    } else if addOutcome.value.id.Some? {
      assert registered + responded == [TorrentAdded(addOutcome.value.id.value)];
    } else {
      assert registered + responded == [SyncEvent.Error(Text(NO_ID_RETURNED))];
    }
  }

  /** Exactly one Error event for a failed forget, plus exactly one for an
      Ok(None) result, and no others. */
  lemma ErrorEventsOfRun(
    config: AppConfig, previous: Option<nat>, content: seq<Byte>,
    forgetOutcome: Result<(), EngineError>, addOutcome: Result<AddResponse, EngineError>)
    requires SpeedsFit(config)
    ensures
      var run := Run(config, previous, content, forgetOutcome, addOutcome);
      ErrorCount(Events(Emitted(run.steps))) ==
        (if previous.Some? && forgetOutcome.Err? then 1 else 0) + (if run.result == Ok(None) then 1 else 0)
  {
    EventsOfRun(config, previous, content, forgetOutcome, addOutcome);
    var retired := Events(Emitted(RetirePhase(previous, forgetOutcome)));
    var last: seq<SyncEvent> :=
      if |config.downloadPath| == 0 then [SyncEvent.Error(Text(PATH_NOT_CONFIGURED))]
      else if addOutcome.Err? then []
      else if addOutcome.value.id.Some? then [TorrentAdded(addOutcome.value.id.value)]
      else [SyncEvent.Error(Text(NO_ID_RETURNED))];
    ErrorCountAppend(retired, last);
    assert retired != [] ==> retired[1..] == [];
    assert last != [] ==> last[1..] == [];
  }

  /** A TorrentAdded event is sent only as the last event and only for the id
      that is returned, and a returned id is always announced that way. */
  lemma TorrentAddedOnlyForNewId(
    config: AppConfig, previous: Option<nat>, content: seq<Byte>,
    forgetOutcome: Result<(), EngineError>, addOutcome: Result<AddResponse, EngineError>)
    requires SpeedsFit(config)
    ensures
      var run := Run(config, previous, content, forgetOutcome, addOutcome);
      var events := Events(Emitted(run.steps));
      && (forall i :: 0 <= i < |events| && events[i].TorrentAdded? ==>
            i == |events| - 1 && run.result == Ok(Some(events[i].id)))
      && (run.result.Ok? && run.result.value.Some? ==>
            |events| > 0 && events[|events| - 1] == TorrentAdded(run.result.value.value))
  {
    EventsOfRun(config, previous, content, forgetOutcome, addOutcome);
    var run := Run(config, previous, content, forgetOutcome, addOutcome);
    var events := Events(Emitted(run.steps));
    var retired := Events(Emitted(RetirePhase(previous, forgetOutcome)));
    var last: seq<SyncEvent> :=
      if |config.downloadPath| == 0 then [SyncEvent.Error(Text(PATH_NOT_CONFIGURED))]
      else if addOutcome.Err? then []
      else if addOutcome.value.id.Some? then [TorrentAdded(addOutcome.value.id.value)]
      else [SyncEvent.Error(Text(NO_ID_RETURNED))];
    assert events == retired + last;
    forall i | 0 <= i < |events| && events[i].TorrentAdded?
      ensures i == |events| - 1 && run.result == Ok(Some(events[i].id))
    {
      AddedOnlyAtEnd(retired, last, i);
    }
  }

  /** After at most one Error event, a TorrentAdded can only be the single
      event that closes the sequence. */
  lemma AddedOnlyAtEnd(retired: seq<SyncEvent>, last: seq<SyncEvent>, i: nat)
    requires |retired| <= 1 && (|retired| == 1 ==> retired[0].Error?) && |last| <= 1
    requires i < |retired + last| && (retired + last)[i].TorrentAdded?
    ensures i == |retired + last| - 1 && (retired + last)[i] == last[0]
  {
  }

  /** Replacing torrent 7 with one the engine registers as 42, downloading to
      /tmp/mods without seeding, at most 500 KB/s down: the run forgets 7 and
      adds the content paused with a 512000 B/s download limit and no upload
      limit, announces 42 and ends Idle. */
  lemma ReplacementScenario(content: seq<Byte>)
    ensures
      var config := AppConfig("magnet:x", "/tmp/mods", false, None, Some(500));
      var run := Run(config, Some(7), content, Ok(()), Ok(AddResponse(Some(42))));
      && run.result == Ok(Some(42))
      && EngineCalls(run.steps) ==
           [Forget(7), Add(FromBytes(content), AddTorrentOptions(Some("/tmp/mods"), true, true, LimitsConfig(Some(512000), None)))]
      && Events(Emitted(run.steps)) == [TorrentAdded(42)]
      && Statuses(Emitted(run.steps)) == [UpdatingTorrent, UpdatingTorrent, Idle]
  {
    var config := AppConfig("magnet:x", "/tmp/mods", false, None, Some(500));
    InRangeSettingIsExact(500);
    EngineCallsOfRun(config, Some(7), content, Ok(()), Ok(AddResponse(Some(42))));
    EventsOfRun(config, Some(7), content, Ok(()), Ok(AddResponse(Some(42))));
    StatusesOfRun(config, Some(7), content, Ok(()), Ok(AddResponse(Some(42))));
  }

  /** No download path and no previous torrent: nothing is asked of the
      engine, one Error event and the Error status are sent, and Ok(None) is
      returned, whatever the rest of the configuration says. */
  lemma UnconfiguredScenario(
    config: AppConfig, content: seq<Byte>,
    forgetOutcome: Result<(), EngineError>, addOutcome: Result<AddResponse, EngineError>)
    requires SpeedsFit(config) && config.downloadPath == ""
    ensures
      var run := Run(config, None, content, forgetOutcome, addOutcome);
      && run.result == Ok(None)
      && EngineCalls(run.steps) == []
      && Events(Emitted(run.steps)) == [SyncEvent.Error(Text(PATH_NOT_CONFIGURED))]
      && Statuses(Emitted(run.steps)) == [SyncStatus.Error(PATH_NOT_CONFIGURED)]
  {
    EngineCallsOfRun(config, None, content, forgetOutcome, addOutcome);
    EventsOfRun(config, None, content, forgetOutcome, addOutcome);
    StatusesOfRun(config, None, content, forgetOutcome, addOutcome);
  }
}
