/** manage_torrent_task: retire the previous torrent, guard on the download
    path, register the new torrent with options built from the configuration,
    and report each phase on the UI channel.

    The engine and the UI channel both report what happens to them to one
    History, so that the order of sends relative to engine calls is observable. */
module TorrentTask {
  import opened SyncTypes
  import opened Messages
  import opened RateLimits

  const PATH_NOT_CONFIGURED: string := "Download path not configured"
  const NO_ID_RETURNED: string := "Torrent added but API returned no ID"
  const ADD_FAILED_CONTEXT: string := "Failed to add torrent via librqbit API"

  /** The request built by `AddTorrent::from_bytes`. */
  datatype AddTorrent = FromBytes(bytes: seq<Byte>)

  /** The fields of `AddTorrentOptions` the orchestrator sets; the others keep
      the engine's defaults, which are not part of this model. */
  datatype AddTorrentOptions = AddTorrentOptions(
    outputFolder: Option<string>,
    overwrite: bool,
    paused: bool,
    ratelimits: LimitsConfig)

  /** A call made on the engine. */
  datatype EngineCall =
    | Forget(id: nat)
    | Add(request: AddTorrent, options: AddTorrentOptions)

  /** One observable step: an item sent on the UI channel, or an engine call. */
  datatype Step =
    | Emit(item: UiItem)
    | Call(call: EngineCall)

  /** The steps an invocation takes, and what it returns. */
  datatype Transcript = Transcript(steps: seq<Step>, result: Result<Option<nat>, TaskError>)

  /** Neither speed setting overflows when scaled to bytes. */
  predicate SpeedsFit(config: AppConfig) {
    SettingFits(config.maxDownloadSpeed) && SettingFits(config.maxUploadSpeed)
  }

  /** The add options manage_torrent_task builds from a configuration. */
  function BuildOptions(config: AppConfig): AddTorrentOptions
    requires SpeedsFit(config)
  {
    AddTorrentOptions(
      Some(config.downloadPath),
      true,
      !config.shouldSeed,
      BuildLimits(config.maxDownloadSpeed, config.maxUploadSpeed))
  }

  /** The retire phase: nothing without a previous id; otherwise the
      UpdatingTorrent status, the forget call, and an Error event if it failed. */
  function RetirePhase(previous: Option<nat>, forgetOutcome: Result<(), EngineError>): seq<Step> {
    match previous
    case None => []
    case Some(id) =>
      [Emit(Status(UpdatingTorrent)), Call(Forget(id))] +
      (if forgetOutcome.Err? then [Emit(Event(SyncEvent.Error(ForgetFailed(id, forgetOutcome.error))))] else [])
  }

  /** The path guard (an Error event and an Error status when the path is
      empty), otherwise the UpdatingTorrent status and the add call. */
  function RegisterPhase(config: AppConfig, content: seq<Byte>): seq<Step>
    requires SpeedsFit(config)
  {
    if |config.downloadPath| == 0 then
      [Emit(Event(SyncEvent.Error(Text(PATH_NOT_CONFIGURED)))), Emit(Status(SyncStatus.Error(PATH_NOT_CONFIGURED)))]
    else
      [Emit(Status(UpdatingTorrent)), Call(Add(FromBytes(content), BuildOptions(config)))]
  }

  /** What is reported once the engine has answered the add call: nothing for
      an error, TorrentAdded and Idle for a new id, an Error event and status
      for a missing id. Nothing at all when add was never called. */
  function ResponsePhase(config: AppConfig, addOutcome: Result<AddResponse, EngineError>): seq<Step> {
    if |config.downloadPath| == 0 then []
    else
      match addOutcome
      case Err(_) => []
      case Ok(response) =>
        match response.id
        case Some(id) => [Emit(Event(TorrentAdded(id))), Emit(Status(Idle))]
        case None => [Emit(Event(SyncEvent.Error(Text(NO_ID_RETURNED)))), Emit(Status(SyncStatus.Error(NO_ID_RETURNED)))]
  }

  /** The value returned: Ok(None) for an empty path, the add error with its
      context, or the id the engine returned. */
  function TaskResult(config: AppConfig, addOutcome: Result<AddResponse, EngineError>): Result<Option<nat>, TaskError> {
    if |config.downloadPath| == 0 then Ok(None)
    else
      match addOutcome
      case Err(e) => Err(TaskError(ADD_FAILED_CONTEXT, e))
      case Ok(response) => Ok(response.id)
  }

  /** The whole invocation as a value, once the engine's two outcomes are fixed. */
  function Run(
    config: AppConfig,
    previous: Option<nat>,
    content: seq<Byte>,
    forgetOutcome: Result<(), EngineError>,
    addOutcome: Result<AddResponse, EngineError>): Transcript
    requires SpeedsFit(config)
  {
    Transcript(
      RetirePhase(previous, forgetOutcome) + RegisterPhase(config, content) + ResponsePhase(config, addOutcome),
      TaskResult(config, addOutcome))
  }

  /** The items sent on the UI channel, in order. */
  function Emitted(steps: seq<Step>): seq<UiItem>
  {
    if |steps| == 0 then []
    else (if steps[0].Emit? then [steps[0].item] else []) + Emitted(steps[1..])
  }

  /** The calls made on the engine, in order. */
  function EngineCalls(steps: seq<Step>): seq<EngineCall>
  {
    if |steps| == 0 then []
    else (if steps[0].Call? then [steps[0].call] else []) + EngineCalls(steps[1..])
  }

  /** The record of everything the engine and the UI channel were asked to do. */
  class History {
    var steps: seq<Step>

    constructor ()
      ensures steps == []
    {
      steps := [];
    }
  }

  /** The transfer engine as a capability whose answers are fixed in advance. */
  class Api {
    const forgetOutcome: Result<(), EngineError>
    const addOutcome: Result<AddResponse, EngineError>
    const history: History

    constructor (forgetOutcome: Result<(), EngineError>, addOutcome: Result<AddResponse, EngineError>, history: History)
      ensures this.forgetOutcome == forgetOutcome && this.addOutcome == addOutcome && this.history == history
    {
      this.forgetOutcome := forgetOutcome;
      this.addOutcome := addOutcome;
      this.history := history;
    }

    /** `api_torrent_action_forget`. */
    method ForgetTorrent(id: nat) returns (r: Result<(), EngineError>)
      modifies history
      ensures history.steps == old(history.steps) + [Call(EngineCall.Forget(id))]
      ensures r == forgetOutcome
    {
      history.steps := history.steps + [Call(EngineCall.Forget(id))];
      r := forgetOutcome;
    }

    /** `api_add_torrent`. */
    method AddNewTorrent(request: AddTorrent, options: AddTorrentOptions) returns (r: Result<AddResponse, EngineError>)
      modifies history
      ensures history.steps == old(history.steps) + [Call(Add(request, options))]
      ensures r == addOutcome
    {
      history.steps := history.steps + [Call(Add(request, options))];
      r := addOutcome;
    }
  }

  /** The sending half of the UI channel. Sends always succeed here: the
      orchestrator discards their results. */
  class UiSender {
    const history: History

    constructor (history: History)
      ensures this.history == history
    {
      this.history := history;
    }

    method Send(event: SyncEvent)
      modifies history
      ensures history.steps == old(history.steps) + [Emit(Event(event))]
    {
      history.steps := history.steps + [Emit(Event(event))];
    }
  }

  /** `send_sync_status_event`: sends one status update. */
  method SendSyncStatusEvent(uiTx: UiSender, status: SyncStatus)
    modifies uiTx.history
    ensures uiTx.history.steps == old(uiTx.history.steps) + [Emit(Status(status))]
  {
    uiTx.history.steps := uiTx.history.steps + [Emit(Status(status))];
  }

  /** The orchestrator itself. It appends to the shared history exactly the
      steps of Run for the engine's outcomes, and returns Run's result. */
  method ManageTorrentTask(
    config: AppConfig,
    api: Api,
    uiTx: UiSender,
    currentIdToForget: Option<nat>,
    torrentContent: seq<Byte>)
    returns (r: Result<Option<nat>, TaskError>)
    requires SpeedsFit(config)
    requires api.history == uiTx.history
    modifies api.history
    ensures api.history.steps ==
      old(api.history.steps) + Run(config, currentIdToForget, torrentContent, api.forgetOutcome, api.addOutcome).steps
    ensures r == Run(config, currentIdToForget, torrentContent, api.forgetOutcome, api.addOutcome).result
  {
    ghost var start := api.history.steps;
    ghost var retire := RetirePhase(currentIdToForget, api.forgetOutcome);
    ghost var register := RegisterPhase(config, torrentContent);
    ghost var respond := ResponsePhase(config, api.addOutcome);
    Associative(start + retire, register, respond);
    Associative(start, retire, register + respond);
    Associative(retire, register, respond);

    // 1. Retire the previous torrent, swallowing a failure.
    RetirePrevious(api, uiTx, currentIdToForget);

    // 2. Guard on the download path.
    if |config.downloadPath| == 0 {
      var errMsg := PATH_NOT_CONFIGURED;
      uiTx.Send(SyncEvent.Error(Text(errMsg)));
      SendSyncStatusEvent(uiTx, SyncStatus.Error(errMsg));
      r := Ok(None);
      assert api.history.steps == start + retire + register + [];
      return;
    }

    SendSyncStatusEvent(uiTx, UpdatingTorrent);
    var addRequest := FromBytes(torrentContent);
    var ratelimits := BuildLimits(config.maxDownloadSpeed, config.maxUploadSpeed);
    var options := AddTorrentOptions(Some(config.downloadPath), true, !config.shouldSeed, ratelimits);
    assert options == BuildOptions(config);

    // 3. Register the new torrent; only this call's error is propagated.
    var added := api.AddNewTorrent(addRequest, options);
    assert api.history.steps == start + retire + register;
    if added.Err? {
      r := Err(TaskError(ADD_FAILED_CONTEXT, added.error));
      assert api.history.steps == start + retire + register + [];
      return;
    }
    r := ReportAddResponse(config, uiTx, added.value);
  }

  /** The retire phase: the UpdatingTorrent status and the forget call when
      there is a previous id, and an Error event if forget failed. */
  method RetirePrevious(api: Api, uiTx: UiSender, currentIdToForget: Option<nat>)
    requires api.history == uiTx.history
    modifies api.history
    ensures api.history.steps == old(api.history.steps) + RetirePhase(currentIdToForget, api.forgetOutcome)
  {
    if currentIdToForget.Some? {
      var idToForget := currentIdToForget.value;
      SendSyncStatusEvent(uiTx, UpdatingTorrent);
      var forgotten := api.ForgetTorrent(idToForget);
      if forgotten.Err? {
        uiTx.Send(SyncEvent.Error(ForgetFailed(idToForget, forgotten.error)));
      }
    }
  }

  /** The report of a successful add: TorrentAdded and Idle for a new id, an
      Error event and status when the engine gave none. */
  method ReportAddResponse(config: AppConfig, uiTx: UiSender, response: AddResponse)
    returns (r: Result<Option<nat>, TaskError>)
    requires |config.downloadPath| > 0
    modifies uiTx.history
    ensures uiTx.history.steps == old(uiTx.history.steps) + ResponsePhase(config, Ok(response))
    ensures r == TaskResult(config, Ok(response))
  {
    if response.id.Some? {
      var id := response.id.value;
      uiTx.Send(TorrentAdded(id));
      SendSyncStatusEvent(uiTx, Idle);
      r := Ok(Some(id));
    } else {
      var errMsg := NO_ID_RETURNED;
      uiTx.Send(SyncEvent.Error(Text(errMsg)));
      SendSyncStatusEvent(uiTx, SyncStatus.Error(errMsg));
      r := Ok(None);
    }
  }

}
