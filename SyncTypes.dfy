/** Values exchanged by the torrent orchestrator: the configuration it reads,
    the events and statuses it sends to the UI, and the outcomes the transfer
    engine reports back. */
module SyncTypes {

  datatype Option<+T> = None | Some(value: T)

  datatype Result<+T, +E> = Ok(value: T) | Err(error: E)

  /** An octet of the serialized torrent metafile. */
  type Byte = x: int | 0 <= x < 256

  /** The orchestrator's current state as shown to the UI (crate::ui::utils::SyncStatus).
      UpdatingTorrent is the only transitional state; Idle and Error are resting states. */
  datatype SyncStatus =
    | Idle
    | UpdatingTorrent
    | Error(message: string)

  predicate IsResting(s: SyncStatus) {
    s.Idle? || s.Error?
  }

  /** The part of the application configuration the orchestrator reads.
      An empty download path means "not configured". Speeds are in KB/s. */
  datatype AppConfig = AppConfig(
    torrentUrl: string,
    downloadPath: string,
    shouldSeed: bool,
    maxUploadSpeed: Option<nat>,
    maxDownloadSpeed: Option<nat>)

  /** An error reported by the transfer engine, reduced to its display text. */
  datatype EngineError = EngineError(message: string)

  /** The engine's answer to a successful add: the new torrent id, if it gave one. */
  datatype AddResponse = AddResponse(id: Option<nat>)

  /** The error manage_torrent_task propagates: the engine's error with the
      context attached by `.context(...)`. */
  datatype TaskError = TaskError(context: string, cause: EngineError)

  lemma Associative<T>(a: seq<T>, b: seq<T>, c: seq<T>)
    ensures a + b + c == a + (b + c)
  {
  }
}
