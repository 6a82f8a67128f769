# Torrent task orchestrator, modelled in Dafny

This project models `manage_torrent_task` from `src/sync/torrent.rs`. That
function swaps the torrent a mod-sync client is tracking for a new one. One
invocation does, in order:

1. It retires the previous torrent, if there is an id for it. It sends the
   `UpdatingTorrent` status and asks the engine to forget the id. A failure
   is reported as an `Error` event and otherwise ignored.
2. It guards on the download path. An empty path sends an `Error` event and
   the `Error("Download path not configured")` status, and returns
   `Ok(None)`.
3. It sends `UpdatingTorrent` and builds the add options:
   - `output_folder` is the download path;
   - `overwrite` is on;
   - `paused` is `!should_seed`;
   - each direction's rate limit is `NonZeroU32::new((s * 1024) as u32)`
     of its KB/s setting.
4. It asks the engine to add the torrent. Only this call's error is
   propagated, with the context "Failed to add torrent via librqbit API".
5. It reports the engine's answer:
   - with an id: `TorrentAdded(id)`, then `Idle`, and it returns
     `Ok(Some(id))`;
   - without an id: an `Error` event and an `Error` status, and it returns
     `Ok(None)`.

The engine and the UI channel are modelled as objects that append what
happens to them to one shared `History`. So the order of sends relative to
engine calls is part of what is proved.

The engine's two answers are fixed when the `Api` object is built; they are
its `forgetOutcome` and `addOutcome`. With those fixed, the whole invocation
is a value, `TorrentTask.Run`. The method `TorrentTask.ManageTorrentTask` is
written step by step like the Rust body. It is proved to append exactly
`Run`'s steps to the history and to return `Run`'s result. The properties of
the orchestrator are lemmas about `Run` and about these projections of its
steps:

- the engine calls (`EngineCalls`);
- the items sent on the channel (`Emitted`);
- among the items, the statuses (`Statuses`) and the events (`Events`).

Modules:

- `SyncTypes`: configuration, statuses, engine errors and responses.
- `Decimal`: rendering of ids as `{}` formats them, with its inverse.
- `Messages`: UI events and items, and the text of the error messages.
- `RateLimits`: the KB/s to B/s translation.
- `TorrentTask`: the engine, the channel, the reference run and the method.
- `TorrentTaskProperties`: what the orchestrator promises.

## Model

| member | source | states |
|---|---|---|
| RateLimits.TruncateToU32 | src/sync/torrent.rs:81 | `as u32` keeps the unique value below 2^32 congruent to the input modulo 2^32, and leaves a value that fits unchanged |
| RateLimits.TruncatedBytes | src/sync/torrent.rs:81 | the truncated byte value of a setting s is 1024 * (s mod 2^22) |
| RateLimits.WholeWrapsVanish | src/sync/torrent.rs:81 | adding whole multiples of 2^32 to a value below 2^32 does not change what `as u32` keeps |
| RateLimits.TranslateLimitValue | src/sync/torrent.rs:80-87 | an absent setting gives no limit; a setting gives no limit exactly when s is a multiple of 2^22, and otherwise the limit 1024 * (s mod 2^22) B/s, which is never 0 |
| RateLimits.InRangeSettingIsExact | src/sync/torrent.rs:80-83 | a positive setting whose byte value fits in 32 bits becomes exactly s * 1024 B/s |
| RateLimits.ZeroSettingIsUnlimited | src/sync/torrent.rs:81-82 | a setting of 0 KB/s imposes no limit |
| RateLimits.OverflowWrapsToSmallLimit | src/sync/torrent.rs:81-82 | 4194305 KB/s overflows 32 bits and wraps to a limit of 1024 B/s instead of becoming unlimited |
| RateLimits.WrapToZeroIsUnlimited | src/sync/torrent.rs:81-82 | every positive multiple of 2^22 KB/s overflows and yields no limit |
| RateLimits.LimitsAreIndependent | src/sync/torrent.rs:78-88 | each direction's limit depends on that direction's setting only |
| Decimal.DigitsWellFormed | src/sync/torrent.rs:51 | an id renders as a non-empty string of digits without a leading zero |
| Decimal.ValueOfDigits | src/sync/torrent.rs:51 | reading the rendered id back gives the id |
| Decimal.DigitsInjective | src/sync/torrent.rs:51 | different ids render differently |
| Messages.SplitAtSeparator | src/sync/torrent.rs:51 | a digit string followed by ": " and a message splits in one place only |
| Messages.ForgetFailedTextDeterminesParts | src/sync/torrent.rs:51 | two forget-failure texts are equal only for the same id and the same engine error |
| TorrentTask.Api.ForgetTorrent | src/sync/torrent.rs:39-42 | the forget call is recorded for that id and answered with the engine's forget outcome |
| TorrentTask.Api.AddNewTorrent | src/sync/torrent.rs:105-107 | the add call is recorded with its request and options and answered with the engine's add outcome |
| TorrentTask.UiSender.Send | src/sync/torrent.rs:51 | a send appends exactly that event to the history |
| TorrentTask.SendSyncStatusEvent | src/sync/torrent.rs:37 | a status update appends exactly that status to the history |
| TorrentTask.RetirePrevious | src/sync/torrent.rs:35-54 | appends the retire phase: nothing without a previous id; otherwise the status, the forget call and, on failure, one Error event |
| TorrentTask.ReportAddResponse | src/sync/torrent.rs:110-125 | after a successful add, appends TorrentAdded(id) and Idle for an id, or an Error event and status without one, and returns the matching result |
| TorrentTask.ManageTorrentTask | src/sync/torrent.rs:20-126 | appends exactly the steps of the reference run to the shared history and returns its result |
| TorrentTaskProperties.EngineCallsOfRun | src/sync/torrent.rs:35-108 | the engine sees forget(previous) only if there is a previous id, then add(content, options) only if the path is set, and nothing else; a failed forget does not prevent add |
| TorrentTaskProperties.StatusPrecedesForget | src/sync/torrent.rs:35-42 | with a previous id, the first step is the UpdatingTorrent status and the second the forget call for that id |
| TorrentTaskProperties.ForgetFailureIsSwallowed | src/sync/torrent.rs:43-53 | a failing forget inserts one Error event carrying the id and error right after the forget call, and changes nothing else, the result included |
| TorrentTaskProperties.ForgetFailureOnlyAddsItsEvent | src/sync/torrent.rs:43-53 | a failing forget leaves the engine calls unchanged and puts exactly its Error event in front of the other events |
| TorrentTaskProperties.EmptyPathReturnsNone | src/sync/torrent.rs:63-70 | an empty path returns Ok(None), never calls add, runs the full retire phase first, and ends with an Error event then the status Error("Download path not configured") |
| TorrentTaskProperties.AddOptionsFromConfig | src/sync/torrent.rs:75-96 | with a path, the last engine call is add with the content, output folder = path, overwrite on, paused iff not seeding, and each limit translated from its own setting |
| TorrentTaskProperties.AddFailurePropagates | src/sync/torrent.rs:105-108 | a failing add returns Err with the context and the engine's error, and the add call is the last step: no event or status follows it |
| TorrentTaskProperties.AddedIdIsReported | src/sync/torrent.rs:110-117 | a returned id gives Ok(Some(id)), and the run ends with the add call, TorrentAdded(id), Idle |
| TorrentTaskProperties.MissingIdIsReported | src/sync/torrent.rs:118-125 | a missing id gives Ok(None), and the run ends with the add call, an Error event and the Error status "Torrent added but API returned no ID" |
| TorrentTaskProperties.ResultCases | src/sync/torrent.rs:63-125 | the result is Err iff the path is set and add failed; Ok(None) iff the path is empty or add gave no id; otherwise the id add gave; the forget outcome never changes it |
| TorrentTaskProperties.StatusesOfRun | src/sync/torrent.rs:37-123 | the exact list of statuses sent, for every combination of previous id, path and engine answers |
| TorrentTaskProperties.StatusesFollowStateMachine | src/sync/torrent.rs:37-123 | every status but the last is UpdatingTorrent; the last is Idle or Error exactly when the result is Ok; anything done starts with UpdatingTorrent |
| TorrentTaskProperties.EventsOfRun | src/sync/torrent.rs:51-122 | the exact list of events sent: the forget failure if any, then the path error, or the event for add's answer (none for an add error) |
| TorrentTaskProperties.ErrorEventsOfRun | src/sync/torrent.rs:51-122 | the number of Error events is one for a failed forget plus one for an Ok(None) result |
| TorrentTaskProperties.TorrentAddedOnlyForNewId | src/sync/torrent.rs:110-117 | TorrentAdded is sent only as the last event and only for the returned id, and a returned id is always announced |
| TorrentTaskProperties.ReplacementScenario | src/sync/torrent.rs:20-126 | replacing id 7 with one registered as 42, with path /tmp/mods, no seeding and 500 KB/s down: forget(7), then add paused with a 512000 B/s download limit; events [TorrentAdded(42)]; statuses Updating, Updating, Idle; result Ok(Some(42)) |
| TorrentTaskProperties.UnconfiguredScenario | src/sync/torrent.rs:63-70 | an empty path and no previous id: no engine call, one Error event, the Error status, Ok(None) |

## Left out

- `send_sync_status_event` is imported from `src/sync/utils.rs`, which is not part of this model. It is modelled as appending one status item to the outward channel.
- The async runtime is not modelled: no suspension at `.await`, no cancellation, no overlapping invocations. Sends on the tokio unbounded channel always succeed, since the code discards their results. Receiver liveness is not modelled.
- The `println!` and `eprintln!` logging is not modelled.
- The engine (librqbit) is represented only by its answers. This covers `AddTorrent::from_bytes`, `api_torrent_action_forget` and `api_add_torrent`. The `..Default::default()` option fields are not modelled.
- `to_string_lossy` is not modelled; the download path is a string.
- The configuration struct is not part of this model, so the width of the speed settings is unknown. They are taken to be 64-bit unsigned. `SpeedsFit` requires that `s * 1024` does not overflow them. An overflow there would panic or wrap before the `as u32` cast.
- TorrentTask.ManageTorrentTask: does not model the panic or wrap of `s * 1024` in the setting's own type, because that width is unknown (see `SpeedsFit`).
- Event messages are kept structured (`Messages.ErrorMessage`): a literal text, or the id and engine error of a forget failure. `MessageText` renders them exactly as `format!` does. The engine error enters only through its display text.
- The id is a `nat`; `usize` bounds are not modelled.
- Statuses are modelled as their own kind of channel item. In the source, `send_sync_status_event` sends them on the same `SyncEvent` channel; their encoding there is in the file not modelled.
- The configuration panel (`src/ui/config_panel.rs`) is UI rendering and is not modelled.

Behaviour of the code a reader might not expect:

- An overflowing speed setting is not turned into "no limit". `(s * 1024) as u32` wraps around. Only byte values that are a multiple of 2^32 give no limit; other overflowing settings give a small limit (`RateLimits.OverflowWrapsToSmallLimit`, `RateLimits.TranslateLimitValue`).
- An empty path does not always give exactly one Error event. When a previous id is given and forget fails, two Error events are sent (`TorrentTaskProperties.ErrorEventsOfRun`).
- After a failed add, no `Idle` status follows, but no resting status follows either. The last status sent stays `UpdatingTorrent` (`TorrentTaskProperties.StatusesFollowStateMachine`).
- The path error text is the code's literal, "Download path not configured".
