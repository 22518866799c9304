# FileTwin session logic in Dafny

FileTwin pairs two Macs on the local network. One device shares itself: it advertises an mDNS
service and accepts one websocket connection. The other device finds it by browsing and
connects to it. Connected devices exchange clipboard text, files, screenshots and a
"bring to front" request.

This project models the two pieces of sequential logic that drive a session.

1. **The native session state** (`src-tauri/src/sync.rs`), in these modules:
   - `PeerNames`: the short name shown for a resolved service.
   - `Browse`: the browse thread's peer registry.
   - `ConnectRetry`: the bounded connect retry loop.
   - `Dispatch`: what each reader loop emits for an incoming message.
   - `SyncSession`: the shared `SyncState` slots with the HOSTING and BROWSING flags. The
     class is changed in place by the commands (`start_host`, `stop_host`, `start_browse`,
     `stop_browse`, `connect_to`, `disconnect`, the four sends) and by the tasks those
     commands spawn. The spawned tasks are the accept task, the two reader loops and the
     browse thread.
2. **The front-end state machine** (`App` in `src/App.tsx`), in the module `Frontend`:
   - The class `App` has one field per piece of React state, plus the success-banner
     timeout ref.
   - Each pushed event is a method.
   - Each user action is a method whose precondition is the button gating of the rendered
     view.
   - Each awaited command whose result changes state is split into a method that invokes it
     and one method per way it can settle, so any interleaving with events can be expressed.
     The commands whose result changes nothing (`send_clipboard`, `send_bring_to_front` and
     the plain "Save" of a received file) are only invoked.
   - Calls into plugins and commands go to a ghost effect log. A ghost multiset holds the
     commands still awaited. A ghost set holds the pending timeouts.

Sockets, dialogs and the mDNS library are replaced by inputs:
- the service events the browse thread receives;
- the outcome of each connect attempt;
- the frames a reader receives;
- whether a setup step fails, and with what message;
- whether a writer task still accepts messages.

The invariants proved:
- `App.Valid`:
  - `connecting` holds exactly while `connectingToPeer` is set;
  - the banner shows exactly while the ref holds a timeout;
  - that timeout is the only pending one.
- `SyncState.Valid`: a set sender slot names a connection already made whose own reader loop
  still runs. Live readers are tracked as the set of connection ids on each side.

`FrontendScenarios` and `SyncFindings` are client runs from a fresh state.

## Model

| member | source | states |
|---|---|---|
| `PeerNames.UpToDot` | src-tauri/src/sync.rs:228 | the result is a prefix of the input without a dot, followed in the input by a dot or the end |
| `PeerNames.ShortName` | src-tauri/src/sync.rs:226-230 | a prefixed name gives the text after "RemoteSync-" up to the first dot; any other name is returned whole |
| `PeerNames.UpToDotOfDotted` | src-tauri/src/sync.rs:228 | appending a dot and a suffix does not change the part before the first dot |
| `PeerNames.ShortNameOfAdvertised` | src-tauri/src/sync.rs:110 | the name a browser shows for an advertised host is the host name up to its first dot, so the host name itself when it has no dot |
| `SyncSession.Advertised` | src-tauri/src/sync.rs:107-121 | the registered instance is "RemoteSync-" plus the host name, on port 18765 |
| `SyncSession.AdvertisedShortName` | src-tauri/src/sync.rs:110-121 | a browsing device shows the service that `start_host` registers under the advertiser's host name up to its first dot |
| `Browse.Apply` | src-tauri/src/sync.rs:221-245 | a resolved event inserts or overwrites its full name's entry; a removed event deletes that key; no other key changes |
| `Browse.ValuesList` | src-tauri/src/sync.rs:236 | the list holds the map's values, one per key, as many as the map has keys |
| `Browse.BrowseLoop` | src-tauri/src/sync.rs:218-247 | the registry is the fold of the events; one list is emitted per resolved or removed event; each list holds exactly the registry's values at that point |
| `Browse.RegistryIsLastResolution` | src-tauri/src/sync.rs:231-240 | a key is registered iff the last event naming it was a resolution; it then maps to that resolution's peer |
| `Browse.RegistryNamesByKey` | src-tauri/src/sync.rs:226-235 | every registered peer is named by the short name of its key |
| `ConnectRetry.ConnectWithRetry` | src-tauri/src/sync.rs:268-297 | succeeds iff one of the first three attempts opens; on success, the number of the first attempt that opened; on failure, "Failed after 3 attempts. " and the last attempt's error (the timeout message for a timeout); a pause after every attempt but the last one made |
| `Dispatch.ClientDispatch` | src-tauri/src/sync.rs:332-337 | Hello is dropped; every other message becomes the event that forwards it unchanged |
| `Dispatch.HostDispatch` | src-tauri/src/sync.rs:150-161 | Hello{name} sets peer_name to name and emits connected(name); other messages leave peer_name and are handled as on the client side |
| `SyncSession.Route` | src-tauri/src/sync.rs:361-376 | host_tx when present, else client_tx, else the error "Not connected" |
| `SyncSession.SyncState.constructor` | src-tauri/src/sync.rs:23-34 | every slot empty, both flags clear, no task running |
| `SyncSession.SyncState.StartHost` | src-tauri/src/sync.rs:91-126 | "Already hosting" when the flag was set; otherwise the flag is set, and a setup error is returned with nothing else changed; on success the daemon and service info are stored and one accept task spawned |
| `SyncSession.SyncState.StartHostReleasingFlag` | src-tauri/src/sync.rs:91-126 | as `StartHost`, except that a setup error clears the flag again; keeps "a live host task backs HOSTING" |
| `SyncSession.SyncState.HostAccepted` | src-tauri/src/sync.rs:130-138 | host_tx names the new connection; the accept task becomes that connection's reader loop |
| `SyncSession.SyncState.HostAcceptFailed` | src-tauri/src/sync.rs:129-174 | a failed accept or handshake ends the task and clears HOSTING |
| `SyncSession.SyncState.HostReceive` | src-tauri/src/sync.rs:147-164 | a parsed frame applies `HostDispatch`: peer_name set on Hello, its event emitted; an unparsed frame changes nothing |
| `SyncSession.SyncState.HostReaderEnded` | src-tauri/src/sync.rs:166-173 | the reader of one connection ends; host_tx and peer_name are cleared, then "disconnected" is emitted, and HOSTING is cleared |
| `SyncSession.SyncState.StopHost` | src-tauri/src/sync.rs:179-187 | HOSTING, host_tx, the daemon and the service info are cleared |
| `SyncSession.SyncState.StartBrowse` | src-tauri/src/sync.rs:189-203 | Ok and no effect when already browsing; otherwise the flag is set, and a setup error is returned with nothing else changed; on success the daemon and receiver are stored and the browse thread spawned |
| `SyncSession.SyncState.StartBrowseReleasingFlag` | src-tauri/src/sync.rs:189-200 | as `StartBrowse`, except that a setup error clears the flag again; keeps "BROWSING is backed by a receiver" |
| `SyncSession.SyncState.BrowseThread` | src-tauri/src/sync.rs:203-249 | with no receiver the thread stops at once; otherwise it emits one peers event per registry snapshot, each listing exactly that snapshot's values |
| `SyncSession.SyncState.StopBrowse` | src-tauri/src/sync.rs:254-262 | BROWSING, the receiver and the daemon are cleared |
| `SyncSession.SyncState.ConnectTo` | src-tauri/src/sync.rs:264-348 | a retry failure or a Hello write error is returned with nothing changed; success sends Hello on the new connection, stores it as client_tx, sets peer_name to the dialed host, emits connected(host) and starts the client reader |
| `SyncSession.SyncState.ClientReceive` | src-tauri/src/sync.rs:329-340 | a parsed non-Hello frame emits its event; anything else emits nothing |
| `SyncSession.SyncState.ClientReaderEnded` | src-tauri/src/sync.rs:341-345 | the reader of one connection ends; client_tx and peer_name are cleared, then "disconnected" is emitted |
| `SyncSession.SyncState.Disconnect` | src-tauri/src/sync.rs:351-359 | host_tx, client_tx and peer_name are cleared; "disconnected" is always emitted; every later send routes to "Not connected" |
| `SyncSession.SyncState.Send` | src-tauri/src/sync.rs:364-375 | the routed sender gets the message; "Not connected" without a sender; "Send failed" when its writer is gone |
| `SyncSession.SyncState.SendClipboard` | src-tauri/src/sync.rs:361-376 | Clipboard{text} through host_tx, else client_tx, else "Not connected"; "Send failed" when the writer is gone |
| `SyncSession.SyncState.SendBringToFront` | src-tauri/src/sync.rs:378-393 | BringToFront with the same routing and errors |
| `SyncSession.SyncState.PickAndSendFile` | src-tauri/src/sync.rs:395-429 | a cancelled dialog is Ok with nothing sent; a non-path selection is "Invalid path"; a read error is returned; a read file is sent as File under its name, or "file" without one, with the same routing |
| `SyncSession.SyncState.SendFileBytes` | src-tauri/src/sync.rs:454-474 | File{name, data} with the same routing and errors |
| `SyncFindings.HostRetryAfterSetupFailure` | src-tauri/src/sync.rs:92-121 | after a failed setup, a retry is refused with "Already hosting" while nothing is advertised and no host task is left to clear the flag |
| `SyncFindings.HostRetryAfterSetupFailureFixed` | src-tauri/src/sync.rs:92-121 | with the flag released, the retry succeeds and advertises the service |
| `SyncFindings.BrowseRetryAfterSetupFailure` | src-tauri/src/sync.rs:190-200 | after a failed setup, a retry reports Ok with no receiver stored |
| `SyncFindings.BrowseRetryAfterSetupFailureFixed` | src-tauri/src/sync.rs:190-200 | with the flag released, the retry stores the receiver |
| `Frontend.App.constructor` | src/App.tsx:18-35 | the initial state (idle, sync on, nothing pending) and the `get_host_name` invocation at mount |
| `Frontend.App.AtMostOneTimerPending` | src/App.tsx:40-49 | under the invariant, at most one success timeout is pending |
| `Frontend.App.HostNameLoaded` | src/App.tsx:34 | the host name is the command's result |
| `Frontend.App.HostNameFailed` | src/App.tsx:34 | the host name is "This Mac" |
| `Frontend.App.OnPeers` | src/App.tsx:38 | the peer list is replaced wholesale |
| `Frontend.App.OnConnected` | src/App.tsx:39-50 | from any state: connected to the payload name, no attempt in progress, banner shown; the old timeout cleared and a new one armed as the only pending one; the connection error is kept |
| `Frontend.App.RearmSuccessTimer` | src/App.tsx:40-49 | the ref's timeout is cleared and a fresh one armed into the ref; it is then the only pending timeout |
| `Frontend.App.TimerFired` | src/App.tsx:46-49 | only the timeout in the ref can fire; the banner is hidden and the ref emptied |
| `Frontend.App.OnDisconnected` | src/App.tsx:51-56 | from any state: idle, no peer, no attempt in progress |
| `Frontend.App.OnRemoteClipboard` | src/App.tsx:57-62 | shown and written locally only while sync is on and the text is non-empty; otherwise nothing changes |
| `Frontend.App.OnRemoteFile` | src/App.tsx:63-65 | exactly one entry is appended and the earlier ones are kept |
| `Frontend.App.OnBringToFront` | src/App.tsx:66-68 | the window is asked to take focus; no field changes |
| `Frontend.App.StartHostingBegin` | src/App.tsx:79-81 | offered while idle; invokes `start_host` |
| `Frontend.App.StartHostingSucceeded` | src/App.tsx:82 | status becomes hosting |
| `Frontend.App.StartHostingFailed` | src/App.tsx:83-85 | no field changes |
| `Frontend.App.StopHostingBegin` | src/App.tsx:88-90 | offered while hosting; invokes `stop_host` |
| `Frontend.App.StopHostingSucceeded` | src/App.tsx:91 | status becomes idle |
| `Frontend.App.StopHostingFailed` | src/App.tsx:92-94 | no field changes |
| `Frontend.App.StartBrowsingBegin` | src/App.tsx:97-99 | offered while idle; invokes `start_browse` |
| `Frontend.App.StartBrowsingSucceeded` | src/App.tsx:100 | status becomes browsing; peers and error are kept |
| `Frontend.App.StartBrowsingFailed` | src/App.tsx:101-103 | no field changes |
| `Frontend.App.StopBrowsingBegin` | src/App.tsx:106-108 | offered while browsing and not connecting; invokes `stop_browse` |
| `Frontend.App.StopBrowsingSucceeded` | src/App.tsx:109-111 | idle, no peers, no error |
| `Frontend.App.StopBrowsingFailed` | src/App.tsx:112-114 | no field changes |
| `Frontend.App.ConnectToBegin` | src/App.tsx:117-122 | offered for a listed peer while browsing and not connecting; clears the error and records the attempt before invoking `connect_to`; the status is unchanged |
| `Frontend.App.ConnectToSucceeded` | src/App.tsx:122 | no field changes |
| `Frontend.App.ConnectToFailed` | src/App.tsx:123-128 | the message becomes the error and the attempt ends; the status is unchanged |
| `Frontend.App.DisconnectBegin` | src/App.tsx:131-133 | offered while connected; invokes `disconnect` |
| `Frontend.App.DisconnectSucceeded` | src/App.tsx:134-135 | no peer, status idle |
| `Frontend.App.DisconnectFailed` | src/App.tsx:136-138 | no field changes |
| `Frontend.App.SendClipboardAction` | src/App.tsx:141-148 | non-empty local text is sent whatever the sync toggle says; empty or unreadable text sends nothing |
| `Frontend.App.PasteFromRemote` | src/App.tsx:150-152 | writes the last remote text locally when there is one |
| `Frontend.App.SetSyncClipboard` | src/App.tsx:291 | the toggle takes the checkbox's value |
| `Frontend.App.RequestOtherFocus` | src/App.tsx:154-160 | invokes `send_bring_to_front`; no field changes |
| `Frontend.App.PickAndSendFileBegin` | src/App.tsx:162-165 | marks a transfer and invokes `pick_and_send_file` |
| `Frontend.App.PickAndSendFileSettled` | src/App.tsx:166-170 | either way, the transfer mark is cleared |
| `Frontend.App.CaptureScreenshotBegin` | src/App.tsx:173-176 | marks a capture and invokes `capture_screenshot_and_send` |
| `Frontend.App.CaptureScreenshotSettled` | src/App.tsx:177-181 | either way, the capture mark is cleared |
| `Frontend.App.SaveReceivedFileAction` | src/App.tsx:184-190 | invokes `save_received_file` with the entry's name and data |
| `Frontend.App.OpenReceivedFileBegin` | src/App.tsx:345-347 | invokes `save_received_file` and awaits the path |
| `Frontend.App.OpenSaveSucceeded` | src/App.tsx:347-349 | the path, if non-empty, is opened; nothing else happens |
| `Frontend.App.OpenSaveFailed` | src/App.tsx:350-352 | nothing is opened; no field changes |
| `FrontendScenarios.BrowseAndConnect` | src/App.tsx:97-129 | browse, list, connect and "connected" end connected to that peer, with the banner and no attempt in progress |
| `FrontendScenarios.ConnectFails` | src/App.tsx:117-129 | a failed attempt stays in browsing with the same peers and shows the message |
| `FrontendScenarios.ErrorSurvivesConnected` | src/App.tsx:39-50 | a later "connected" keeps an earlier connection error |
| `FrontendScenarios.ReconnectRearmsTimer` | src/App.tsx:40-49 | two "connected" events arm two different timeouts; firing the second hides the banner and empties the ref |
| `FrontendScenarios.SyncOffIgnoresRemoteClipboard` | src/App.tsx:57-62 | with sync off, pushed text is not applied |
| `FrontendScenarios.SyncOnAppliesRemoteClipboard` | src/App.tsx:57-62 | with sync on, non-empty pushed text is applied |
| `FrontendScenarios.FilesInArrivalOrder` | src/App.tsx:63-65 | received files are listed in arrival order |
| `FrontendScenarios.HostResultAfterConnected` | src/App.tsx:79-86 | a pending `start_host` that succeeds after "connected" leaves the status at hosting with a connected peer recorded |

## Left out

- Network I/O and concurrency are replaced by inputs and by one method per spawned task:
  - the mDNS daemon, the TCP listener and the websocket accept and connect;
  - the tokio channels and the writer tasks.
- Whether a writer still takes messages is the `accepted` parameter.
- The websocket URL `ws://host:port` is not modelled. The port only reaches the front end's command.
- Real durations are not modelled:
  - the 15-second attempt timeout;
  - the 500 ms and 600 ms sleeps;
  - the 4000 ms banner timeout.
- Time appears only as an attempt ending in `TimedOut`, as the pauses list, and as a timeout armed or fired.
- Memory ordering of the atomic flags and lock poisoning are not modelled. A poisoned lock in the send commands is read as an empty slot in the source; the model treats every lock as healthy.
- JSON and base64 encoding are not modelled. Payloads are opaque strings.
- Host-name lookup is not modelled. It becomes an optional parameter with the "Mac" fallback, and the same holds for the local IP with "127.0.0.1".
- Foreign I/O is not modelled:
  - the file dialogs and file reads;
  - the `screencapture` subprocess and timestamped names;
  - `save_received_file`'s backend. Its result reaches the front end as a path or a failure.
- `capture_screenshot_and_send` is modelled only through `SendFileBytes`, its sending half.
- `send_via_tx` is unused in the source and is not a separate member.
- The thin command wrappers and builder setup in `src-tauri/src/lib.rs` are not part of this model.
- The React `useEffect` subscribe and unsubscribe lifecycle is not modelled. The clipboard handler reads the current toggle.
- Rendering is used only as the preconditions of user actions.
- The clipboard write, window focus and `openPath` calls are not modelled. Their failures are ignored in the source, and the model only logs the calls.
- SyncSession.SyncState.BrowseThread: runs over all the events its thread receives before BROWSING is cleared, as one step. Events interleaved with other commands while the thread runs are not modelled.
- Browse.ValuesList: the list's order is some enumeration of the keys, not the hash map's iteration order.
- Frontend.App.SendClipboardAction: the local clipboard read is its `local` parameter. The send's result is not awaited as a separate step, because its outcome changes no state.
- Frontend.App.RequestOtherFocus: the result of `send_bring_to_front` is not awaited as a separate step, because its outcome changes no state.
- Frontend.App.SaveReceivedFileAction: the result of `save_received_file` is not awaited as a separate step, because its outcome changes no state.

## Findings

| source | as written | input that shows it | evidently intended | confidence | as-written member | corrected member |
|---|---|---|---|---|---|---|
| src-tauri/src/sync.rs:92-121 | HOSTING is swapped on before the bind, daemon, service-info and register steps, and each `?` returns their error without clearing it | `start_host` when port 18765 is taken, then `start_host` again once it is free: the second call fails with "Already hosting". In the UI the only hosting action, "Share this Mac", is refused until the app restarts | a failed setup clears HOSTING so the command can be retried | not executed | `SyncFindings.HostRetryAfterSetupFailure` | `SyncSession.SyncState.StartHostReleasingFlag`, shown by `SyncFindings.HostRetryAfterSetupFailureFixed` |
| src-tauri/src/sync.rs:190-200 | BROWSING is swapped on before the daemon and browse steps, and each `?` returns their error without clearing it | `start_browse` when the daemon cannot be created, then `start_browse` again: the second call returns Ok with no receiver and no browse thread, and the UI shows an empty browsing view that never fills | a failed setup clears BROWSING so a retry starts a browse | not executed | `SyncFindings.BrowseRetryAfterSetupFailure` | `SyncSession.SyncState.StartBrowseReleasingFlag`, shown by `SyncFindings.BrowseRetryAfterSetupFailureFixed` |
