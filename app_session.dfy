/**
 * The user interface's session state machine (`App`): the React state
 * fields, the six push-event listeners, the user actions and the
 * success-banner timer. Every awaited command is split into a method that
 * issues it and methods for its success and failure, so that completions
 * can interleave with events in any order. Calls into the native side,
 * the clipboard, the opener and the window are recorded in `effects`.
 */
module Frontend {
  import opened Wrappers
  import Protocol

  /** `ConnectionStatus`; an attempt in progress is the separate `connecting` flag. */
  datatype Status = Idle | Hosting | Browsing | Connected

  /** The commands the interface invokes, with their arguments. */
  datatype Command =
    | GetHostName
    | StartHost
    | StopHost
    | StartBrowse
    | StopBrowse
    | ConnectTo(host: string, port: Protocol.U16)
    | Disconnect
    | SendClipboard(text: string)
    | SendBringToFront
    | PickAndSendFile
    | CaptureScreenshotAndSend
    | SaveReceivedFile(name: string, data: string)

  /** Calls out of the component, in the order they are made. */
  datatype Effect =
    | Invoke(cmd: Command)
    | WriteClipboard(text: string)
    | OpenPath(path: string)
    | FocusWindow

  /** An entry of the received-file list. */
  datatype ReceivedFile = ReceivedFile(name: string, data: string)

  /** The identifier `setTimeout` returns. */
  type TimerId = nat

  /** How long the success banner stays up, in milliseconds. */
  const SuccessBannerMillis := 4000

  /** The host name shown when `get_host_name` fails. */
  const HostNamePlaceholder := "This Mac"

  class App {
    var connectionStatus: Status
    var peers: seq<Protocol.Peer>
    var connectedPeer: Option<string>
    var clipboardContent: string
    var syncClipboard: bool
    var transferring: bool
    var screenshotting: bool
    var receivedFiles: seq<ReceivedFile>
    var hostName: string
    var connecting: bool
    var connectingToPeer: Option<string>
    var showConnectionSuccess: bool
    var connectionError: Option<string>
    var successTimer: Option<TimerId>   // connectionSuccessTimeoutRef.current
    var nextTimer: TimerId              // the identifier the next setTimeout returns

    ghost var pendingTimers: set<TimerId>   // timeouts armed and neither fired nor cleared
    ghost var effects: seq<Effect>
    ghost var inFlight: multiset<Command>   // invoked commands whose result a handler still awaits

    /** The ref holds the one pending timeout, if any, and every timeout armed so far has a smaller identifier. */
    ghost predicate TimerValid()
      reads this`successTimer, this`pendingTimers, this`nextTimer
    {
      && pendingTimers == (if successTimer.Some? then {successTimer.value} else {})
      && (forall t :: t in pendingTimers ==> t < nextTimer)
    }

    /**
     * `connecting` is set exactly while a peer is being dialed; the banner
     * shows exactly while the ref holds a timer; that timer is the only
     * pending one.
     */
    ghost predicate Valid()
      reads this`connecting, this`connectingToPeer, this`showConnectionSuccess
      reads this`successTimer, this`pendingTimers, this`nextTimer
    {
      && (connecting <==> connectingToPeer.Some?)
      && (showConnectionSuccess <==> successTimer.Some?)
      && TimerValid()
    }

    /** Under the invariant at most one timeout is ever pending. */
    lemma AtMostOneTimerPending()
      requires Valid()
      ensures |pendingTimers| <= 1
    {
    }

    /** The initial state; mounting invokes `get_host_name`. */
    constructor ()
      ensures Valid()
      ensures connectionStatus == Idle && peers == [] && connectedPeer == None
      ensures clipboardContent == "" && syncClipboard && !transferring && !screenshotting
      ensures receivedFiles == [] && hostName == "" && !connecting && connectingToPeer == None
      ensures !showConnectionSuccess && connectionError == None && successTimer == None && pendingTimers == {}
      ensures effects == [Invoke(GetHostName)] && inFlight == multiset{GetHostName}
    {
      connectionStatus, peers, connectedPeer := Idle, [], None;
      clipboardContent, syncClipboard := "", true;
      transferring, screenshotting := false, false;
      receivedFiles, hostName := [], "";
      connecting, connectingToPeer := false, None;
      showConnectionSuccess, connectionError, successTimer := false, None, None;
      nextTimer := 0;
      pendingTimers := {};
      effects := [Invoke(GetHostName)];
      inFlight := multiset{GetHostName};
    }

    /** Issues `cmd` and awaits its result. */
    method Issue(cmd: Command)
      modifies this`effects, this`inFlight
      ensures effects == old(effects) + [Invoke(cmd)] && inFlight == old(inFlight) + multiset{cmd}
    {
      effects := effects + [Invoke(cmd)];
      inFlight := inFlight + multiset{cmd};
    }

    /** The result of `cmd` arrives. */
    method Settle(cmd: Command)
      requires cmd in inFlight
      modifies this`inFlight
      ensures inFlight == old(inFlight) - multiset{cmd}
    {
      inFlight := inFlight - multiset{cmd};
    }

    /** `get_host_name` resolved. */
    method HostNameLoaded(name: string)
      requires Valid() && GetHostName in inFlight
      modifies this`hostName, this`inFlight
      ensures Valid()
      ensures hostName == name && inFlight == old(inFlight) - multiset{GetHostName}
    {
      Settle(GetHostName);
      hostName := name;
    }

    /** `get_host_name` failed: a placeholder is shown. */
    method HostNameFailed()
      requires Valid() && GetHostName in inFlight
      modifies this`hostName, this`inFlight
      ensures Valid()
      ensures hostName == HostNamePlaceholder && inFlight == old(inFlight) - multiset{GetHostName}
    {
      Settle(GetHostName);
      hostName := HostNamePlaceholder;
    }

    // ----- push events -----

    /** "peers": the list is replaced wholesale. */
    method OnPeers(list: seq<Protocol.Peer>)
      requires Valid()
      modifies this`peers
      ensures Valid()
      ensures peers == list
    {
      peers := list;
    }

    /**
     * "connected", from any state: the named peer is connected, any attempt
     * in progress is over, and the banner shows. The pending timeout, if
     * any, is cleared before a new one is armed, so the new one is the only
     * one pending and the earlier one can no longer fire. The last
     * connection error is left as it was.
     */
    method OnConnected(name: string)
      requires Valid()
      modifies this`connectedPeer, this`connectionStatus, this`connecting, this`connectingToPeer
      modifies this`showConnectionSuccess, this`successTimer, this`pendingTimers, this`nextTimer
      ensures Valid()
      ensures connectionStatus == Connected && connectedPeer == Some(name)
      ensures !connecting && connectingToPeer == None && showConnectionSuccess
      ensures successTimer == Some(old(nextTimer)) && pendingTimers == {old(nextTimer)}
      ensures old(successTimer).Some? ==> old(successTimer).value !in pendingTimers
      ensures nextTimer == old(nextTimer) + 1
    {
      connectedPeer, connectionStatus := Some(name), Connected;
      connecting, connectingToPeer := false, None;
      showConnectionSuccess := true;
      RearmSuccessTimer();
    }

    /** `clearTimeout` on the timeout in the ref, if any, then `setTimeout(..., 4000)` into the ref. */
    method RearmSuccessTimer()
      requires TimerValid()
      modifies this`successTimer, this`pendingTimers, this`nextTimer
      ensures TimerValid()
      ensures successTimer == Some(old(nextTimer)) && pendingTimers == {old(nextTimer)}
      ensures old(successTimer).Some? ==> old(successTimer).value !in pendingTimers
      ensures nextTimer == old(nextTimer) + 1
    {
      if successTimer.Some? {
        pendingTimers := pendingTimers - {successTimer.value};
      }
      successTimer := Some(nextTimer);
      pendingTimers := pendingTimers + {nextTimer};
      nextTimer := nextTimer + 1;
    }

    /** A pending timeout fires; it is the one in the ref. The banner is hidden and the ref emptied. */
    method TimerFired(t: TimerId)
      requires Valid() && t in pendingTimers
      modifies this`showConnectionSuccess, this`successTimer, this`pendingTimers
      ensures Valid()
      ensures old(successTimer) == Some(t)
      ensures !showConnectionSuccess && successTimer == None && pendingTimers == {}
    {
      showConnectionSuccess := false;
      successTimer := None;
      pendingTimers := pendingTimers - {t};
    }

    /** "disconnected", from any state: back to idle with no peer and no attempt in progress. */
    method OnDisconnected()
      requires Valid()
      modifies this`connectedPeer, this`connectionStatus, this`connecting, this`connectingToPeer
      ensures Valid()
      ensures connectionStatus == Idle && connectedPeer == None && !connecting && connectingToPeer == None
    {
      connectedPeer := None;
      connectionStatus := Idle;
      connecting := false;
      connectingToPeer := None;
    }

    /**
     * "remote_clipboard": applied, shown and written to the local
     * clipboard only while sync is on and the text is non-empty; otherwise
     * nothing changes.
     */
    method OnRemoteClipboard(text: string)
      requires Valid()
      modifies this`clipboardContent, this`effects
      ensures Valid()
      ensures syncClipboard && text != "" ==>
        clipboardContent == text && effects == old(effects) + [WriteClipboard(text)]
      ensures !(syncClipboard && text != "") ==>
        clipboardContent == old(clipboardContent) && effects == old(effects)
    {
      if syncClipboard && text != "" {
        clipboardContent := text;
        effects := effects + [WriteClipboard(text)];
      }
    }

    /** "remote_file": exactly one entry is appended; earlier entries stay as they were. */
    method OnRemoteFile(name: string, data: string)
      requires Valid()
      modifies this`receivedFiles
      ensures Valid()
      ensures receivedFiles == old(receivedFiles) + [ReceivedFile(name, data)]
    {
      receivedFiles := receivedFiles + [ReceivedFile(name, data)];
    }

    /** "bring_to_front": the window is asked to take focus; no field changes. */
    method OnBringToFront()
      requires Valid()
      modifies this`effects
      ensures Valid()
      ensures effects == old(effects) + [FocusWindow]
    {
      effects := effects + [FocusWindow];
    }

    // ----- user actions and the completions of what they invoke -----

    /** "Share this Mac", offered while idle: invokes `start_host`. */
    method StartHostingBegin()
      requires Valid() && connectionStatus == Idle
      modifies this`effects, this`inFlight
      ensures Valid()
      ensures effects == old(effects) + [Invoke(StartHost)] && inFlight == old(inFlight) + multiset{StartHost}
    {
      Issue(StartHost);
    }

    /** `start_host` succeeded: status becomes hosting. */
    method StartHostingSucceeded()
      requires Valid() && StartHost in inFlight
      modifies this`connectionStatus, this`inFlight
      ensures Valid()
      ensures connectionStatus == Hosting && inFlight == old(inFlight) - multiset{StartHost}
    {
      Settle(StartHost);
      connectionStatus := Hosting;
    }

    /** `start_host` failed: no field changes. */
    method StartHostingFailed()
      requires Valid() && StartHost in inFlight
      modifies this`inFlight
      ensures Valid()
      ensures inFlight == old(inFlight) - multiset{StartHost}
    {
      Settle(StartHost);
    }

    /** "Stop sharing", offered while hosting: invokes `stop_host`. */
    method StopHostingBegin()
      requires Valid() && connectionStatus == Hosting
      modifies this`effects, this`inFlight
      ensures Valid()
      ensures effects == old(effects) + [Invoke(StopHost)] && inFlight == old(inFlight) + multiset{StopHost}
    {
      Issue(StopHost);
    }

    /** `stop_host` succeeded: status becomes idle. */
    method StopHostingSucceeded()
      requires Valid() && StopHost in inFlight
      modifies this`connectionStatus, this`inFlight
      ensures Valid()
      ensures connectionStatus == Idle && inFlight == old(inFlight) - multiset{StopHost}
    {
      Settle(StopHost);
      connectionStatus := Idle;
    }

    /** `stop_host` failed: no field changes. */
    method StopHostingFailed()
      requires Valid() && StopHost in inFlight
      modifies this`inFlight
      ensures Valid()
      ensures inFlight == old(inFlight) - multiset{StopHost}
    {
      Settle(StopHost);
    }

    /** "Find other Macs", offered while idle: invokes `start_browse`. */
    method StartBrowsingBegin()
      requires Valid() && connectionStatus == Idle
      modifies this`effects, this`inFlight
      ensures Valid()
      ensures effects == old(effects) + [Invoke(StartBrowse)] && inFlight == old(inFlight) + multiset{StartBrowse}
    {
      Issue(StartBrowse);
    }

    /** `start_browse` succeeded: status becomes browsing; the peer list and the error are kept. */
    method StartBrowsingSucceeded()
      requires Valid() && StartBrowse in inFlight
      modifies this`connectionStatus, this`inFlight
      ensures Valid()
      ensures connectionStatus == Browsing && inFlight == old(inFlight) - multiset{StartBrowse}
    {
      Settle(StartBrowse);
      connectionStatus := Browsing;
    }

    /** `start_browse` failed: no field changes. */
    method StartBrowsingFailed()
      requires Valid() && StartBrowse in inFlight
      modifies this`inFlight
      ensures Valid()
      ensures inFlight == old(inFlight) - multiset{StartBrowse}
    {
      Settle(StartBrowse);
    }

    /** "Stop", offered while browsing and not connecting: invokes `stop_browse`. */
    method StopBrowsingBegin()
      requires Valid() && connectionStatus == Browsing && !connecting
      modifies this`effects, this`inFlight
      ensures Valid()
      ensures effects == old(effects) + [Invoke(StopBrowse)] && inFlight == old(inFlight) + multiset{StopBrowse}
    {
      Issue(StopBrowse);
    }

    /** `stop_browse` succeeded: idle, no peers, no error. */
    method StopBrowsingSucceeded()
      requires Valid() && StopBrowse in inFlight
      modifies this`connectionStatus, this`peers, this`connectionError, this`inFlight
      ensures Valid()
      ensures connectionStatus == Idle && peers == [] && connectionError == None
      ensures inFlight == old(inFlight) - multiset{StopBrowse}
    {
      Settle(StopBrowse);
      connectionStatus := Idle;
      peers := [];
      connectionError := None;
    }

    /** `stop_browse` failed: no field changes. */
    method StopBrowsingFailed()
      requires Valid() && StopBrowse in inFlight
      modifies this`inFlight
      ensures Valid()
      ensures inFlight == old(inFlight) - multiset{StopBrowse}
    {
      Settle(StopBrowse);
    }

    /**
     * "Connect" on a listed peer, offered while browsing and not
     * connecting: the error is cleared and the attempt recorded before
     * `connect_to` is invoked; the status is not changed.
     */
    method ConnectToBegin(peer: Protocol.Peer)
      requires Valid() && connectionStatus == Browsing && !connecting && peer in peers
      modifies this`connectionError, this`connecting, this`connectingToPeer, this`effects, this`inFlight
      ensures Valid()
      ensures connectionError == None && connecting && connectingToPeer == Some(peer.name)
      ensures effects == old(effects) + [Invoke(ConnectTo(peer.host, peer.port))]
      ensures inFlight == old(inFlight) + multiset{ConnectTo(peer.host, peer.port)}
    {
      connectionError := None;
      connecting := true;
      connectingToPeer := Some(peer.name);
      Issue(ConnectTo(peer.host, peer.port));
    }

    /** `connect_to` succeeded: nothing changes here; the "connected" event does the rest. */
    method ConnectToSucceeded(host: string, port: Protocol.U16)
      requires Valid() && ConnectTo(host, port) in inFlight
      modifies this`inFlight
      ensures Valid()
      ensures inFlight == old(inFlight) - multiset{ConnectTo(host, port)}
    {
      Settle(ConnectTo(host, port));
    }

    /**
     * `connect_to` failed with `message`: the message becomes the error and
     * the attempt is over; the status is not changed, so a failed attempt
     * from browsing stays in browsing.
     */
    method ConnectToFailed(host: string, port: Protocol.U16, message: string)
      requires Valid() && ConnectTo(host, port) in inFlight
      modifies this`connectionError, this`connecting, this`connectingToPeer, this`inFlight
      ensures Valid()
      ensures connectionError == Some(message) && !connecting && connectingToPeer == None
      ensures inFlight == old(inFlight) - multiset{ConnectTo(host, port)}
    {
      Settle(ConnectTo(host, port));
      connectionError := Some(message);
      connecting := false;
      connectingToPeer := None;
    }

    /** "Disconnect", offered while connected: invokes `disconnect`. */
    method DisconnectBegin()
      requires Valid() && connectionStatus == Connected
      modifies this`effects, this`inFlight
      ensures Valid()
      ensures effects == old(effects) + [Invoke(Disconnect)] && inFlight == old(inFlight) + multiset{Disconnect}
    {
      Issue(Disconnect);
    }

    /** `disconnect` succeeded: no peer, status idle. */
    method DisconnectSucceeded()
      requires Valid() && Disconnect in inFlight
      modifies this`connectedPeer, this`connectionStatus, this`inFlight
      ensures Valid()
      ensures connectedPeer == None && connectionStatus == Idle
      ensures inFlight == old(inFlight) - multiset{Disconnect}
    {
      Settle(Disconnect);
      connectedPeer := None;
      connectionStatus := Idle;
    }

    /** `disconnect` failed: no field changes. */
    method DisconnectFailed()
      requires Valid() && Disconnect in inFlight
      modifies this`inFlight
      ensures Valid()
      ensures inFlight == old(inFlight) - multiset{Disconnect}
    {
      Settle(Disconnect);
    }

    /**
     * "Send my clipboard", offered while connected. `local` is what reading
     * the local clipboard gave (None when the read failed). Non-empty text
     * is sent whatever the sync toggle says; nothing else happens.
     */
    method SendClipboardAction(local: Option<string>)
      requires Valid() && connectionStatus == Connected
      modifies this`effects
      ensures Valid()
      ensures local.Some? && local.value != "" ==> effects == old(effects) + [Invoke(SendClipboard(local.value))]
      ensures !(local.Some? && local.value != "") ==> effects == old(effects)
    {
      if local.Some? && local.value != "" {
        effects := effects + [Invoke(SendClipboard(local.value))];
      }
    }

    /** "Paste from remote": writes the last remote text locally, if there is one. */
    method PasteFromRemote()
      requires Valid() && connectionStatus == Connected
      modifies this`effects
      ensures Valid()
      ensures clipboardContent != "" ==> effects == old(effects) + [WriteClipboard(clipboardContent)]
      ensures clipboardContent == "" ==> effects == old(effects)
    {
      if clipboardContent != "" {
        effects := effects + [WriteClipboard(clipboardContent)];
      }
    }

    /** The "Sync clipboard in real time" checkbox. */
    method SetSyncClipboard(on: bool)
      requires Valid() && connectionStatus == Connected
      modifies this`syncClipboard
      ensures Valid()
      ensures syncClipboard == on
    {
      syncClipboard := on;
    }

    /** "Open on other device", offered while connected: invokes `send_bring_to_front`; its result changes nothing. */
    method RequestOtherFocus()
      requires Valid() && connectionStatus == Connected
      modifies this`effects
      ensures Valid()
      ensures effects == old(effects) + [Invoke(SendBringToFront)]
    {
      effects := effects + [Invoke(SendBringToFront)];
    }

    /** "Send a file", enabled while not transferring: marks a transfer and invokes `pick_and_send_file`. */
    method PickAndSendFileBegin()
      requires Valid() && connectionStatus == Connected && !transferring
      modifies this`transferring, this`effects, this`inFlight
      ensures Valid()
      ensures transferring
      ensures effects == old(effects) + [Invoke(PickAndSendFile)] && inFlight == old(inFlight) + multiset{PickAndSendFile}
    {
      transferring := true;
      Issue(PickAndSendFile);
    }

    /** `pick_and_send_file` settled, either way: the transfer mark is cleared. */
    method PickAndSendFileSettled()
      requires Valid() && PickAndSendFile in inFlight
      modifies this`transferring, this`inFlight
      ensures Valid()
      ensures !transferring && inFlight == old(inFlight) - multiset{PickAndSendFile}
    {
      Settle(PickAndSendFile);
      transferring := false;
    }

    /** "Capture screenshot", enabled while neither capturing nor transferring. */
    method CaptureScreenshotBegin()
      requires Valid() && connectionStatus == Connected && !screenshotting && !transferring
      modifies this`screenshotting, this`effects, this`inFlight
      ensures Valid()
      ensures screenshotting
      ensures effects == old(effects) + [Invoke(CaptureScreenshotAndSend)]
      ensures inFlight == old(inFlight) + multiset{CaptureScreenshotAndSend}
    {
      screenshotting := true;
      Issue(CaptureScreenshotAndSend);
    }

    /** `capture_screenshot_and_send` settled, either way: the capture mark is cleared. */
    method CaptureScreenshotSettled()
      requires Valid() && CaptureScreenshotAndSend in inFlight
      modifies this`screenshotting, this`inFlight
      ensures Valid()
      ensures !screenshotting && inFlight == old(inFlight) - multiset{CaptureScreenshotAndSend}
    {
      Settle(CaptureScreenshotAndSend);
      screenshotting := false;
    }

    /** "Save" on received file `i`: invokes `save_received_file`; its result changes nothing. */
    method SaveReceivedFileAction(i: nat)
      requires Valid() && connectionStatus == Connected && i < |receivedFiles|
      modifies this`effects
      ensures Valid()
      ensures effects == old(effects) + [Invoke(SaveReceivedFile(receivedFiles[i].name, receivedFiles[i].data))]
    {
      effects := effects + [Invoke(SaveReceivedFile(receivedFiles[i].name, receivedFiles[i].data))];
    }

    /** "Open" on received file `i`: invokes `save_received_file` and awaits the saved path. */
    method OpenReceivedFileBegin(i: nat)
      requires Valid() && connectionStatus == Connected && i < |receivedFiles|
      modifies this`effects, this`inFlight
      ensures Valid()
      ensures effects == old(effects) + [Invoke(SaveReceivedFile(receivedFiles[i].name, receivedFiles[i].data))]
      ensures inFlight == old(inFlight) + multiset{SaveReceivedFile(receivedFiles[i].name, receivedFiles[i].data)}
    {
      Issue(SaveReceivedFile(receivedFiles[i].name, receivedFiles[i].data));
    }

    /** The save behind "Open" returned `path`: the path is opened only if it is non-empty. */
    method OpenSaveSucceeded(name: string, data: string, path: string)
      requires Valid() && SaveReceivedFile(name, data) in inFlight
      modifies this`effects, this`inFlight
      ensures Valid()
      ensures inFlight == old(inFlight) - multiset{SaveReceivedFile(name, data)}
      ensures path != "" ==> effects == old(effects) + [OpenPath(path)]
      ensures path == "" ==> effects == old(effects)
    {
      Settle(SaveReceivedFile(name, data));
      if path != "" {
        effects := effects + [OpenPath(path)];
      }
    }

    /** The save behind "Open" failed or was cancelled: nothing is opened and no field changes. */
    method OpenSaveFailed(name: string, data: string)
      requires Valid() && SaveReceivedFile(name, data) in inFlight
      modifies this`inFlight
      ensures Valid()
      ensures inFlight == old(inFlight) - multiset{SaveReceivedFile(name, data)}
    {
      Settle(SaveReceivedFile(name, data));
    }
  }
}
