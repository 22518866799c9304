/**
 * Runs of the front-end session from a fresh mount, interleaving user
 * actions, command results and pushed events, with what each run leaves in
 * the component's state.
 */
module FrontendScenarios {
  import opened Wrappers
  import Protocol
  import opened Frontend

  /**
   * Find a peer, connect to it and receive "connected": the session is
   * connected to that peer, no attempt is in progress and the banner shows.
   */
  method BrowseAndConnect(peer: Protocol.Peer) returns (status: Status, connectedPeer: Option<string>, connecting: bool, banner: bool)
    ensures status == Connected && connectedPeer == Some(peer.name)
    ensures !connecting && banner
  {
    var app := new App();
    app.StartBrowsingBegin();
    app.StartBrowsingSucceeded();
    app.OnPeers([peer]);
    app.ConnectToBegin(peer);
    app.ConnectToSucceeded(peer.host, peer.port);
    app.OnConnected(peer.name);
    status, connectedPeer, connecting, banner := app.connectionStatus, app.connectedPeer, app.connecting, app.showConnectionSuccess;
  }

  /**
   * A connect attempt that fails with `message` leaves the session browsing
   * with the same peer list, shows the message, and lets the user try again.
   */
  method ConnectFails(peer: Protocol.Peer, message: string) returns (status: Status, peers: seq<Protocol.Peer>, error: Option<string>, connecting: bool)
    ensures status == Browsing && peers == [peer]
    ensures error == Some(message) && !connecting
  {
    var app := new App();
    app.StartBrowsingBegin();
    app.StartBrowsingSucceeded();
    app.OnPeers([peer]);
    app.ConnectToBegin(peer);
    app.ConnectToFailed(peer.host, peer.port, message);
    status, peers, error, connecting := app.connectionStatus, app.peers, app.connectionError, app.connecting;
  }

  /**
   * An error from an earlier attempt survives a "connected" event that
   * arrives without a new attempt (as when a peer dials in).
   */
  method ErrorSurvivesConnected(peer: Protocol.Peer, message: string, name: string) returns (status: Status, error: Option<string>)
    ensures status == Connected && error == Some(message)
  {
    var app := new App();
    app.StartBrowsingBegin();
    app.StartBrowsingSucceeded();
    app.OnPeers([peer]);
    app.ConnectToBegin(peer);
    app.ConnectToFailed(peer.host, peer.port, message);
    app.OnConnected(name);
    status, error := app.connectionStatus, app.connectionError;
  }

  /**
   * Two "connected" events in a row arm two different timeouts; the first
   * was cleared, so only the second can fire, and when it does the banner
   * is hidden and the slot emptied.
   */
  method ReconnectRearmsTimer(a: string, b: string) returns (first: TimerId, second: TimerId, bannerAfterFire: bool, slotAfterFire: Option<TimerId>)
    ensures first != second
    ensures !bannerAfterFire && slotAfterFire == None
  {
    var app := new App();
    app.OnConnected(a);
    first := app.successTimer.value;
    app.OnConnected(b);
    second := app.successTimer.value;
    app.AtMostOneTimerPending();
    assert first !in app.pendingTimers;
    app.TimerFired(second);
    bannerAfterFire, slotAfterFire := app.showConnectionSuccess, app.successTimer;
  }

  /** With live sync switched off a pushed clipboard text is not applied. */
  method SyncOffIgnoresRemoteClipboard(name: string, text: string) returns (content: string)
    ensures content == ""
  {
    var app := new App();
    app.OnConnected(name);
    app.SetSyncClipboard(false);
    app.OnRemoteClipboard(text);
    content := app.clipboardContent;
  }

  /** With live sync on a non-empty pushed text replaces the shown clipboard. */
  method SyncOnAppliesRemoteClipboard(name: string, text: string) returns (content: string)
    requires text != ""
    ensures content == text
  {
    var app := new App();
    app.OnConnected(name);
    app.OnRemoteClipboard(text);
    content := app.clipboardContent;
  }

  /** Received files are listed in arrival order and a later file does not displace an earlier one. */
  method FilesInArrivalOrder(f: ReceivedFile, g: ReceivedFile) returns (files: seq<ReceivedFile>)
    ensures files == [f, g]
  {
    var app := new App();
    app.OnRemoteFile(f.name, f.data);
    app.OnRemoteFile(g.name, g.data);
    files := app.receivedFiles;
  }

  /**
   * A "connected" event that arrives while `start_host` is still pending
   * is overwritten when the command then succeeds: the status reads hosting
   * while a connected peer is recorded.
   */
  method HostResultAfterConnected(name: string) returns (status: Status, connectedPeer: Option<string>)
    ensures status == Hosting && connectedPeer == Some(name)
  {
    var app := new App();
    app.StartHostingBegin();
    app.OnConnected(name);
    app.StartHostingSucceeded();
    status, connectedPeer := app.connectionStatus, app.connectedPeer;
  }
}
