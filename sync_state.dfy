/**
 * The native side's shared session state (`SyncState` and the HOSTING /
 * BROWSING flags) and the commands and spawned tasks that set and clear
 * it. Sockets are replaced by inputs: the outcome of each setup step, the
 * frames a reader receives, and whether a writer task still accepts
 * messages. Each spawned task (accept, host reader, client reader, browse
 * thread) is a method of its own, callable only while such a task is live.
 */
module SyncSession {
  import opened Wrappers
  import opened Protocol
  import PeerNames
  import Browse
  import ConnectRetry
  import Dispatch

  /** `WS_PORT` */
  const WsPort: U16 := 18765

  /** Identifies one websocket connection, and the channel of its writer task. */
  type ConnId = nat

  /** Which command created the daemon held in the shared `daemon` slot. */
  datatype Daemon = HostDaemon | BrowseDaemon

  /** The registered service: instance name, host domain, address and port. */
  datatype ServiceInfo = ServiceInfo(instance: string, hostDomain: string, address: string, port: U16)

  /** A message handed to the writer task of connection `conn`. */
  datatype Outbound = Outbound(conn: ConnId, msg: WsMessage)

  /** How the file dialog of `pick_and_send_file` and the read that follows it end. */
  datatype Pick =
    | PickCancelled
    | PickedNonPath
    | ReadFailed(error: string)
    | Picked(fileName: Option<string>, data: string)   // data: the base64 text of the file

  /** The device name used when the OS does not report one. */
  const FallbackHostName := "Mac"

  /** The service `start_host` registers for a device called `hostName` at `address`. */
  function Advertised(hostName: string, address: string): (info: ServiceInfo)
    ensures info.instance == PeerNames.InstanceName(hostName) && info.port == WsPort
  {
    ServiceInfo(PeerNames.InstanceName(hostName), hostName + ".local.", address, WsPort)
  }

  /**
   * A browsing device shows the service `start_host` registers under the
   * advertiser's host name up to its first dot.
   */
  lemma AdvertisedShortName(hostName: string, address: string)
    ensures PeerNames.ShortName(PeerNames.FullName(Advertised(hostName, address).instance)) == PeerNames.UpToDot(hostName)
  {
    PeerNames.ShortNameOfAdvertised(hostName);
  }

  /**
   * The sender an outbound message goes through: host_tx when present,
   * otherwise client_tx, and with neither the error "Not connected".
   */
  function Route(hostTx: Option<ConnId>, clientTx: Option<ConnId>): (r: Result<ConnId, string>)
    ensures r.Success? <==> hostTx.Some? || clientTx.Some?
    ensures hostTx.Some? ==> r.value == hostTx.value
    ensures hostTx.None? && clientTx.Some? ==> r.value == clientTx.value
    ensures r.Failure? ==> r.error == "Not connected"
  {
    if hostTx.Some? then Success(hostTx.value)
    else if clientTx.Some? then Success(clientTx.value)
    else Failure("Not connected")
  }

  class SyncState {
    var hosting: bool                  // HOSTING
    var browsing: bool                 // BROWSING
    var hostTx: Option<ConnId>
    var clientTx: Option<ConnId>
    var peerName: Option<string>
    var browseReceiver: bool           // whether the browse_receiver slot holds a receiver
    var daemon: Option<Daemon>
    var serviceInfo: Option<ServiceInfo>
    var nextConn: ConnId               // the next fresh connection identifier

    ghost var emitted: seq<Event>      // events emitted to the user interface, in order
    ghost var outbox: seq<Outbound>    // messages written to connections, in order
    ghost var accepting: nat           // accept tasks waiting for a connection
    ghost var hostReaders: set<ConnId>   // connections whose host-side reader loop runs
    ghost var clientReaders: set<ConnId> // connections whose client-side reader loop runs
    ghost var browseThreads: nat       // browse threads started and not yet run

    /** A sender slot names a connection already made whose own reader loop still runs. */
    ghost predicate Valid()
      reads this`hostTx, this`clientTx, this`nextConn, this`hostReaders, this`clientReaders
    {
      && (hostTx.Some? ==> hostTx.value < nextConn && hostTx.value in hostReaders)
      && (clientTx.Some? ==> clientTx.value < nextConn && clientTx.value in clientReaders)
    }

    /** While HOSTING is set some host task is still running, and that task clears the flag as it ends. */
    ghost predicate HostingLive()
      reads this`hosting, this`accepting, this`hostReaders
    {
      hosting ==> accepting > 0 || hostReaders != {}
    }

    /** While BROWSING is set the receiver slot holds the receiver a browse thread reads. */
    ghost predicate BrowsingLive()
      reads this`browsing, this`browseReceiver
    {
      browsing ==> browseReceiver
    }

    /** `SyncState::default()` with both flags clear. */
    constructor ()
      ensures Valid() && HostingLive() && BrowsingLive()
      ensures !hosting && !browsing && hostTx == None && clientTx == None && peerName == None
      ensures !browseReceiver && daemon == None && serviceInfo == None
      ensures accepting == 0 && hostReaders == {} && clientReaders == {} && browseThreads == 0
      ensures emitted == [] && outbox == []
    {
      hosting, browsing := false, false;
      hostTx, clientTx, peerName := None, None, None;
      browseReceiver, daemon, serviceInfo := false, None, None;
      nextConn := 0;
      emitted, outbox := [], [];
      accepting, hostReaders, clientReaders, browseThreads := 0, {}, {}, 0;
    }

    /**
     * `start_host`. The flag is swapped on first; a second call while it is
     * set fails with "Already hosting". `setupError` is the error of the
     * first of binding the listener, creating the daemon, building the
     * service info and registering it that fails. On a failure after the
     * swap the flag stays set and nothing else changes. On success the
     * daemon and service info are stored and an accept task is spawned.
     */
    method StartHost(hostName: Option<string>, localIp: Option<string>, setupError: Option<string>)
      returns (r: Result<(), string>)
      requires Valid()
      modifies this`hosting, this`daemon, this`serviceInfo, this`accepting
      ensures Valid() && hosting
      ensures old(hosting) ==> r == Failure("Already hosting")
      ensures !old(hosting) && setupError.Some? ==> r == Failure(setupError.value)
      ensures !old(hosting) && setupError.None? ==> r == Success(())
      ensures r.Success? ==>
        && daemon == Some(HostDaemon)
        && serviceInfo == Some(Advertised(GetOr(hostName, FallbackHostName), GetOr(localIp, "127.0.0.1")))
        && accepting == old(accepting) + 1
      ensures r.Failure? ==> daemon == old(daemon) && serviceInfo == old(serviceInfo) && accepting == old(accepting)
    {
      var wasHosting := hosting;
      hosting := true;
      if wasHosting {
        return Failure("Already hosting");
      }
      var name := GetOr(hostName, FallbackHostName);
      var address := GetOr(localIp, "127.0.0.1");
      if setupError.Some? {
        return Failure(setupError.value);
      }
      daemon := Some(HostDaemon);
      serviceInfo := Some(Advertised(name, address));
      accepting := accepting + 1;
      r := Success(());
    }

    /**
     * `start_host` as evidently intended: a setup step that fails after the
     * swap clears HOSTING again, so the command can be retried. A live host
     * task stands behind the flag whenever one stood behind it before.
     */
    method StartHostReleasingFlag(hostName: Option<string>, localIp: Option<string>, setupError: Option<string>)
      returns (r: Result<(), string>)
      requires Valid()
      modifies this`hosting, this`daemon, this`serviceInfo, this`accepting
      ensures Valid() && (old(HostingLive()) ==> HostingLive())
      ensures hosting == (old(hosting) || setupError.None?)
      ensures old(hosting) ==> r == Failure("Already hosting")
      ensures !old(hosting) && setupError.Some? ==> r == Failure(setupError.value)
      ensures !old(hosting) && setupError.None? ==> r == Success(())
      ensures r.Success? ==>
        && daemon == Some(HostDaemon)
        && serviceInfo == Some(Advertised(GetOr(hostName, FallbackHostName), GetOr(localIp, "127.0.0.1")))
        && accepting == old(accepting) + 1
      ensures r.Failure? ==> daemon == old(daemon) && serviceInfo == old(serviceInfo) && accepting == old(accepting)
    {
      var wasHosting := hosting;
      hosting := true;
      if wasHosting {
        return Failure("Already hosting");
      }
      var name := GetOr(hostName, FallbackHostName);
      var address := GetOr(localIp, "127.0.0.1");
      if setupError.Some? {
        hosting := false;
        return Failure(setupError.value);
      }
      daemon := Some(HostDaemon);
      serviceInfo := Some(Advertised(name, address));
      accepting := accepting + 1;
      r := Success(());
    }

    /** The accept task takes a connection: its channel becomes host_tx and its reader starts. */
    method HostAccepted()
      requires Valid() && accepting > 0
      modifies this`hostTx, this`nextConn, this`accepting, this`hostReaders
      ensures Valid() && (old(HostingLive()) ==> HostingLive())
      ensures hostTx == Some(old(nextConn)) && nextConn == old(nextConn) + 1
      ensures accepting == old(accepting) - 1 && hostReaders == old(hostReaders) + {old(nextConn)}
    {
      hostTx := Some(nextConn);
      accepting, hostReaders := accepting - 1, hostReaders + {nextConn};
      nextConn := nextConn + 1;
    }

    /** The accept or the websocket handshake fails: the task ends and clears HOSTING. */
    method HostAcceptFailed()
      requires Valid() && accepting > 0
      modifies this`hosting, this`accepting
      ensures Valid() && HostingLive()
      ensures !hosting && accepting == old(accepting) - 1
    {
      hosting := false;
      accepting := accepting - 1;
    }

    /** One frame reaches the host-side reader of `conn`: Hello sets peer_name; a parsed message emits its event. */
    method HostReceive(conn: ConnId, frame: Dispatch.Frame)
      requires Valid() && conn in hostReaders
      modifies this`peerName, this`emitted
      ensures Valid()
      ensures frame.Unparsed? ==> peerName == old(peerName) && emitted == old(emitted)
      ensures frame.Parsed? ==>
        var step := Dispatch.HostDispatch(frame.msg);
        && peerName == (if step.0.Some? then step.0 else old(peerName))
        && emitted == old(emitted) + [step.1]
    {
      if frame.Parsed? {
        var step := Dispatch.HostDispatch(frame.msg);
        if step.0.Some? {
          peerName := step.0;
        }
        emitted := emitted + [step.1];
      }
    }

    /**
     * The host-side reader of `conn` ends: host_tx (whichever connection it
     * names) and peer_name are cleared before
     * "disconnected" is emitted, and the task clears HOSTING as it exits.
     */
    method HostReaderEnded(conn: ConnId)
      requires Valid() && conn in hostReaders
      modifies this`hostTx, this`peerName, this`emitted, this`hosting, this`hostReaders
      ensures Valid() && HostingLive()
      ensures hostTx == None && peerName == None && !hosting
      ensures emitted == old(emitted) + [Disconnected] && hostReaders == old(hostReaders) - {conn}
    {
      hostTx := None;
      peerName := None;
      emitted := emitted + [Disconnected];
      hosting := false;
      hostReaders := hostReaders - {conn};
    }

    /** `stop_host`: clears HOSTING, host_tx, the daemon and the service info. */
    method StopHost() returns (r: Result<(), string>)
      requires Valid()
      modifies this`hosting, this`hostTx, this`daemon, this`serviceInfo
      ensures Valid() && HostingLive() && r == Success(())
      ensures !hosting && hostTx == None && daemon == None && serviceInfo == None
    {
      hosting := false;
      hostTx := None;
      daemon := None;
      serviceInfo := None;
      r := Success(());
    }

    /**
     * `start_browse`. While BROWSING is already set it succeeds and does
     * nothing. Otherwise the flag is set; `setupError` is the error of
     * creating the daemon or starting the browse, after which the flag stays
     * set; on success the daemon and receiver are stored and the browse
     * thread is spawned.
     */
    method StartBrowse(setupError: Option<string>) returns (r: Result<(), string>)
      requires Valid()
      modifies this`browsing, this`daemon, this`browseReceiver, this`browseThreads
      ensures Valid() && browsing
      ensures old(browsing) ==> r == Success(())
      ensures !old(browsing) && setupError.Some? ==> r == Failure(setupError.value)
      ensures !old(browsing) && setupError.None? ==> r == Success(())
      ensures !old(browsing) && setupError.None? ==>
        daemon == Some(BrowseDaemon) && browseReceiver && browseThreads == old(browseThreads) + 1
      ensures old(browsing) || setupError.Some? ==>
        daemon == old(daemon) && browseReceiver == old(browseReceiver) && browseThreads == old(browseThreads)
    {
      var wasBrowsing := browsing;
      browsing := true;
      if wasBrowsing {
        return Success(());
      }
      if setupError.Some? {
        return Failure(setupError.value);
      }
      daemon := Some(BrowseDaemon);
      browseReceiver := true;
      browseThreads := browseThreads + 1;
      r := Success(());
    }

    /**
     * `start_browse` as evidently intended: a failed setup clears BROWSING
     * again, so a later call starts a browse instead of reporting success
     * with nothing running. The flag is backed by a receiver whenever it
     * was before.
     */
    method StartBrowseReleasingFlag(setupError: Option<string>) returns (r: Result<(), string>)
      requires Valid()
      modifies this`browsing, this`daemon, this`browseReceiver, this`browseThreads
      ensures Valid() && (old(BrowsingLive()) ==> BrowsingLive())
      ensures browsing == (old(browsing) || setupError.None?)
      ensures old(browsing) ==> r == Success(())
      ensures !old(browsing) && setupError.Some? ==> r == Failure(setupError.value)
      ensures !old(browsing) && setupError.None? ==> r == Success(())
      ensures !old(browsing) && setupError.None? ==>
        daemon == Some(BrowseDaemon) && browseReceiver && browseThreads == old(browseThreads) + 1
      ensures old(browsing) || setupError.Some? ==>
        daemon == old(daemon) && browseReceiver == old(browseReceiver) && browseThreads == old(browseThreads)
    {
      var wasBrowsing := browsing;
      browsing := true;
      if wasBrowsing {
        return Success(());
      }
      if setupError.Some? {
        browsing := false;
        return Failure(setupError.value);
      }
      daemon := Some(BrowseDaemon);
      browseReceiver := true;
      browseThreads := browseThreads + 1;
      r := Success(());
    }

    /**
     * A browse thread runs over the service events it receives while
     * BROWSING is set. It returns at once if the receiver slot is empty;
     * otherwise it emits one "peers" list per resolved or removed event,
     * each holding exactly the registry's values at that point.
     */
    method BrowseThread(events: seq<Browse.ServiceEvent>) returns (lists: seq<seq<Peer>>)
      requires Valid() && browseThreads > 0
      modifies this`browseThreads, this`emitted
      ensures Valid() && browseThreads == old(browseThreads) - 1
      ensures !browseReceiver ==> lists == []
      ensures browseReceiver ==>
        && |lists| == |Browse.Snapshots(events)|
        && forall j :: 0 <= j < |lists| ==> Browse.ListsValues(lists[j], Browse.Snapshots(events)[j])
      ensures emitted == old(emitted) + seq(|lists|, j requires 0 <= j < |lists| => Peers(lists[j]))
    {
      browseThreads := browseThreads - 1;
      if !browseReceiver {
        return [];
      }
      var registry;
      registry, lists := Browse.BrowseLoop(events);
      emitted := emitted + seq(|lists|, j requires 0 <= j < |lists| => Peers(lists[j]));
    }

    /** `stop_browse`: clears BROWSING, then the receiver and the daemon. */
    method StopBrowse() returns (r: Result<(), string>)
      requires Valid()
      modifies this`browsing, this`browseReceiver, this`daemon
      ensures Valid() && BrowsingLive() && r == Success(())
      ensures !browsing && !browseReceiver && daemon == None
    {
      browsing := false;
      browseReceiver := false;
      daemon := None;
      r := Success(());
    }

    /**
     * `connect_to`. `outcomes` are the attempt outcomes of the retry loop;
     * `helloError` says whether writing the Hello frame fails. On success
     * the new connection's channel becomes client_tx, peer_name becomes the
     * dialed host, "connected" is emitted with the host string, and the
     * client reader starts; on either failure nothing changes.
     */
    method ConnectTo(host: string, port: U16, outcomes: seq<ConnectRetry.Attempt>,
                     myName: Option<string>, helloError: Option<string>)
      returns (r: Result<(), string>)
      requires Valid() && |outcomes| >= ConnectRetry.MaxAttempts
      modifies this`clientTx, this`peerName, this`nextConn, this`outbox, this`emitted, this`clientReaders
      ensures Valid()
      ensures ConnectRetry.AnyOpened(outcomes) && helloError.None? ==> r == Success(())
      ensures !ConnectRetry.AnyOpened(outcomes) ==>
        r == Failure(ConnectRetry.FailurePrefix + ConnectRetry.AttemptError(outcomes[ConnectRetry.MaxAttempts - 1]))
      ensures ConnectRetry.AnyOpened(outcomes) && helloError.Some? ==> r == Failure(helloError.value)
      ensures r.Failure? ==>
        && clientTx == old(clientTx) && peerName == old(peerName) && nextConn == old(nextConn)
        && outbox == old(outbox) && emitted == old(emitted) && clientReaders == old(clientReaders)
      ensures r.Success? ==>
        && clientTx == Some(old(nextConn)) && peerName == Some(host) && nextConn == old(nextConn) + 1
        && outbox == old(outbox) + [Outbound(old(nextConn), Hello(GetOr(myName, FallbackHostName)))]
        && emitted == old(emitted) + [Connected(host)]
        && clientReaders == old(clientReaders) + {old(nextConn)}
    {
      var attempt, pauses := ConnectRetry.ConnectWithRetry(outcomes);
      if attempt.Failure? {
        return Failure(attempt.error);
      }
      var conn := nextConn;
      var hello := Hello(GetOr(myName, FallbackHostName));
      if helloError.Some? {
        return Failure(helloError.value);
      }
      nextConn := nextConn + 1;
      outbox := outbox + [Outbound(conn, hello)];
      clientTx := Some(conn);
      peerName := Some(host);
      emitted := emitted + [Connected(host)];
      clientReaders := clientReaders + {conn};
      r := Success(());
    }

    /** One frame reaches the client-side reader of `conn`: Hello is ignored, other messages emit their event. */
    method ClientReceive(conn: ConnId, frame: Dispatch.Frame)
      requires Valid() && conn in clientReaders
      modifies this`emitted
      ensures Valid()
      ensures emitted == old(emitted) +
        (if frame.Parsed? && Dispatch.ClientDispatch(frame.msg).Some? then [Dispatch.ClientDispatch(frame.msg).value] else [])
    {
      if frame.Parsed? {
        var ev := Dispatch.ClientDispatch(frame.msg);
        if ev.Some? {
          emitted := emitted + [ev.value];
        }
      }
    }

    /**
     * The client-side reader of `conn` ends: client_tx (whichever
     * connection it names) and peer_name are cleared before "disconnected"
     * is emitted.
     */
    method ClientReaderEnded(conn: ConnId)
      requires Valid() && conn in clientReaders
      modifies this`clientTx, this`peerName, this`emitted, this`clientReaders
      ensures Valid()
      ensures clientTx == None && peerName == None
      ensures emitted == old(emitted) + [Disconnected] && clientReaders == old(clientReaders) - {conn}
    {
      clientTx := None;
      peerName := None;
      emitted := emitted + [Disconnected];
      clientReaders := clientReaders - {conn};
    }

    /**
     * `disconnect`: clears host_tx, client_tx and peer_name, then always
     * emits "disconnected"; afterwards every send fails with "Not connected".
     */
    method Disconnect() returns (r: Result<(), string>)
      requires Valid()
      modifies this`hostTx, this`clientTx, this`peerName, this`emitted
      ensures Valid() && r == Success(())
      ensures hostTx == None && clientTx == None && peerName == None
      ensures emitted == old(emitted) + [Disconnected]
      ensures Route(hostTx, clientTx) == Failure("Not connected")
    {
      hostTx := None;
      clientTx := None;
      peerName := None;
      emitted := emitted + [Disconnected];
      r := Success(());
    }
    /**
     * Sends `msg` through the routed sender. `accepted` says whether that
     * sender's writer task still takes messages; if not the send fails
     * with "Send failed".
     */
    method Send(msg: WsMessage, accepted: bool) returns (r: Result<(), string>)
      requires Valid()
      modifies this`outbox
      ensures Valid()
      ensures Route(hostTx, clientTx).Failure? ==> r == Failure("Not connected") && outbox == old(outbox)
      ensures Route(hostTx, clientTx).Success? && !accepted ==> r == Failure("Send failed") && outbox == old(outbox)
      ensures Route(hostTx, clientTx).Success? && accepted ==>
        r == Success(()) && outbox == old(outbox) + [Outbound(Route(hostTx, clientTx).value, msg)]
    {
      var route := Route(hostTx, clientTx);
      if route.Failure? {
        return Failure(route.error);
      }
      if !accepted {
        return Failure("Send failed");
      }
      outbox := outbox + [Outbound(route.value, msg)];
      r := Success(());
    }

    /** `send_clipboard` */
    method SendClipboard(text: string, accepted: bool) returns (r: Result<(), string>)
      requires Valid()
      modifies this`outbox
      ensures Valid()
      ensures Route(hostTx, clientTx).Failure? ==> r == Failure("Not connected") && outbox == old(outbox)
      ensures Route(hostTx, clientTx).Success? && !accepted ==> r == Failure("Send failed") && outbox == old(outbox)
      ensures Route(hostTx, clientTx).Success? && accepted ==>
        r == Success(()) && outbox == old(outbox) + [Outbound(Route(hostTx, clientTx).value, Clipboard(text))]
    {
      r := Send(Clipboard(text), accepted);
    }

    /** `send_bring_to_front` */
    method SendBringToFront(accepted: bool) returns (r: Result<(), string>)
      requires Valid()
      modifies this`outbox
      ensures Valid()
      ensures Route(hostTx, clientTx).Failure? ==> r == Failure("Not connected") && outbox == old(outbox)
      ensures Route(hostTx, clientTx).Success? && !accepted ==> r == Failure("Send failed") && outbox == old(outbox)
      ensures Route(hostTx, clientTx).Success? && accepted ==>
        r == Success(()) && outbox == old(outbox) + [Outbound(Route(hostTx, clientTx).value, WsMessage.BringToFront)]
    {
      r := Send(WsMessage.BringToFront, accepted);
    }

    /**
     * `pick_and_send_file`: a cancelled dialog succeeds without sending; a
     * selection that is not a path fails with "Invalid path"; a read error
     * is returned; a file read is sent as File under its name ("file" when
     * it has none).
     */
    method PickAndSendFile(pick: Pick, accepted: bool) returns (r: Result<(), string>)
      requires Valid()
      modifies this`outbox
      ensures Valid()
      ensures pick.PickCancelled? ==> r == Success(()) && outbox == old(outbox)
      ensures pick.PickedNonPath? ==> r == Failure("Invalid path") && outbox == old(outbox)
      ensures pick.ReadFailed? ==> r == Failure(pick.error) && outbox == old(outbox)
      ensures pick.Picked? ==>
        var msg := File(GetOr(pick.fileName, "file"), pick.data);
        && (Route(hostTx, clientTx).Failure? ==> r == Failure("Not connected") && outbox == old(outbox))
        && (Route(hostTx, clientTx).Success? && !accepted ==> r == Failure("Send failed") && outbox == old(outbox))
        && (Route(hostTx, clientTx).Success? && accepted ==>
              r == Success(()) && outbox == old(outbox) + [Outbound(Route(hostTx, clientTx).value, msg)])
    {
      match pick {
        case PickCancelled => r := Success(());
        case PickedNonPath => r := Failure("Invalid path");
        case ReadFailed(e) => r := Failure(e);
        case Picked(fileName, data) => r := Send(File(GetOr(fileName, "file"), data), accepted);
      }
    }

    /** `send_file_bytes`, the sending half of the screenshot command. */
    method SendFileBytes(name: string, data: string, accepted: bool) returns (r: Result<(), string>)
      requires Valid()
      modifies this`outbox
      ensures Valid()
      ensures Route(hostTx, clientTx).Failure? ==> r == Failure("Not connected") && outbox == old(outbox)
      ensures Route(hostTx, clientTx).Success? && !accepted ==> r == Failure("Send failed") && outbox == old(outbox)
      ensures Route(hostTx, clientTx).Success? && accepted ==>
        r == Success(()) && outbox == old(outbox) + [Outbound(Route(hostTx, clientTx).value, File(name, data))]
    {
      r := Send(File(name, data), accepted);
    }
  }
}
