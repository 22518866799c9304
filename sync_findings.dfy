/**
 * Two places where the start commands swap their flag on before the setup
 * steps that can fail, and return the setup error without swapping it back.
 * Each as-written run below uses the commands as the session state models
 * them; each fixed run uses the variant that releases the flag.
 */
module SyncFindings {
  import opened Wrappers
  import SyncSession

  /**
   * `start_host` whose listener bind (or daemon, service or registration
   * step) fails with `e`, then a retry whose setup would succeed: the retry
   * is refused because HOSTING is still set, although nothing was
   * registered and no host task runs that could clear it (`live` is false).
   */
  method HostRetryAfterSetupFailure(e: string)
    returns (first: Result<(), string>, second: Result<(), string>, flagSet: bool, advertised: bool, ghost live: bool)
    ensures first == Failure(e)
    ensures second == Failure("Already hosting")
    ensures flagSet && !advertised && !live
  {
    var s := new SyncSession.SyncState();
    first := s.StartHost(None, None, Some(e));
    second := s.StartHost(None, None, None);
    flagSet, advertised := s.hosting, s.serviceInfo.Some?;
    live := s.HostingLive();
  }

  /** The same two calls when a failed setup releases HOSTING: the retry registers the service. */
  method HostRetryAfterSetupFailureFixed(e: string)
    returns (first: Result<(), string>, second: Result<(), string>, flagSet: bool, advertised: bool, ghost live: bool)
    ensures first == Failure(e)
    ensures second == Success(())
    ensures flagSet && advertised && live
  {
    var s := new SyncSession.SyncState();
    first := s.StartHostReleasingFlag(None, None, Some(e));
    second := s.StartHostReleasingFlag(None, None, None);
    flagSet, advertised := s.hosting, s.serviceInfo.Some?;
    live := s.HostingLive();
  }

  /**
   * `start_browse` whose daemon or browse step fails with `e`, then a
   * retry: the retry reports success but stores no receiver and spawns no
   * browse thread, so no peer list ever arrives.
   */
  method BrowseRetryAfterSetupFailure(e: string) returns (first: Result<(), string>, second: Result<(), string>, receiver: bool)
    ensures first == Failure(e)
    ensures second == Success(())
    ensures !receiver
  {
    var s := new SyncSession.SyncState();
    first := s.StartBrowse(Some(e));
    second := s.StartBrowse(None);
    receiver := s.browseReceiver;
  }

  /** The same two calls when a failed setup releases BROWSING: the retry stores the receiver. */
  method BrowseRetryAfterSetupFailureFixed(e: string) returns (first: Result<(), string>, second: Result<(), string>, receiver: bool)
    ensures first == Failure(e)
    ensures second == Success(())
    ensures receiver
  {
    var s := new SyncSession.SyncState();
    first := s.StartBrowseReleasingFlag(Some(e));
    second := s.StartBrowseReleasingFlag(None);
    receiver := s.browseReceiver;
  }
}
