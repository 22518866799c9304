/**
 * The display name a browsing device gives to a resolved service
 * (the `short` expression in `start_browse`), and the instance name a
 * hosting device advertises (`start_host`).
 */
module PeerNames {

  /** Every advertised instance name starts with this. */
  const ServicePrefix := "RemoteSync-"

  /** The mDNS service type both sides use. */
  const ServiceType := "_remotesync._tcp.local."

  /** The instance name `start_host` registers for a device called `hostName`. */
  function InstanceName(hostName: string): string {
    ServicePrefix + hostName
  }

  /**
   * The full service name under which the mDNS library reports an
   * instance: the instance name, a dot, and the service type.
   */
  function FullName(instance: string): string {
    instance + "." + ServiceType
  }

  /** Whether `p` is a prefix of `s`. */
  predicate StartsWith(s: string, p: string) {
    |p| <= |s| && s[..|p|] == p
  }

  /** `s.split('.').next()`: the part of `s` before its first dot (all of `s` without one). */
  function UpToDot(s: string): (r: string)
    ensures r <= s
    ensures '.' !in r
    ensures |r| < |s| ==> s[|r|] == '.'
  {
    if s == [] || s[0] == '.' then [] else [s[0]] + UpToDot(s[1..])
  }

  /**
   * The peer name shown for a service called `fullname`: with the prefix
   * stripped, the text up to the first dot; without the prefix, the full name.
   */
  function ShortName(fullname: string): (r: string)
    ensures StartsWith(fullname, ServicePrefix) ==>
      && StartsWith(fullname, ServicePrefix + r)
      && '.' !in r
      && (|ServicePrefix + r| < |fullname| ==> fullname[|ServicePrefix + r|] == '.')
    ensures !StartsWith(fullname, ServicePrefix) ==> r == fullname
  {
    if StartsWith(fullname, ServicePrefix) then UpToDot(fullname[|ServicePrefix|..]) else fullname
  }

  /** Appending a dot and anything after it does not change the part before the first dot. */
  lemma {:induction false} UpToDotOfDotted(s: string, rest: string)
    ensures UpToDot(s + "." + rest) == UpToDot(s)
  {
    if s != [] && s[0] != '.' {
      assert (s + "." + rest)[1..] == s[1..] + "." + rest;
      UpToDotOfDotted(s[1..], rest);
    }
  }

  /**
   * The name a browsing device shows for an advertising device is the
   * advertiser's host name up to its first dot, so exactly its host name
   * when that name has no dot: the short name inverts `InstanceName`
   * followed by `FullName`.
   */
  lemma ShortNameOfAdvertised(hostName: string)
    ensures ShortName(FullName(InstanceName(hostName))) == UpToDot(hostName)
    ensures '.' !in hostName ==> ShortName(FullName(InstanceName(hostName))) == hostName
  {
    var full := FullName(InstanceName(hostName));
    assert StartsWith(full, ServicePrefix);
    assert full[|ServicePrefix|..] == hostName + "." + ServiceType;
    UpToDotOfDotted(hostName, ServiceType);
  }
}
