/** Configuration constants and the IP lookups that depend on them. */
module Config {
  import opened Common

  /** `API_BASE_URL` when the environment does not set it. */
  const DEFAULT_API_BASE_URL: string := "http://localhost:8000"

  /** `HEARTBEAT_MINS` when the environment does not set it. */
  const DEFAULT_HEARTBEAT_MINS: int := 3

  const LOOPBACK: string := "127.0.0.1"

  /** `DEBUG` as configured in the PySide client. */
  const PYSIDE_DEBUG: bool := true

  /** `HEARTBEAT_MS = HEARTBEAT_MINS * 60 * 1000`: whole minutes as milliseconds for `root.after`. */
  function HeartbeatMs(mins: int): (ms: int)
    ensures ms % 60000 == 0 && ms / 60000 == mins
    ensures mins > 0 ==> ms >= 60000
  {
    mins * 60 * 1000
  }

  lemma DefaultHeartbeatIsThreeMinutes()
    ensures HeartbeatMs(DEFAULT_HEARTBEAT_MINS) == 180000
  {
  }

  /** The result of the `https://api.ipify.org` request. */
  datatype IpLookup = Fetched(text: string) | RequestFailed

  /**
   * `get_external_ip`: the local backend URL short-circuits to the loopback
   * address; otherwise the lookup's text, or `None` when the request fails.
   */
  function ExternalIp(apiBaseUrl: string, lookup: IpLookup): (ip: Option<string>)
    ensures apiBaseUrl == DEFAULT_API_BASE_URL ==> ip == Some(LOOPBACK)
    ensures apiBaseUrl != DEFAULT_API_BASE_URL && lookup.Fetched? ==> ip == Some(lookup.text)
    ensures apiBaseUrl != DEFAULT_API_BASE_URL && lookup.RequestFailed? ==> ip == None
  {
    if apiBaseUrl == DEFAULT_API_BASE_URL then Some(LOOPBACK)
    else match lookup
      case Fetched(text) => Some(text)
      case RequestFailed => None
  }

  /** With the local backend, the public lookup's result is never used. */
  lemma LocalBackendIgnoresLookup(a: IpLookup, b: IpLookup)
    ensures ExternalIp(DEFAULT_API_BASE_URL, a) == ExternalIp(DEFAULT_API_BASE_URL, b)
  {
  }

  /** `get_local_ip` of the PySide client: loopback under DEBUG, else the resolved host address. */
  function LocalIp(debug: bool, resolved: string): (ip: string)
    ensures debug ==> ip == LOOPBACK
    ensures !debug ==> ip == resolved
  {
    if debug then LOOPBACK else resolved
  }
}
