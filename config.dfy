/**
 * Config of client.go: the caller's settings and the fallback rules that
 * resolve them. A Config is held by reference, so every getter reads the
 * fields as they are when it is called.
 */
module Configs {
  import opened Options
  import opened Wire
  import opened Logging

  const DefaultProtocol := "https"
  const DefaultUserAgent := "go.charbar.io/gomts"
  const DefaultHost := "api.mytimestation.com"
  const DefaultAPIVersion := "v1.2"
  const AuthTokenEnvVar := "MTS_AUTH_TOKEN"

  /** The base URL of a Config whose protocol, host and version are unset. */
  const DefaultBaseURL := "https://api.mytimestation.com/v1.2"

  /** `<p>://<h>/<v>` holds `h` right after the `://`, then a `/`. */
  lemma JoinedHoldsHost(p: string, h: string, v: string)
    ensures (p + "://" + h + "/" + v)[|p| + 3..][..|h|] == h
    ensures (p + "://" + h + "/" + v)[|p| + 3 + |h|] == '/'
  {
    var tail := h + "/" + v;
    assert p + "://" + h + "/" + v == (p + "://") + tail;
    assert (p + "://" + h + "/" + v)[|p| + 3..] == tail;
    assert tail[..|h|] == h;
  }

  class Config {
    var protocol: string
    var userAgent: string
    var host: string
    var apiVersion: string
    var debug: bool
    var authToken: string
    var transport: Option<RoundTripper>   // nil: http.DefaultTransport
    var logHandler: Option<Handler>       // nil: a text handler on stderr

    /** new(Config): every field at its zero value. */
    constructor ()
      ensures protocol == "" && userAgent == "" && host == "" && apiVersion == ""
      ensures !debug && authToken == "" && transport == None && logHandler == None
    {
      protocol, userAgent, host, apiVersion := "", "", "", "";
      debug, authToken, transport, logHandler := false, "", None, None;
    }

    /** The explicit token, else $MTS_AUTH_TOKEN; empty only when both are. */
    function GetAuthToken(env: Environment): (r: string)
      reads this
      ensures authToken != "" ==> r == authToken
      ensures authToken == "" ==> r == Getenv(env, AuthTokenEnvVar)
      ensures r == "" <==> authToken == "" && Getenv(env, AuthTokenEnvVar) == ""
    {
      if authToken == "" then Getenv(env, AuthTokenEnvVar) else authToken
    }

    /**
     * The user agent. The fallback is keyed on the auth token field, not on
     * the user agent field: with no explicit token the default is used even
     * when a user agent is configured, and with one the configured user
     * agent is used even when it is empty.
     */
    function GetUserAgent(): (r: string)
      reads this
      ensures authToken == "" ==> r == DefaultUserAgent
      ensures authToken != "" ==> r == userAgent
    {
      if authToken == "" then DefaultUserAgent else userAgent
    }

    function GetProtocol(): (r: string)
      reads this
      ensures r != ""
      ensures protocol != "" ==> r == protocol
      ensures protocol == "" ==> r == DefaultProtocol
    {
      if protocol == "" then DefaultProtocol else protocol
    }

    function GetAPIVersion(): (r: string)
      reads this
      ensures r != ""
      ensures apiVersion != "" ==> r == apiVersion
      ensures apiVersion == "" ==> r == DefaultAPIVersion
    {
      if apiVersion == "" then DefaultAPIVersion else apiVersion
    }

    function GetHost(): (r: string)
      reads this
      ensures r != ""
      ensures host != "" ==> r == host
      ensures host == "" ==> r == DefaultHost
    {
      if host == "" then DefaultHost else host
    }

    /** `<protocol>://<host>/<version>` of the resolved settings. */
    function GetBaseURL(): (r: string)
      reads this
      ensures |r| == |GetProtocol()| + |GetHost()| + |GetAPIVersion()| + 4
      ensures r[..|GetProtocol()| + 3] == GetProtocol() + "://"
      ensures r[|r| - |GetAPIVersion()|..] == GetAPIVersion()
    {
      GetProtocol() + "://" + GetHost() + "/" + GetAPIVersion()
    }

    /** Between the `://` and the version, the base URL holds the host and then one `/`. */
    lemma BaseURLHoldsHost()
      ensures GetBaseURL()[|GetProtocol()| + 3..][..|GetHost()|] == GetHost()
      ensures GetBaseURL()[|GetProtocol()| + 3 + |GetHost()|] == '/'
    {
      JoinedHoldsHost(GetProtocol(), GetHost(), GetAPIVersion());
    }

    /**
     * The logger built from the configured handler, else from the default
     * text handler `stderr`; level filtering is not modelled.
     */
    function GetLogger(stderr: Handler): (r: Logger)
      reads this
      ensures logHandler.Some? ==> r.handler == logHandler.value
      ensures logHandler.None? ==> r.handler == stderr
      ensures r.groups == [] && r.attrs == []
    {
      match logHandler
      case Some(h) => Logger(h, [], [])
      case None => Logger(stderr, [], [])
    }
  }

  /** A Config with no protocol, host or version yields the production base URL. */
  lemma ZeroConfigBaseURL(c: Config)
    requires c.protocol == "" && c.host == "" && c.apiVersion == ""
    ensures c.GetBaseURL() == DefaultBaseURL
  {
  }
}
