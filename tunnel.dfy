/**
 * The tunnel records: the connection status set by the tunnel route and the
 * persisted configuration (auth token and local port), with the webhook URL
 * and the "can connect" flag derived from them. Local storage and the
 * process that runs the tunnel are outside the model.
 */
module Tunnel {
  import opened Wrappers
  import opened Text

  /** `TunnelStatus`: the optional fields are absent as `None`. */
  datatype TunnelStatus = TunnelStatus(
    connected: bool,
    publicUrl: Option<string>,
    localPort: Option<int>,
    error: Option<string>)

  /** `TunnelConfig` */
  datatype TunnelConfig = TunnelConfig(authtoken: string, port: int)

  /** The status store's initial value `{ connected: false }`. */
  const InitialStatus := TunnelStatus(false, None, None, None)

  /** The configuration `reset` and a missing stored configuration yield. */
  const DefaultConfig := TunnelConfig("", 8000)

  /** A connected status has a URL and a port and no error. */
  predicate Coherent(s: TunnelStatus) {
    s.connected ==> s.publicUrl.Some? && s.localPort.Some? && s.error.None?
  }

  /** `setConnected`: the whole status is replaced. */
  function SetConnected(publicUrl: string, localPort: int): (r: TunnelStatus)
    ensures r.connected && r.publicUrl == Some(publicUrl) && r.localPort == Some(localPort) && r.error.None?
    ensures Coherent(r)
  {
    TunnelStatus(true, Some(publicUrl), Some(localPort), None)
  }

  /** `setDisconnected`: back to `{ connected: false }`. */
  function SetDisconnected(): (r: TunnelStatus)
    ensures !r.connected && r.publicUrl.None? && r.localPort.None? && r.error.None?
    ensures r == InitialStatus && Coherent(r)
  {
    TunnelStatus(false, None, None, None)
  }

  /** `setError`: disconnected with the error recorded; the URL and port are kept. */
  function SetError(s: TunnelStatus, error: string): (r: TunnelStatus)
    ensures !r.connected && r.error == Some(error)
    ensures r.publicUrl == s.publicUrl && r.localPort == s.localPort
    ensures Coherent(r)
  {
    s.(connected := false, error := Some(error))
  }

  /** `clearError`: the error is removed and nothing else changes. */
  function ClearError(s: TunnelStatus): (r: TunnelStatus)
    ensures r.error.None?
    ensures r.connected == s.connected && r.publicUrl == s.publicUrl && r.localPort == s.localPort
    ensures Coherent(s) ==> Coherent(r)
  {
    s.(error := None)
  }

  /** Clearing twice is clearing once; clearing after an error leaves a disconnected status with the URL and port kept. */
  lemma ClearErrorProperties(s: TunnelStatus, e: string)
    ensures ClearError(ClearError(s)) == ClearError(s)
    ensures ClearError(SetError(s, e)) == TunnelStatus(false, s.publicUrl, s.localPort, None)
    ensures s.error.None? ==> ClearError(s) == s
  {
  }

  /** `webhookUrl`: the public URL followed by `/api/webhook`, while connected with a non-empty URL. */
  function WebhookUrl(s: TunnelStatus): (r: Option<string>)
    ensures r.Some? <==> s.connected && s.publicUrl.Some? && s.publicUrl.value != ""
    ensures r.Some? ==> StartsWith(r.value, s.publicUrl.value) && EndsWith(r.value, "/api/webhook")
    ensures r.Some? ==> |r.value| == |s.publicUrl.value| + 12
  {
    if !s.connected || s.publicUrl.None? || s.publicUrl.value == "" then None
    else
      var url := s.publicUrl.value + "/api/webhook";
      assert url[..|s.publicUrl.value|] == s.publicUrl.value;
      assert url[|url| - 12..] == "/api/webhook";
      Some(url)
  }

  /** The webhook URL follows the status transitions: present after connecting to a non-empty URL, gone after an error or a disconnect. */
  lemma WebhookUrlTransitions(s: TunnelStatus, url: string, port: int, e: string)
    ensures url != "" ==> WebhookUrl(SetConnected(url, port)) == Some(url + "/api/webhook")
    ensures url == "" ==> WebhookUrl(SetConnected(url, port)).None?
    ensures WebhookUrl(SetError(s, e)).None?
    ensures WebhookUrl(SetDisconnected()).None?
    ensures WebhookUrl(ClearError(s)) == WebhookUrl(s)
  {
  }

  /** `canConnect`: a non-empty auth token and a port in 1..65535. */
  function CanConnect(c: TunnelConfig): (r: bool)
    ensures r <==> c.authtoken != "" && 0 < c.port < 65536
  {
    |c.authtoken| > 0 && c.port > 0 && c.port < 65536
  }

  /** `setAuthtoken`: only the token changes. */
  function SetAuthtoken(c: TunnelConfig, authtoken: string): (r: TunnelConfig)
    ensures r.authtoken == authtoken && r.port == c.port
  {
    c.(authtoken := authtoken)
  }

  /** `setPort`: only the port changes; it is stored unchecked. */
  function SetPort(c: TunnelConfig, port: int): (r: TunnelConfig)
    ensures r.port == port && r.authtoken == c.authtoken
  {
    c.(port := port)
  }

  /** `reset`: empty token and port 8000, whatever was there. */
  function ResetConfig(c: TunnelConfig): (r: TunnelConfig)
    ensures r.authtoken == "" && r.port == 8000
    ensures !CanConnect(r)
  {
    DefaultConfig
  }

  /** After a reset, setting a token is enough to connect: the default port is valid. */
  lemma ResetThenToken(c: TunnelConfig, token: string)
    ensures CanConnect(SetAuthtoken(ResetConfig(c), token)) <==> token != ""
    ensures !CanConnect(SetPort(c, 0)) && !CanConnect(SetPort(c, 65536))
  {
  }
}
