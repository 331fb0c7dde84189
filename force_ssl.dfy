/** The forceSSL middleware: secure requests pass, insecure ones are
    redirected to the same host and URL over https. */
module ForceSsl {
  import opened JsValues
  import opened Http

  /** The parts of an Express request the middleware reads. */
  datatype SslRequest = SslRequest(secure: bool, hostname: string, url: string)

  const SecureScheme := "https://"

  /** The port suffix of the redirect target. The configured port is compared
      with `=== 443`, so only the number 443 drops it (the string "443" does not). */
  function PortPart(port: JsValue): (p: string)
    ensures p == "" <==> port == Num(443)
    ensures p != "" ==> p == ":" + ToJsString(port)
  {
    if port == Num(443) then "" else ":" + ToJsString(port)
  }

  /** `configPort` is `config.server.port`, fixed when the middleware is built. */
  function ForceSsl(configPort: JsValue, req: SslRequest): (a: Action)
    ensures req.secure <==> a.Next?
    ensures !req.secure ==> a.Redirect?
  {
    if !req.secure then
      Redirect(SecureScheme + req.hostname + PortPart(configPort) + req.url)
    else
      Next
  }

  /** The redirect target starts with the secure scheme, goes on with the
      request's own host name, and ends with the request's URL unchanged; in
      between is the port suffix, which is empty only for port 443. */
  lemma RedirectTarget(configPort: JsValue, req: SslRequest)
    requires !req.secure
    ensures var loc := ForceSsl(configPort, req).location;
      && |loc| == |SecureScheme| + |req.hostname| + |PortPart(configPort)| + |req.url|
      && loc[..|SecureScheme|] == "https://"
      && loc[|SecureScheme|..|SecureScheme| + |req.hostname|] == req.hostname
      && loc[|SecureScheme| + |req.hostname|..|loc| - |req.url|] == PortPart(configPort)
      && loc[|loc| - |req.url|..] == req.url
      && (configPort == Num(443) <==> |loc| == |SecureScheme| + |req.hostname| + |req.url|)
  {
    var host := SecureScheme + req.hostname;
    var head := host + PortPart(configPort);
    var loc := head + req.url;
    assert ForceSsl(configPort, req).location == loc;
    assert loc[|head|..] == req.url;
    assert loc[..|head|] == head;
    assert head[|host|..] == PortPart(configPort);
    assert loc[|host|..|head|] == head[|host|..];
    assert loc[..|host|] == host by {
      assert loc == host + (PortPart(configPort) + req.url);
    }
    assert host[..|SecureScheme|] == SecureScheme;
    assert host[|SecureScheme|..] == req.hostname;
    assert loc[..|SecureScheme|] == host[..|SecureScheme|];
    assert loc[|SecureScheme|..|host|] == host[|SecureScheme|..];
  }

  /** On the same host, two insecure requests are sent to the same target
      exactly when their URLs are equal. */
  lemma RedirectKeepsUrl(configPort: JsValue, a: SslRequest, b: SslRequest)
    requires !a.secure && !b.secure && a.hostname == b.hostname
    ensures ForceSsl(configPort, a) == ForceSsl(configPort, b) <==> a.url == b.url
  {
    var head := SecureScheme + a.hostname + PortPart(configPort);
    var la := ForceSsl(configPort, a).location;
    var lb := ForceSsl(configPort, b).location;
    assert la == head + a.url;
    assert lb == head + b.url;
    if la == lb {
      assert a.url == la[|head|..];
      assert b.url == lb[|head|..];
    }
  }
}
