/** connector/pkg/config/config.go: the checks and defaults of Load, from an unmarshalled file. */
module Config {
  import opened Protocol

  /** A Go int or time.Duration on a 64-bit machine. */
  type int64 = x: int | -0x8000_0000_0000_0000 <= x < 0x8000_0000_0000_0000

  datatype Gateway = Gateway(
    url: Bytes,
    minProtocol: int64,
    maxProtocol: int64,
    scopes: seq<Bytes>,
    locale: Bytes,
    userAgent: Bytes,
    challengeTimeoutSeconds: int64,
    reconnectInitialSeconds: int64,
    reconnectMaxSeconds: int64)

  datatype Config = Config(relayURL: Bytes, accessCode: Bytes, accessCodeHash: Bytes, gateway: Gateway)

  const DefaultURL: Bytes := "ws://127.0.0.1:18789"
  const DefaultScopes: seq<Bytes> := ["operator.read", "operator.write", "operator.admin"]
  const DefaultLocale: Bytes := "en-US"
  const DefaultUserAgent: Bytes := "openclaw-bridge-connector/0.1.0"

  /** The two things a configuration file cannot leave out. */
  predicate Loadable(raw: Config) {
    raw.relayURL != [] && (raw.accessCodeHash != [] || raw.accessCode != [])
  }

  function Given(value: Bytes, fallback: Bytes): Bytes {
    if value == [] then fallback else value
  }

  function Positive(value: int64, fallback: int64): int64 {
    if value <= 0 then fallback else value
  }

  function GatewayInForce(g: Gateway): Gateway {
    Gateway(Given(g.url, DefaultURL),
            Positive(g.minProtocol, 3),
            Positive(g.maxProtocol, Positive(g.minProtocol, 3)),
            if g.scopes == [] then DefaultScopes else g.scopes,
            Given(g.locale, DefaultLocale),
            Given(g.userAgent, DefaultUserAgent),
            Positive(g.challengeTimeoutSeconds, 8),
            Positive(g.reconnectInitialSeconds, 1),
            Positive(g.reconnectMaxSeconds, 30))
  }

  /** The configuration in force: what the file gives, and a default for the rest. */
  function InForce(raw: Config, hash: Bytes -> Bytes): Config {
    Config(raw.relayURL, raw.accessCode, Given(raw.accessCodeHash, hash(raw.accessCode)), GatewayInForce(raw.gateway))
  }

  /** `raw` is the file unmarshalled, if it could be read and parsed; `hash` is SHA-256 in hex. */
  method Load(raw: Option<Config>, hash: Bytes -> Bytes) returns (r: Result<Config>)
    ensures r.Ok? <==> raw.Some? && Loadable(raw.value)
    ensures r.Ok? ==> r.value == InForce(raw.value, hash)
  {
    hide GatewayInForce;
    if raw.None? {
      return Err;
    }
    var cfg := raw.value;
    if cfg.relayURL == [] {
      return Err;
    }
    if cfg.accessCodeHash == [] {
      if cfg.accessCode == [] {
        return Err;
      }
      cfg := cfg.(accessCodeHash := hash(cfg.accessCode));
    }
    var gateway := FillGateway(cfg.gateway);
    return Ok(cfg.(gateway := gateway));
  }

  /** The part of Load that assigns the gateway fields. */
  method FillGateway(given: Gateway) returns (g: Gateway)
    ensures g == GatewayInForce(given)
  {
    hide DefaultURL, DefaultScopes, DefaultLocale, DefaultUserAgent;
    g := given;
    if g.url == [] {
      g := g.(url := DefaultURL);
    }
    if g.minProtocol <= 0 {
      g := g.(minProtocol := 3);
    }
    if g.maxProtocol <= 0 {
      g := g.(maxProtocol := g.minProtocol);
    }
    assert g == GatewayInForce(given).(
                scopes := given.scopes, locale := given.locale, userAgent := given.userAgent,
                challengeTimeoutSeconds := given.challengeTimeoutSeconds,
                reconnectInitialSeconds := given.reconnectInitialSeconds,
                reconnectMaxSeconds := given.reconnectMaxSeconds);
    if |g.scopes| == 0 {
      g := g.(scopes := DefaultScopes);
    }
    if g.locale == [] {
      g := g.(locale := DefaultLocale);
    }
    if g.userAgent == [] {
      g := g.(userAgent := DefaultUserAgent);
    }
    assert g == GatewayInForce(given).(
                challengeTimeoutSeconds := given.challengeTimeoutSeconds,
                reconnectInitialSeconds := given.reconnectInitialSeconds,
                reconnectMaxSeconds := given.reconnectMaxSeconds);
    if g.challengeTimeoutSeconds <= 0 {
      g := g.(challengeTimeoutSeconds := 8);
    }
    if g.reconnectInitialSeconds <= 0 {
      g := g.(reconnectInitialSeconds := 1);
    }
    if g.reconnectMaxSeconds <= 0 {
      g := g.(reconnectMaxSeconds := 30);
    }
  }

  /** Nothing a later stage relies on is missing from a configuration in force. */
  predicate Complete(c: Config) {
    && c.relayURL != [] && c.gateway.url != [] && c.gateway.scopes != []
    && c.gateway.locale != [] && c.gateway.userAgent != []
    && c.gateway.minProtocol > 0 && c.gateway.maxProtocol > 0 && c.gateway.challengeTimeoutSeconds > 0
    && c.gateway.reconnectInitialSeconds > 0 && c.gateway.reconnectMaxSeconds > 0
  }

  /** A configuration in force is complete, and loading it again changes nothing. Load keeps a file
      as it is exactly when it is complete and names a hash. */
  lemma LoadedIsFixed(raw: Config, hash: Bytes -> Bytes)
    requires Loadable(raw)
    ensures Complete(InForce(raw, hash))
    ensures InForce(InForce(raw, hash), hash) == InForce(raw, hash)
    ensures InForce(raw, hash) == raw <==>
            Complete(raw) && (raw.accessCodeHash != [] || hash(raw.accessCode) == [])
  {
  }

  /** What is used for what the file leaves out; a maximum that is left out is the minimum in force. */
  lemma Defaults(raw: Config, hash: Bytes -> Bytes)
    ensures var given, g := raw.gateway, InForce(raw, hash).gateway;
            && g.url == (if given.url != [] then given.url else "ws://127.0.0.1:18789")
            && g.minProtocol == (if given.minProtocol > 0 then given.minProtocol else 3)
            && g.maxProtocol == (if given.maxProtocol > 0 then given.maxProtocol else g.minProtocol)
            && g.scopes == (if given.scopes != [] then given.scopes
                            else ["operator.read", "operator.write", "operator.admin"])
            && g.locale == (if given.locale != [] then given.locale else "en-US")
            && g.userAgent == (if given.userAgent != [] then given.userAgent else "openclaw-bridge-connector/0.1.0")
            && g.challengeTimeoutSeconds
               == (if given.challengeTimeoutSeconds > 0 then given.challengeTimeoutSeconds else 8)
            && g.reconnectInitialSeconds
               == (if given.reconnectInitialSeconds > 0 then given.reconnectInitialSeconds else 1)
            && g.reconnectMaxSeconds == (if given.reconnectMaxSeconds > 0 then given.reconnectMaxSeconds else 30)
            && InForce(raw, hash).accessCodeHash
               == if raw.accessCodeHash != [] then raw.accessCodeHash else hash(raw.accessCode)
  {
  }

  /** The protocol range in force is empty exactly when the file gives a positive maximum below
      the minimum in force: Load never compares the two. */
  lemma ProtocolRange(raw: Config, hash: Bytes -> Bytes)
    ensures var g := InForce(raw, hash).gateway;
            g.minProtocol <= g.maxProtocol <==>
            raw.gateway.maxProtocol <= 0 || g.minProtocol <= raw.gateway.maxProtocol
  {
  }
}
