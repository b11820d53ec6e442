/** Configuration accepted by the websocket middleware constructor `New`,
    and the defaulting `New` applies to it before building the handler. */
module WsConfig {

  /** The middleware's configuration record. `handshakeTimeout` is a duration
      in nanoseconds. Every field except `origins` is carried through
      resolution without being consulted. */
  datatype Config = Config(
    handshakeTimeout: int,
    subprotocols: seq<string>,
    origins: seq<string>,
    readBufferSize: int,
    writeBufferSize: int,
    enableCompression: bool)

  /** The zero value of the record, used when the caller passes no config. */
  const ZeroConfig: Config := Config(0, [], [], 0, 0, false)

  /** The origin list standing for "accept every origin". */
  const Wildcard: seq<string> := ["*"]

  /** The config `New` uses: the first of the optional configs (or the zero
      config when there is none), with an empty origin list replaced by the
      wildcard. Later configs are ignored. */
  function ResolveConfig(configs: seq<Config>): (cfg: Config)
    ensures cfg.origins != []
    ensures configs == [] ==> cfg == ZeroConfig.(origins := Wildcard)
    ensures configs != [] && configs[0].origins != [] ==> cfg == configs[0]
    ensures configs != [] && configs[0].origins == [] ==> cfg == configs[0].(origins := Wildcard)
  {
    var base := if |configs| > 0 then configs[0] else ZeroConfig;
    if |base.origins| == 0 then base.(origins := Wildcard) else base
  }

  /** Only the first supplied config matters: appending more changes nothing. */
  lemma ResolveConfigUsesFirstOnly(configs: seq<Config>, more: seq<Config>)
    requires configs != []
    ensures ResolveConfig(configs + more) == ResolveConfig(configs[..1])
  {
  }
}
