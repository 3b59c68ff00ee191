/** The records the bot reads: one server entry of the public server list
    (`MarneServerInfo`) and the configuration (`Static`). */
module Types {
  import opened Wrappers

  /** Rust's i64; serde rejects a JSON number outside this range. */
  newtype i64 = x: int | -0x8000_0000_0000_0000 <= x < 0x8000_0000_0000_0000

  /** One entry of the server list. The JSON names of mapName, gameMode,
      maxPlayers, tickRate, needSameMods, allowMoreMods and currentPlayers
      are camel case; every other field has its own name. */
  datatype ServerInfo = ServerInfo(
    id: i64,
    name: string,
    mapName: string,
    gameMode: string,
    maxPlayers: i64,
    tickRate: i64,
    password: i64,
    needSameMods: i64,
    allowMoreMods: i64,
    currentPlayers: i64,
    region: string,
    country: string)

  /** The configuration. The bot token only logs the client in, which is not
      part of this model, so it is not a field here. */
  datatype Static = Static(
    serverName: Option<string>,
    serverId: Option<i64>,
    game: Option<string>)
}
