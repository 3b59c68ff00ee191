/** The part of `status` that picks the monitored server from the list and
    turns it into the status text and the renderer's arguments. */
module Matcher {
  import opened Wrappers
  import opened Types
  import opened Tables
  import opened Decimal

  /** The `right_server` match: by exact name when a name is configured,
      otherwise by id when an id is configured, otherwise never. */
  function RightServer(cfg: Static, server: ServerInfo): (right: bool)
    ensures cfg.serverName.Some? ==> (right <==> server.name == cfg.serverName.value)
    ensures cfg.serverName.None? && cfg.serverId.Some? ==> (right <==> server.id == cfg.serverId.value)
    ensures cfg.serverName.None? && cfg.serverId.None? ==> !right
  {
    match cfg.serverName
    case Some(name) => server.name == name
    case None =>
      match cfg.serverId
      case Some(id) => server.id == id
      case None => false
  }

  /** The index of the first server in list order that is the right one. */
  function FirstMatch(servers: seq<ServerInfo>, cfg: Static): (r: Option<nat>)
    ensures r.Some? ==> r.value < |servers| && RightServer(cfg, servers[r.value])
    ensures r.Some? ==> forall j :: 0 <= j < r.value ==> !RightServer(cfg, servers[j])
    ensures r.None? ==> forall j :: 0 <= j < |servers| ==> !RightServer(cfg, servers[j])
  {
    if servers == [] then None
    else if RightServer(cfg, servers[0]) then Some(0)
    else match FirstMatch(servers[1..], cfg)
      case None => None
      case Some(i) => Some(i + 1)
  }

  /** The `for server in status.servers` scan, which stops at the first right
      server. */
  method FindServer(servers: seq<ServerInfo>, cfg: Static) returns (found: Option<nat>)
    ensures found.Some? ==> found.value < |servers| && RightServer(cfg, servers[found.value])
    ensures found.Some? ==> forall j :: 0 <= j < found.value ==> !RightServer(cfg, servers[j])
    ensures found.None? ==> forall j :: 0 <= j < |servers| ==> !RightServer(cfg, servers[j])
    ensures found == FirstMatch(servers, cfg)
  {
    var i := 0;
    while i < |servers|
      invariant 0 <= i <= |servers|
      invariant forall j :: 0 <= j < i ==> !RightServer(cfg, servers[j])
    {
      if RightServer(cfg, servers[i]) {
        return Some(i);
      }
      i := i + 1;
    }
    return None;
  }

  /** When a name is configured, ids are never compared: the choice depends
      only on the servers' names, and the configured id plays no part. */
  lemma {:induction false} NameIgnoresIds(servers: seq<ServerInfo>, others: seq<ServerInfo>, cfg: Static, id: Option<i64>)
    requires cfg.serverName.Some?
    requires |servers| == |others|
    requires forall j :: 0 <= j < |servers| ==> servers[j].name == others[j].name
    ensures FirstMatch(servers, cfg) == FirstMatch(others, cfg.(serverId := id))
  {
    if servers != [] {
      NameIgnoresIds(servers[1..], others[1..], cfg, id);
    }
  }

  /** With neither a name nor an id configured no server is ever chosen. */
  lemma {:induction false} NoTargetChoosesNothing(servers: seq<ServerInfo>, cfg: Static)
    requires cfg.serverName.None? && cfg.serverId.None?
    ensures FirstMatch(servers, cfg) == None
  {
    if servers != [] {
      NoTargetChoosesNothing(servers[1..], cfg);
    }
  }

  /** Where the text after the last '/' starts: one past the last '/', or 0
      when there is none. */
  function SegmentStart(s: string): (i: nat)
    ensures i <= |s|
    ensures forall k :: i <= k < |s| ==> s[k] != '/'
    ensures i > 0 ==> s[i - 1] == '/'
    decreases |s|
  {
    if s == [] then 0
    else if s[|s| - 1] == '/' then |s|
    else SegmentStart(s[..|s| - 1])
  }

  /** The regex `[^\/]+$` has a match in s that starts at i: from i to the end
      there is at least one character and no '/'. */
  ghost predicate PatternMatchesFrom(s: string, i: int) {
    0 <= i < |s| && forall k :: i <= k < |s| ==> s[k] != '/'
  }

  /** The map key: the part of mapName after the last '/', when that part is
      not empty; otherwise (no match of the regex) the whole of mapName. */
  function MapKey(mapName: string): (key: string)
    ensures |key| <= |mapName| && key == mapName[|mapName| - |key|..]
    ensures mapName == [] || mapName[|mapName| - 1] == '/' ==> key == mapName
    ensures (forall k :: 0 <= k < |mapName| ==> mapName[k] != '/') ==> key == mapName
    ensures mapName != [] && mapName[|mapName| - 1] != '/' ==>
      key != [] && (forall k :: 0 <= k < |key| ==> key[k] != '/') &&
      (|key| == |mapName| || mapName[|mapName| - |key| - 1] == '/')
  {
    var start := SegmentStart(mapName);
    if start < |mapName| then mapName[start..] else mapName
  }

  /** MapKey is what `Regex::find` with `[^\/]+$` gives: the regex matches
      exactly when mapName is not empty and does not end in '/', its leftmost
      match starts where MapKey's key does, and without a match the key is
      the whole text. */
  lemma MapKeyIsLeftmostMatch(mapName: string)
    ensures (exists i :: PatternMatchesFrom(mapName, i)) <==> mapName != [] && mapName[|mapName| - 1] != '/'
    ensures forall i :: PatternMatchesFrom(mapName, i) ==> SegmentStart(mapName) <= i
    ensures mapName != [] && mapName[|mapName| - 1] != '/' ==>
      PatternMatchesFrom(mapName, SegmentStart(mapName)) && MapKey(mapName) == mapName[SegmentStart(mapName)..]
    ensures (forall i :: !PatternMatchesFrom(mapName, i)) ==> MapKey(mapName) == mapName
  {
    var start := SegmentStart(mapName);
    if mapName != [] && mapName[|mapName| - 1] != '/' {
      assert PatternMatchesFrom(mapName, start);
    }
  }

  /** The key of a path is its last segment, whatever comes before the last '/'. */
  lemma MapKeyOfPath(prefix: string, segment: string)
    requires segment != [] && forall k :: 0 <= k < |segment| ==> segment[k] != '/'
    ensures MapKey(prefix + "/" + segment) == segment
  {
    var path := prefix + "/" + segment;
    var key := MapKey(path);
    var n, len := |path|, |segment|;
    assert path[n - len - 1] == '/';
    assert forall k :: n - len <= k < n ==> path[k] == segment[k - (n - len)];
    assert path[n - len..] == segment;
  }

  lemma MapKeyExamples()
    ensures MapKey("Xpack2/Levels/MP/MP_Bridge/MP_Bridge") == "MP_Bridge"
    ensures MapKey("MP_Bridge") == "MP_Bridge"
    ensures MapKey("Levels/") == "Levels/"
    ensures MapKey("") == ""
  {
    MapKeyOfPath("Xpack2/Levels/MP/MP_Bridge", "MP_Bridge");
    assert "Xpack2/Levels/MP/MP_Bridge/MP_Bridge" == "Xpack2/Levels/MP/MP_Bridge" + "/" + "MP_Bridge";
  }

  /** `format!("{}/{} - {}", current_players, max_players, display)` where
      display is the table's name for the map key, or the key itself. */
  function StatusText(tables: LookupTables, server: ServerInfo): string {
    Format(server.currentPlayers as int) + "/" + Format(server.maxPlayers as int) + " - "
      + DisplayName(tables, MapKey(server.mapName))
  }

  /** The text handed to the renderer: the abbreviation of the raw gameMode
      (not of an extracted key) and the map art of the map key. */
  function RenderArguments(tables: LookupTables, server: ServerInfo): (args: (string, string))
    ensures args.0 == (if server.gameMode in tables.modes then tables.modes[server.gameMode] else "")
    ensures var key := MapKey(server.mapName);
      args.1 == (if key in tables.images then tables.images[key] else key)
  {
    (ModeAbbreviation(tables, server.gameMode), ImageUrl(tables, MapKey(server.mapName)))
  }

  /** The three parts of a status text. */
  datatype StatusLine = StatusLine(current: int, max: int, display: string)

  /** The index of the first c in s, or |s| when there is none. */
  function IndexOf(s: string, c: char): (i: nat)
    ensures i <= |s|
    ensures forall k :: 0 <= k < i ==> s[k] != c
    ensures i < |s| ==> s[i] == c
  {
    if s == [] then 0 else if s[0] == c then 0 else IndexOf(s[1..], c) + 1
  }

  /** Reads a status text back: the number before the first '/', the number
      before the next ' ', then " - " and the map's display name. */
  function ParseStatusText(text: string): Option<StatusLine> {
    var slash := IndexOf(text, '/');
    if slash == |text| then None
    else
      var rest := text[slash + 1..];
      var space := IndexOf(rest, ' ');
      if space + 3 > |rest| || rest[space..space + 3] != " - " then None
      else
        match (ParseInt(text[..slash]), ParseInt(rest[..space]))
        case (Some(current), Some(max)) => Some(StatusLine(current, max, rest[space + 3..]))
        case _ => None
  }

  lemma {:induction false} IndexOfBoundary(a: string, rest: string, c: char)
    requires forall k :: 0 <= k < |a| ==> a[k] != c
    requires rest != [] && rest[0] == c
    ensures IndexOf(a + rest, c) == |a|
  {
    if a != [] {
      assert (a + rest)[1..] == a[1..] + rest;
      IndexOfBoundary(a[1..], rest, c);
    }
  }

  /** Format never writes a character other than a digit or '-'. */
  lemma FormatAvoids(n: int, c: char)
    requires !IsDigit(c) && c != '-'
    ensures forall k :: 0 <= k < |Format(n)| ==> Format(n)[k] != c
  {
    FormatCharacters(n);
  }

  lemma ParseComposed(current: int, max: int, display: string)
    ensures ParseStatusText(Format(current) + "/" + Format(max) + " - " + display) ==
      Some(StatusLine(current, max, display))
  {
    var c, m := Format(current), Format(max);
    var text := c + "/" + m + " - " + display;
    FormatAvoids(current, '/');
    FormatRoundTrip(current);
    FormatRoundTrip(max);
    var tail := "/" + m + " - " + display;
    assert text == c + tail;
    IndexOfBoundary(c, tail, '/');
    assert text[..|c|] == c;
    assert text[|c| + 1..] == m + " - " + display;
    AfterSlash(max, display);
  }

  /** The text after the slash splits at its first space into the maximum and
      the display. */
  lemma AfterSlash(max: int, display: string)
    ensures var m := Format(max);
      var rest := m + " - " + display;
      && IndexOf(rest, ' ') == |m| && |m| + 3 <= |rest|
      && rest[..|m|] == m && rest[|m|..|m| + 3] == " - " && rest[|m| + 3..] == display
  {
    var m := Format(max);
    FormatAvoids(max, ' ');
    var rest := m + " - " + display;
    assert rest == m + (" - " + display);
    IndexOfBoundary(m, " - " + display, ' ');
  }

  /** A status text names the players and the map unambiguously: it reads back
      as the current and maximum player counts and the display name (the
      table's name for the map key, or the key itself when the table has none). */
  lemma StatusTextRoundTrip(tables: LookupTables, server: ServerInfo)
    ensures ParseStatusText(StatusText(tables, server)) ==
      Some(StatusLine(server.currentPlayers as int, server.maxPlayers as int, DisplayName(tables, MapKey(server.mapName))))
  {
    ParseComposed(server.currentPlayers as int, server.maxPlayers as int, DisplayName(tables, MapKey(server.mapName)));
  }
}
