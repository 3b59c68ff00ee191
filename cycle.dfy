/** One pass of the poll loop: `status` followed by the liveness write, told
    as the sequence of calls the bot makes to the outside world. The Discord
    client, the HTTP client, the JSON decoder and the image renderer are not
    modelled; what they answered is the input (a World and the decoder). The
    lookup tables are a parameter; the source always uses SourceTables. */
module Cycle {
  import opened Wrappers
  import opened Utf8
  import opened Types
  import opened Tables
  import opened Poller
  import opened Matcher
  import opened Liveness

  /** A call to the outside world. */
  datatype Effect =
    | Fetch(url: string)                         // GET of the server list
    | SetActivity(text: string)                  // ctx.set_activity
    | Render(mode: string, imageUrl: string)     // gen_img
    | SetAvatar(path: string)                    // EditProfile with the rendered image
    | StoreLastUpdate(minute: i64)               // last_update.store

  datatype StatusError = GetFailed(error: GetError) | NotFound | RenderFailed

  /** How `status` ended: Ok, an error (which the loop logs), or a panic,
      which ends the spawned task that runs the loop. */
  datatype Outcome = Ok | Err(error: StatusError) | Panic

  datatype StatusRun = StatusRun(outcome: Outcome, effects: seq<Effect>)

  /** What the outside world answered during one cycle: the server list
      response, whether gen_img succeeded, whether the rendered file could be
      read back for the avatar (the source panics when it cannot), and the
      clock when the loop stores the liveness minute. */
  datatype World = World(response: Response, rendered: bool, avatarReadable: bool, nowSecs: i64)

  type Decoder = seq<byte> -> Option<seq<ServerInfo>>

  /** `¯\_(ツ)_/¯ server not found`. */
  const FallbackText := "\U{00AF}\\_(\U{30C4})_/\U{00AF} server not found"

  /** Where gen_img writes the composited image. */
  const ImagePath := "./map_mode.jpg"

  predicate NoStore(effects: seq<Effect>) {
    forall e :: e in effects ==> !e.StoreLastUpdate?
  }

  /** The calls of a cycle that found its server, up to the render: the
      status text is published before the image is rendered. */
  function Shown(cfg: Static, tables: LookupTables, server: ServerInfo): (effects: seq<Effect>)
    ensures NoStore(effects)
  {
    var args := RenderArguments(tables, server);
    [Fetch(Endpoint(GameOrDefault(cfg.game))), SetActivity(StatusText(tables, server)), Render(args.0, args.1)]
  }

  /** The `if right_server { ... }` block: publish the text, render, set the
      avatar; a failed render returns early (`?`), an unreadable image panics
      (`expect`). The result of the avatar edit is ignored. */
  function Publish(cfg: Static, tables: LookupTables, server: ServerInfo, world: World): (run: StatusRun)
    ensures NoStore(run.effects)
  {
    var shown := Shown(cfg, tables, server);
    if !world.rendered then StatusRun(Err(RenderFailed), shown)
    else if !world.avatarReadable then StatusRun(Panic, shown)
    else StatusRun(Ok, shown + [SetAvatar(ImagePath)])
  }

  /** `status(ctx, statics)`: it always starts by fetching the configured
      game's list and never writes the liveness state itself. */
  function Status(cfg: Static, tables: LookupTables, world: World, parse: Decoder): (run: StatusRun)
    requires WellFormed(world.response)
    ensures run.effects != [] && run.effects[0] == Fetch(Endpoint(GameOrDefault(cfg.game)))
    ensures NoStore(run.effects)
  {
    var fetch := [Fetch(Endpoint(GameOrDefault(cfg.game)))];
    match Get(world.response, parse)
    case Panicked => StatusRun(Panic, fetch)
    case Failed(e) => StatusRun(Err(GetFailed(e)), fetch + [SetActivity(FallbackText)])
    case Fetched(servers) =>
      match FirstMatch(servers, cfg)
      case None => StatusRun(Err(NotFound), fetch)
      case Some(i) => Publish(cfg, tables, servers[i], world)
  }

  /** The monitored server of a fetched list, when there is one. */
  function Chosen(cfg: Static, world: World, parse: Decoder): Option<ServerInfo>
    requires WellFormed(world.response)
  {
    var got := Get(world.response, parse);
    if got.Fetched? && FirstMatch(got.servers, cfg).Some? then Some(got.servers[FirstMatch(got.servers, cfg).value])
    else None
  }

  datatype CycleRun = CycleRun(effects: seq<Effect>, alive: bool)

  /** One iteration of the loop: `status`, then, success or failure, the
      liveness write. After a panic the task is gone and nothing follows. */
  function RunCycle(cfg: Static, tables: LookupTables, world: World, parse: Decoder): CycleRun
    requires WellFormed(world.response)
  {
    var run := Status(cfg, tables, world, parse);
    if run.outcome.Panic? then CycleRun(run.effects, false)
    else CycleRun(run.effects + [StoreLastUpdate(EpochMinute(world.nowSecs))], true)
  }

  /** The minutes stored by the liveness writes among a sequence of calls, in order. */
  function StoredMinutes(effects: seq<Effect>): seq<i64> {
    if effects == [] then []
    else (if effects[0].StoreLastUpdate? then [effects[0].minute] else []) + StoredMinutes(effects[1..])
  }

  /** The number of liveness writes among a sequence of calls. */
  function Stores(effects: seq<Effect>): nat {
    |StoredMinutes(effects)|
  }

  lemma {:induction false} StoredMinutesAppend(a: seq<Effect>, b: seq<Effect>)
    ensures StoredMinutes(a + b) == StoredMinutes(a) + StoredMinutes(b)
  {
    if a == [] {
      assert a + b == b;
    } else {
      assert (a + b)[1..] == a[1..] + b;
      StoredMinutesAppend(a[1..], b);
    }
  }

  lemma {:induction false} StoredMinutesNone(effects: seq<Effect>)
    requires NoStore(effects)
    ensures StoredMinutes(effects) == []
  {
    if effects != [] {
      assert effects[0] in effects;
      assert forall e :: e in effects[1..] ==> e in effects;
      StoredMinutesNone(effects[1..]);
    }
  }

  /** Every cycle that does not panic ends with exactly one liveness write, of
      the current minute, whatever `status` returned; a panicking cycle writes
      nothing. */
  lemma CycleStoresOnce(cfg: Static, tables: LookupTables, world: World, parse: Decoder)
    requires WellFormed(world.response)
    ensures var run := Status(cfg, tables, world, parse);
      var cycle := RunCycle(cfg, tables, world, parse);
      && (cycle.alive <==> !run.outcome.Panic?)
      && (cycle.alive ==> cycle.effects == run.effects + [StoreLastUpdate(EpochMinute(world.nowSecs))])
      && StoredMinutes(cycle.effects) == (if cycle.alive then [EpochMinute(world.nowSecs)] else [])
      && Stores(cycle.effects) == (if cycle.alive then 1 else 0)
  {
    var run := Status(cfg, tables, world, parse);
    StoredMinutesNone(run.effects);
    StoredMinutesAppend(run.effects, [StoreLastUpdate(EpochMinute(world.nowSecs))]);
    assert StoredMinutes([StoreLastUpdate(EpochMinute(world.nowSecs))]) == [EpochMinute(world.nowSecs)];
  }

  /** A status text starts with a digit or '-', so it is never the fallback text. */
  lemma StatusTextIsNotFallback(tables: LookupTables, server: ServerInfo)
    ensures StatusText(tables, server) != FallbackText
  {
    var text := StatusText(tables, server);
    Decimal.FormatCharacters(server.currentPlayers as int);
    assert text[0] == Decimal.Format(server.currentPlayers as int)[0];
  }

  /** The fallback text is published exactly when `get` failed, and then
      once, right after the fetch. */
  lemma FallbackIffGetFailed(cfg: Static, tables: LookupTables, world: World, parse: Decoder)
    requires WellFormed(world.response)
    ensures var effects := Status(cfg, tables, world, parse).effects;
      (SetActivity(FallbackText) in effects <==> Get(world.response, parse).Failed?)
    ensures Get(world.response, parse).Failed? ==>
      Status(cfg, tables, world, parse).effects == [Fetch(Endpoint(GameOrDefault(cfg.game))), SetActivity(FallbackText)]
  {
    var got := Get(world.response, parse);
    var effects := Status(cfg, tables, world, parse).effects;
    if Chosen(cfg, world, parse).Some? {
      var server := Chosen(cfg, world, parse).value;
      StatusTextIsNotFallback(tables, server);
      var shown := Shown(cfg, tables, server);
      assert effects == shown || effects == shown + [SetAvatar(ImagePath)];
    }
  }

  /** A list without the monitored server fails the cycle and publishes nothing. */
  lemma NotFoundPublishesNothing(cfg: Static, tables: LookupTables, world: World, parse: Decoder)
    requires WellFormed(world.response)
    requires Get(world.response, parse).Fetched? && Chosen(cfg, world, parse).None?
    ensures Status(cfg, tables, world, parse) ==
      StatusRun(Err(NotFound), [Fetch(Endpoint(GameOrDefault(cfg.game)))])
  {
  }

  /** A panic while reading the body (an empty body) publishes nothing. */
  lemma EmptyBodyPanics(cfg: Static, tables: LookupTables, world: World, parse: Decoder)
    requires WellFormed(world.response)
    requires world.response.Received? && BodyOf(world.response) == []
    ensures Status(cfg, tables, world, parse) == StatusRun(Panic, [Fetch(Endpoint(GameOrDefault(cfg.game)))])
    ensures !RunCycle(cfg, tables, world, parse).alive
  {
  }

  /** Once the server is found, what happens follows the renderer: a failed
      render leaves the published status text in place and does not change
      the avatar; a successful one sets the avatar last; an image that cannot
      be read back panics after the text was published. */
  lemma FoundServerPublishes(cfg: Static, tables: LookupTables, world: World, parse: Decoder)
    requires WellFormed(world.response)
    requires Chosen(cfg, world, parse).Some?
    ensures var shown := Shown(cfg, tables, Chosen(cfg, world, parse).value);
      Status(cfg, tables, world, parse) ==
        if !world.rendered then StatusRun(Err(RenderFailed), shown)
        else if !world.avatarReadable then StatusRun(Panic, shown)
        else StatusRun(Ok, shown + [SetAvatar(ImagePath)])
  {
  }

  /** The calls of the loop over a run of worlds, one cycle each, until a
      cycle panics. */
  function Trace(cfg: Static, tables: LookupTables, worlds: seq<World>, parse: Decoder): seq<Effect>
    requires forall k :: 0 <= k < |worlds| ==> WellFormed(worlds[k].response)
  {
    if worlds == [] then []
    else
      var cycle := RunCycle(cfg, tables, worlds[0], parse);
      if cycle.alive then cycle.effects + Trace(cfg, tables, worlds[1..], parse) else cycle.effects
  }

  /** The number of cycles that ran to their liveness write before the first panic. */
  function Completed(cfg: Static, tables: LookupTables, worlds: seq<World>, parse: Decoder): (n: nat)
    requires forall k :: 0 <= k < |worlds| ==> WellFormed(worlds[k].response)
    ensures n <= |worlds|
  {
    if worlds == [] then 0
    else if RunCycle(cfg, tables, worlds[0], parse).alive then 1 + Completed(cfg, tables, worlds[1..], parse)
    else 0
  }

  /** The loop writes the liveness state once per completed cycle, storing
      that cycle's minute, and never again after a panic. */
  lemma {:induction false} TraceStoresPerCycle(cfg: Static, tables: LookupTables, worlds: seq<World>, parse: Decoder)
    requires forall k :: 0 <= k < |worlds| ==> WellFormed(worlds[k].response)
    ensures Stores(Trace(cfg, tables, worlds, parse)) == Completed(cfg, tables, worlds, parse)
    ensures var stored := StoredMinutes(Trace(cfg, tables, worlds, parse));
      forall k :: 0 <= k < |stored| ==> stored[k] == EpochMinute(worlds[k].nowSecs)
  {
    if worlds != [] {
      CycleStoresOnce(cfg, tables, worlds[0], parse);
      var cycle := RunCycle(cfg, tables, worlds[0], parse);
      if cycle.alive {
        var rest := worlds[1..];
        TraceStoresPerCycle(cfg, tables, rest, parse);
        StoredMinutesAppend(cycle.effects, Trace(cfg, tables, rest, parse));
        assert forall k :: 0 <= k < |rest| ==> rest[k] == worlds[k + 1];
      }
    }
  }

  /** While the clock does not go back, the stored minutes never decrease.
      Nothing in the loop enforces this: the minute comes from the wall clock. */
  lemma StoredMinutesNeverDecrease(cfg: Static, tables: LookupTables, worlds: seq<World>, parse: Decoder)
    requires forall k :: 0 <= k < |worlds| ==> WellFormed(worlds[k].response)
    requires forall i, j :: 0 <= i <= j < |worlds| ==> worlds[i].nowSecs <= worlds[j].nowSecs
    ensures var stored := StoredMinutes(Trace(cfg, tables, worlds, parse));
      forall i, j :: 0 <= i <= j < |stored| ==> stored[i] <= stored[j]
  {
    var stored := StoredMinutes(Trace(cfg, tables, worlds, parse));
    TraceStoresPerCycle(cfg, tables, worlds, parse);
    forall i, j | 0 <= i <= j < |stored|
      ensures stored[i] <= stored[j]
    {
      EpochMinuteMonotone(worlds[i].nowSecs, worlds[j].nowSecs);
    }
  }

  /** A clock that steps back lowers the stored minute: two failing cycles at
      two minutes and then one minute past the epoch store 2 and then 1. */
  lemma ClockStepBackLowersMinute(cfg: Static, tables: LookupTables, parse: Decoder)
    ensures StoredMinutes(Trace(cfg, tables, [World(SendFailed, false, false, 120), World(SendFailed, false, false, 60)], parse)) == [2, 1]
  {
    var worlds := [World(SendFailed, false, false, 120), World(SendFailed, false, false, 60)];
    TraceStoresPerCycle(cfg, tables, worlds, parse);
    NoPanicCompletesAll(cfg, tables, worlds, parse);
  }

  /** The endless `loop` of the poll task, over its first |worlds| cycles:
      each cycle runs `status` and then stores the current minute; a panic
      ends the task. */
  method PollLoop(tracker: Tracker, cfg: Static, tables: LookupTables, worlds: seq<World>, parse: Decoder)
      returns (effects: seq<Effect>, completed: nat)
    requires tracker.Valid()
    requires forall k :: 0 <= k < |worlds| ==> WellFormed(worlds[k].response)
    modifies tracker
    ensures tracker.Valid()
    ensures effects == Trace(cfg, tables, worlds, parse)
    ensures completed == Completed(cfg, tables, worlds, parse)
    ensures completed == 0 ==> tracker.lastUpdate == old(tracker.lastUpdate)
    ensures completed > 0 ==> tracker.lastUpdate == EpochMinute(worlds[completed - 1].nowSecs)
  {
    effects, completed := [], 0;
    while completed < |worlds|
      invariant 0 <= completed <= |worlds|
      invariant tracker.Valid()
      invariant Trace(cfg, tables, worlds, parse) == effects + Trace(cfg, tables, worlds[completed..], parse)
      invariant Completed(cfg, tables, worlds, parse) == completed + Completed(cfg, tables, worlds[completed..], parse)
      invariant completed == 0 ==> tracker.lastUpdate == old(tracker.lastUpdate)
      invariant completed > 0 ==> tracker.lastUpdate == EpochMinute(worlds[completed - 1].nowSecs)
    {
      var world := worlds[completed];
      var run := Status(cfg, tables, world, parse);
      assert worlds[completed..][1..] == worlds[completed + 1..];
      if run.outcome.Panic? {
        effects := effects + run.effects;
        return;
      }
      tracker.Record(world.nowSecs);
      effects := effects + (run.effects + [StoreLastUpdate(EpochMinute(world.nowSecs))]);
      completed := completed + 1;
    }
  }

  /** Every cycle of a run without a panic completes and writes the liveness
      state, whatever each `status` returned. */
  lemma {:induction false} NoPanicCompletesAll(cfg: Static, tables: LookupTables, worlds: seq<World>, parse: Decoder)
    requires forall k :: 0 <= k < |worlds| ==> WellFormed(worlds[k].response)
    requires forall k :: 0 <= k < |worlds| ==> !Status(cfg, tables, worlds[k], parse).outcome.Panic?
    ensures Completed(cfg, tables, worlds, parse) == |worlds|
    ensures Stores(Trace(cfg, tables, worlds, parse)) == |worlds|
  {
    if worlds != [] {
      assert forall k :: 0 <= k < |worlds[1..]| ==> worlds[1..][k] == worlds[k + 1];
      NoPanicCompletesAll(cfg, tables, worlds[1..], parse);
    }
    TraceStoresPerCycle(cfg, tables, worlds, parse);
  }

  /** A request that cannot be sent: the fallback text is published and the
      cycle still stores the current minute. */
  lemma TransportFailureStillStores(cfg: Static, tables: LookupTables, world: World, parse: Decoder)
    requires world.response.SendFailed?
    ensures RunCycle(cfg, tables, world, parse) == CycleRun(
      [Fetch(Endpoint(GameOrDefault(cfg.game))), SetActivity(FallbackText), StoreLastUpdate(EpochMinute(world.nowSecs))],
      true)
  {
  }

  /** The liveness minute says that the loop ran, not that it succeeded:
      in a run whose requests all fail, every `status` call returns an error
      and every cycle still stores its minute, so a probe within five minutes
      of the last cycle answers 200. */
  method FailingCyclesStayHealthy(tracker: Tracker, cfg: Static, tables: LookupTables, worlds: seq<World>,
                                  parse: Decoder, probeSecs: i64)
      returns (effects: seq<Effect>, code: int)
    requires tracker.Valid()
    requires worlds != []
    requires forall k :: 0 <= k < |worlds| ==> worlds[k].response.SendFailed?
    requires EpochMinute(probeSecs) as int - EpochMinute(worlds[|worlds| - 1].nowSecs) as int <= StaleAfter
    modifies tracker
    ensures forall k :: 0 <= k < |worlds| ==> Status(cfg, tables, worlds[k], parse).outcome == Err(GetFailed(UrlFailed))
    ensures effects == Trace(cfg, tables, worlds, parse) && Stores(effects) == |worlds|
    ensures code == StatusOk
  {
    NoPanicCompletesAll(cfg, tables, worlds, parse);
    var completed;
    effects, completed := PollLoop(tracker, cfg, tables, worlds, parse);
    var body;
    code, body := tracker.Probe(probeSecs);
  }

  /** The example configuration, monitoring "Alpha" by name, with a list
      whose one entry is Alpha at 40 of 64 players on Amiens in Conquest:
      with tables holding the source's entries for Amiens and Conquest, the
      cycle publishes "40/64 - Amiens", renders the Conquest abbreviation over
      the Amiens art and sets the avatar. */
  lemma AlphaPublished(cfg: Static, tables: LookupTables, alpha: ServerInfo, world: World, parse: Decoder)
    requires cfg.serverName == Some("Alpha") && GameOrDefault(cfg.game) != "bfv"
    requires alpha.name == "Alpha" && alpha.mapName == "MP_Amiens" && alpha.gameMode == "Conquest0"
    requires alpha.currentPlayers == 40 && alpha.maxPlayers == 64
    requires "MP_Amiens" in tables.names && tables.names["MP_Amiens"] == "Amiens"
    requires "MP_Amiens" in tables.images && tables.images["MP_Amiens"] == AmiensArt
    requires "Conquest0" in tables.modes && tables.modes["Conquest0"] == "CQ"
    requires WellFormed(world.response) && Get(world.response, parse) == Fetched([alpha])
    requires world.rendered && world.avatarReadable
    ensures Status(cfg, tables, world, parse) == StatusRun(Ok,
      [Fetch(Bf1ListUrl), SetActivity("40/64 - Amiens"), Render("CQ", AmiensArt), SetAvatar(ImagePath)])
  {
    assert RightServer(cfg, alpha);
    assert FirstMatch([alpha], cfg) == Some(0);
    assert Status(cfg, tables, world, parse) == Publish(cfg, tables, alpha, world);
    AlphaShown(cfg, tables, alpha);
  }

  lemma AlphaShown(cfg: Static, tables: LookupTables, alpha: ServerInfo)
    requires GameOrDefault(cfg.game) != "bfv"
    requires alpha.mapName == "MP_Amiens" && alpha.gameMode == "Conquest0"
    requires alpha.currentPlayers == 40 && alpha.maxPlayers == 64
    requires "MP_Amiens" in tables.names && tables.names["MP_Amiens"] == "Amiens"
    requires "MP_Amiens" in tables.images && tables.images["MP_Amiens"] == AmiensArt
    requires "Conquest0" in tables.modes && tables.modes["Conquest0"] == "CQ"
    ensures Shown(cfg, tables, alpha) == [Fetch(Bf1ListUrl), SetActivity("40/64 - Amiens"), Render("CQ", AmiensArt)]
  {
    AlphaText(tables, alpha);
    assert MapKey("MP_Amiens") == "MP_Amiens";
  }

  lemma AlphaText(tables: LookupTables, alpha: ServerInfo)
    requires alpha.mapName == "MP_Amiens"
    requires alpha.currentPlayers == 40 && alpha.maxPlayers == 64
    requires "MP_Amiens" in tables.names && tables.names["MP_Amiens"] == "Amiens"
    ensures StatusText(tables, alpha) == "40/64 - Amiens"
  {
    Decimal.FormatTwoDigits(4, 0);
    Decimal.FormatTwoDigits(6, 4);
    assert MapKey("MP_Amiens") == "MP_Amiens";
  }

  /** The same cycle with the source's own tables. */
  lemma SourceAlphaPublished(cfg: Static, alpha: ServerInfo, world: World, parse: Decoder)
    requires cfg.serverName == Some("Alpha") && GameOrDefault(cfg.game) != "bfv"
    requires alpha.name == "Alpha" && alpha.mapName == "MP_Amiens" && alpha.gameMode == "Conquest0"
    requires alpha.currentPlayers == 40 && alpha.maxPlayers == 64
    requires WellFormed(world.response) && Get(world.response, parse) == Fetched([alpha])
    requires world.rendered && world.avatarReadable
    ensures Status(cfg, SourceTables, world, parse) == StatusRun(Ok,
      [Fetch(Bf1ListUrl), SetActivity("40/64 - Amiens"), Render("CQ", AmiensArt), SetAvatar(ImagePath)])
  {
    AmiensEntries();
    ModeEntries();
    AlphaPublished(cfg, SourceTables, alpha, world, parse);
  }
}
