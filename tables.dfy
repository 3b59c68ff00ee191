/** The three literal lookup tables that status() builds on every cycle:
    map key to display name, map key to map art URL, and game mode to the
    abbreviation drawn on the avatar. A missing key is never an error: each
    lookup falls back (to the key itself, or to the empty text).

    The two map tables are written in the source as one literal each, in
    three groups (Battlefield 1, Battlefield V, Battlefield V special maps);
    here each group is its own constant and the table is their union. In a
    union a later entry wins, as it does for a repeated key in
    HashMap::from, so the union is the same map as the literal. */
module Tables {

  /** Display names of the Battlefield 1 maps. */
  const Bf1MapNames: map<string, string> := map[
    "MP_Amiens" := "Amiens",
    "MP_Chateau" := "Ballroom Blitz",
    "MP_Desert" := "Sinai Desert",
    "MP_FaoFortress" := "Fao Fortress",
    "MP_Forest" := "Argonne Forest",
    "MP_ItalianCoast" := "Empire's Edge",
    "MP_MountainFort" := "Monte Grappa",
    "MP_Scar" := "St Quentin Scar",
    "MP_Suez" := "Suez",
    "MP_Giant" := "Giant's Shadow",
    "MP_Fields" := "Soissons",
    "MP_Graveyard" := "Rupture",
    "MP_Underworld" := "Fort De Vaux",
    "MP_Verdun" := "Verdun Heights",
    "MP_ShovelTown" := "Prise de Tahure",
    "MP_Trench" := "Nivelle Nights",
    "MP_Bridge" := "Brusilov Keep",
    "MP_Islands" := "Albion",
    "MP_Ravines" := "\U{0141}upk\U{00F3}w Pass",
    "MP_Tsaritsyn" := "Tsaritsyn",
    "MP_Valley" := "Galicia",
    "MP_Volga" := "Volga River",
    "MP_Beachhead" := "Cape Helles",
    "MP_Harbor" := "Zeebrugge",
    "MP_Naval" := "Heligoland Bight",
    "MP_Ridge" := "Achi Baba",
    "MP_Alps" := "Razor's Edge",
    "MP_Blitz" := "London Calling",
    "MP_Hell" := "Passchendaele",
    "MP_London" := "London Calling: Scourge",
    "MP_Offensive" := "River Somme",
    "MP_River" := "Caporetto"
  ]

  /** Display names of the Battlefield V maps. */
  const BfvMapNames: map<string, string> := map[
    "MP_ArcticFjell" := "Fjell 652",
    "MP_ArcticFjord" := "Narvik",
    "MP_Arras" := "Arras",
    "MP_Devastation" := "Devastation",
    "MP_Escaut" := "twisted steel",
    "MP_Foxhunt" := "Aerodrome",
    "MP_Halfaya" := "Hamada",
    "MP_Rotterdam" := "Rotterdam",
    "MP_Hannut" := "Panzerstorm",
    "MP_Crete" := "Mercury",
    "MP_Kalamas" := "Marita",
    "MP_Provence" := "Provence",
    "MP_SandAndSea" := "Al sudan",
    "MP_Bunker" := "Operation Underground",
    "MP_IwoJima" := "Iwo jima",
    "MP_TropicIslands" := "Pacific storm",
    "MP_WakeIsland" := "Wake island",
    "MP_Jungle" := "Solomon islands",
    "MP_Libya" := "Al marj encampment",
    "MP_Norway" := "lofoten islands"
  ]

  /** Display names of the Battlefield V special maps. */
  const BfvSpecialMapNames: map<string, string> := map[
    "DK_Norway" := "Halvoy",
    "MP_Escaut_US" := "Twisted Steel US",
    "MP_Hannut_US" := "Panzerstorm US",
    "MP_GOps_Chapter2_Arras" := "Arras (Chapter 2)",
    "MP_WE_Fortress_Devastation" := "Devastation (Fortress)",
    "MP_WE_Fortress_Halfaya" := "Hamada (Fortress)",
    "MP_WE_Grind_ArcticFjord" := "Narvik (Grind)",
    "MP_WE_Grind_Devastation" := "Devastation (Grind)",
    "MP_WE_Grind_Escaut" := "Twisted Steel (Grind)",
    "MP_WE_Grind_Rotterdam" := "Rotterdam (Grind)"
  ]

  /** Display name by map key. */
  const MapNames: map<string, string> := Bf1MapNames + BfvMapNames + BfvSpecialMapNames

  /** Landscape art of the Battlefield 1 maps. */
  const Bf1MapImages: map<string, string> := map[
    "MP_Amiens" := "https://cdn.gametools.network/maps/bf1/MP_Amiens_LandscapeLarge-e195589d.jpg",
    "MP_Chateau" := "https://cdn.gametools.network/maps/bf1/MP_Chateau_LandscapeLarge-244d5987.jpg",
    "MP_Desert" := "https://cdn.gametools.network/maps/bf1/MP_Desert_LandscapeLarge-d8f749da.jpg",
    "MP_FaoFortress" := "https://cdn.gametools.network/maps/bf1/MP_FaoFortress_LandscapeLarge-cad1748e.jpg",
    "MP_Forest" := "https://cdn.gametools.network/maps/bf1/MP_Forest_LandscapeLarge-dfbbe910.jpg",
    "MP_ItalianCoast" := "https://cdn.gametools.network/maps/bf1/MP_ItalianCoast_LandscapeLarge-1503eec7.jpg",
    "MP_MountainFort" := "https://cdn.gametools.network/maps/bf1/MP_MountainFort_LandscapeLarge-8a517533.jpg",
    "MP_Scar" := "https://cdn.gametools.network/maps/bf1/MP_Scar_LandscapeLarge-ee25fbd6.jpg",
    "MP_Suez" := "https://cdn.gametools.network/maps/bf1/MP_Suez_LandscapeLarge-f630fc76.jpg",
    "MP_Giant" := "https://cdn.gametools.network/maps/bf1/MP_Giant_LandscapeLarge-dd0b93ef.jpg",
    "MP_Fields" := "https://cdn.gametools.network/maps/bf1/MP_Fields_LandscapeLarge-5f53ddc4.jpg",
    "MP_Graveyard" := "https://cdn.gametools.network/maps/bf1/MP_Graveyard_LandscapeLarge-bd1012e6.jpg",
    "MP_Underworld" := "https://cdn.gametools.network/maps/bf1/MP_Underworld_LandscapeLarge-b6c5c7e7.jpg",
    "MP_Verdun" := "https://cdn.gametools.network/maps/bf1/MP_Verdun_LandscapeLarge-1a364063.jpg",
    "MP_ShovelTown" := "https://cdn.gametools.network/maps/bf1/MP_Shoveltown_LandscapeLarge-d0aa5920.jpg",
    "MP_Trench" := "https://cdn.gametools.network/maps/bf1/MP_Trench_LandscapeLarge-dbd1248f.jpg",
    "MP_Bridge" := "https://cdn.gametools.network/maps/bf1/MP_Bridge_LandscapeLarge-5b7f1b62.jpg",
    "MP_Islands" := "https://cdn.gametools.network/maps/bf1/MP_Islands_LandscapeLarge-c9d8272b.jpg",
    "MP_Ravines" := "https://cdn.gametools.network/maps/bf1/MP_Ravines_LandscapeLarge-1fe0d3f6.jpg",
    "MP_Tsaritsyn" := "https://cdn.gametools.network/maps/bf1/MP_Tsaritsyn_LandscapeLarge-2dbd3bf5.jpg",
    "MP_Valley" := "https://cdn.gametools.network/maps/bf1/MP_Valley_LandscapeLarge-8dc1c7ca.jpg",
    "MP_Volga" := "https://cdn.gametools.network/maps/bf1/MP_Volga_LandscapeLarge-6ac49c25.jpg",
    "MP_Beachhead" := "https://cdn.gametools.network/maps/bf1/MP_Beachhead_LandscapeLarge-5a13c655.jpg",
    "MP_Harbor" := "https://cdn.gametools.network/maps/bf1/MP_Harbor_LandscapeLarge-d382c7ea.jpg",
    "MP_Naval" := "https://cdn.gametools.network/maps/bf1/MP_Naval_LandscapeLarge-dc2e8daf.jpg",
    "MP_Ridge" := "https://cdn.gametools.network/maps/bf1/MP_Ridge_LandscapeLarge-8c057a19.jpg",
    "MP_Alps" := "https://cdn.gametools.network/maps/bf1/MP_Alps_LandscapeLarge-7ab30e3e.jpg",
    "MP_Blitz" := "https://cdn.gametools.network/maps/bf1/MP_Blitz_LandscapeLarge-5e26212f.jpg",
    "MP_Hell" := "https://cdn.gametools.network/maps/bf1/MP_Hell_LandscapeLarge-7176911c.jpg",
    "MP_London" := "https://cdn.gametools.network/maps/bf1/MP_London_LandscapeLarge-0b51fe46.jpg",
    "MP_Offensive" := "https://cdn.gametools.network/maps/bf1/MP_Offensive_LandscapeLarge-6dabdea3.jpg",
    "MP_River" := "https://cdn.gametools.network/maps/bf1/MP_River_LandscapeLarge-21443ae9.jpg"
  ]

  /** Landscape art of the Battlefield V maps. */
  const BfvMapImages: map<string, string> := map[
    "MP_ArcticFjell" := "https://cdn.gametools.network/maps/bfv/1080p_MP_ArcticFjell-df3c1290.jpg",
    "MP_ArcticFjord" := "https://cdn.gametools.network/maps/bfv/1080p_MP_ArcticFjord-7ba29138.jpg",
    "MP_Arras" := "https://cdn.gametools.network/maps/bfv/1080p_MP_Arras-4b610505.jpg",
    "MP_Devastation" := "https://cdn.gametools.network/maps/bfv/1080p_MP_Devastation-623dea60.jpg",
    "MP_Escaut" := "https://cdn.gametools.network/maps/bfv/1080p_MP_Escaut-9764d1fb.jpg",
    "MP_Foxhunt" := "https://cdn.gametools.network/maps/bfv/1080p_MP_AfricanFox-8ad380a5.jpg",
    "MP_Halfaya" := "https://cdn.gametools.network/maps/bfv/1080p_MP_AfricanHalfaya-31165f9b.jpg",
    "MP_Rotterdam" := "https://cdn.gametools.network/maps/bfv/1080p_MP_Rotterdam-55632240.jpg",
    "MP_Hannut" := "https://cdn.gametools.network/maps/bfv/1080p_MP_Hannut-ebbe7197.jpg",
    "MP_Crete" := "https://cdn.gametools.network/maps/bfv/1080p_MP_Crete-304a202d.jpg",
    "MP_Kalamas" := "https://cdn.gametools.network/maps/bfv/1080p_MP_Kalamas-c64c8451.jpg",
    "MP_Provence" := "https://cdn.gametools.network/maps/bfv/1080p_MP_ProvenceXL-a950ad3e.jpg",
    "MP_SandAndSea" := "https://cdn.gametools.network/maps/bfv/1080p_MP_SandAndSea-f071e6f7.jpg",
    "MP_Bunker" := "https://cdn.gametools.network/maps/bfv/1080p_MP_Bunker-7b518876.jpg",
    "MP_IwoJima" := "https://cdn.gametools.network/maps/bfv/1080p_MP_IwoJima-760850fc.jpg",
    "MP_TropicIslands" := "https://cdn.gametools.network/maps/bfv/1080p_MP_TropicIslands-9e0a41c3.jpg",
    "MP_WakeIsland" := "https://cdn.gametools.network/maps/bfv/1080p_MP_WakeIsland-3238b455.jpg",
    "MP_Jungle" := "https://cdn.gametools.network/maps/bfv/1080p_MP_Jungle-714218ce.jpg",
    "MP_Libya" := "https://cdn.gametools.network/maps/bfv/1080p_MP_Libya-bd54b090.jpg",
    "MP_Norway" := "https://cdn.gametools.network/maps/bfv/1080p_MP_Norway-7d6d6300.jpg"
  ]

  /** Landscape art of the Battlefield V special maps. */
  const BfvSpecialMapImages: map<string, string> := map[
    "DK_Norway" := "https://cdn.gametools.network/maps/bfv/1080p_MP_Norway-7d6d6300.jpg",
    "MP_Escaut_US" := "https://cdn.gametools.network/maps/bfv/1080p_MP_Escaut-9764d1fb.jpg",
    "MP_Hannut_US" := "https://cdn.gametools.network/maps/bfv/1080p_MP_Hannut-ebbe7197.jpg",
    "MP_GOps_Chapter2_Arras" := "https://cdn.gametools.network/maps/bfv/1080p_MP_Arras-4b610505.jpg",
    "MP_WE_Fortress_Devastation" := "https://cdn.gametools.network/maps/bfv/1080p_MP_Devastation-623dea60.jpg",
    "MP_WE_Fortress_Halfaya" := "https://cdn.gametools.network/maps/bfv/1080p_MP_AfricanHalfaya-31165f9b.jpg",
    "MP_WE_Grind_ArcticFjord" := "https://cdn.gametools.network/maps/bfv/1080p_MP_ArcticFjord-7ba29138.jpg",
    "MP_WE_Grind_Devastation" := "https://cdn.gametools.network/maps/bfv/1080p_MP_Devastation-623dea60.jpg",
    "MP_WE_Grind_Escaut" := "https://cdn.gametools.network/maps/bfv/1080p_MP_Escaut-9764d1fb.jpg",
    "MP_WE_Grind_Rotterdam" := "https://cdn.gametools.network/maps/bfv/1080p_MP_Rotterdam-55632240.jpg"
  ]

  /** Map art URL by map key. */
  const MapImages: map<string, string> := Bf1MapImages + BfvMapImages + BfvSpecialMapImages

  /** Short mode codes, by the raw gameMode string. */
  const ModeAbbreviations: map<string, string> := map[
    "Conquest0" := "CQ",
    "Rush0" := "RS",
    "BreakThrough0" := "SO",
    "BreakthroughLarge0" := "OP",
    "Possession0" := "WP",
    "TugOfWar0" := "FL",
    "AirAssault0" := "AA",
    "Domination0" := "DM",
    "TeamDeathMatch0" := "TM",
    "ZoneControl0" := "RS"
  ]

  /** The three tables as one value, as `status` uses them. */
  datatype LookupTables = LookupTables(names: map<string, string>, images: map<string, string>, modes: map<string, string>)

  /** The tables of the source. */
  const SourceTables := LookupTables(MapNames, MapImages, ModeAbbreviations)

  /** `maps.get(internal_map).unwrap_or(&internal_map)`: the display name
      shown in the status text, or the key itself when the table has none. */
  function DisplayName(tables: LookupTables, key: string): (name: string)
    ensures key in tables.names ==> name == tables.names[key]
    ensures key !in tables.names ==> name == key
  {
    if key in tables.names then tables.names[key] else key
  }

  /** `images.get(internal_map).unwrap_or(&internal_map)`: the map art handed
      to the renderer, or the key itself when the table has none. */
  function ImageUrl(tables: LookupTables, key: string): (url: string)
    ensures key in tables.images ==> url == tables.images[key]
    ensures key !in tables.images ==> url == key
  {
    if key in tables.images then tables.images[key] else key
  }

  /** `small_modes.get(&server.game_mode[..]).unwrap_or(&"")`: the
      abbreviation drawn on the avatar, or the empty text. */
  function ModeAbbreviation(tables: LookupTables, gameMode: string): (abbreviation: string)
    ensures gameMode in tables.modes ==> abbreviation == tables.modes[gameMode]
    ensures gameMode !in tables.modes ==> abbreviation == ""
  {
    if gameMode in tables.modes then tables.modes[gameMode] else ""
  }

  lemma Bf1TablesShareKeys()
    ensures Bf1MapNames.Keys == Bf1MapImages.Keys
  {
  }

  lemma BfvTablesShareKeys()
    ensures BfvMapNames.Keys == BfvMapImages.Keys
  {
  }

  lemma BfvSpecialTablesShareKeys()
    ensures BfvSpecialMapNames.Keys == BfvSpecialMapImages.Keys
  {
  }

  /** Both map tables of the source are keyed by the same map keys. */
  lemma MapTablesShareKeys()
    ensures MapNames.Keys == MapImages.Keys
  {
    Bf1TablesShareKeys();
    BfvTablesShareKeys();
    BfvSpecialTablesShareKeys();
  }

  /** With tables keyed alike, such as the source's, the image lookup falls
      back to the key exactly when the name lookup does. */
  lemma SharedKeysFallBackTogether(tables: LookupTables, key: string)
    requires tables.names.Keys == tables.images.Keys
    ensures key !in tables.names <==> key !in tables.images
    ensures key !in tables.names ==> DisplayName(tables, key) == key && ImageUrl(tables, key) == key
  {
    assert key in tables.names <==> key in tables.names.Keys;
  }

  /** A key of the first group only is found in the union with the first
      group's value. */
  lemma UnionLookup(first: map<string, string>, second: map<string, string>, third: map<string, string>, key: string)
    requires key in first && key !in second && key !in third
    ensures key in first + second + third && (first + second + third)[key] == first[key]
  {
  }

  lemma AmiensInBf1Groups()
    ensures "MP_Amiens" in Bf1MapNames && Bf1MapNames["MP_Amiens"] == "Amiens"
    ensures "MP_Amiens" in Bf1MapImages && Bf1MapImages["MP_Amiens"] == AmiensArt
  {
  }

  lemma AmiensNotInBfvGroups()
    ensures "MP_Amiens" !in BfvMapNames && "MP_Amiens" !in BfvMapImages
  {
  }

  lemma AmiensNotInBfvSpecialGroups()
    ensures "MP_Amiens" !in BfvSpecialMapNames && "MP_Amiens" !in BfvSpecialMapImages
  {
  }

  const AmiensArt := "https://cdn.gametools.network/maps/bf1/MP_Amiens_LandscapeLarge-e195589d.jpg"

  /** The source's entries for the map of its example server. */
  lemma AmiensEntries()
    ensures "MP_Amiens" in MapNames && MapNames["MP_Amiens"] == "Amiens"
    ensures "MP_Amiens" in MapImages && MapImages["MP_Amiens"] == AmiensArt
  {
    AmiensInBf1Groups();
    AmiensNotInBfvGroups();
    AmiensNotInBfvSpecialGroups();
    UnionLookup(Bf1MapNames, BfvMapNames, BfvSpecialMapNames, "MP_Amiens");
    UnionLookup(Bf1MapImages, BfvMapImages, BfvSpecialMapImages, "MP_Amiens");
  }

  /** The source's abbreviation for the mode of its example server, and a
      mode it has none for. */
  lemma ModeEntries()
    ensures "Conquest0" in ModeAbbreviations && ModeAbbreviations["Conquest0"] == "CQ"
    ensures "Conquest" !in ModeAbbreviations
  {
  }
}
