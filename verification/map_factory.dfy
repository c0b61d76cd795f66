/** The map factory: each of the five MapTiler map types yields a tile
    source built by the same chain of builder setters, differing only in
    name and root URL. As written, four of the five types are crossed
    over: each of them gets another style's name and root URL. */
module MapFactory {
  import opened Outcomes
  import opened TileSource

  datatype MapType = BasicV2 | DataVis | OsmUrl | DataVisLight | OutdoorV2

  /** The root URLs of the five MapTiler styles. */
  const BasicV2Root := "https://api.maptiler.com/maps/basic-v2/"
  const DataVisRoot := "https://api.maptiler.com/maps/dataviz/"
  const OsmUrlRoot := "https://api.maptiler.com/maps/openstreetmap/"
  const DataVisLightRoot := "https://api.maptiler.com/maps/dataviz-light/"
  const OutdoorV2Root := "https://api.maptiler.com/maps/outdoor-v2/"

  /** The style each type is named after, by its root URL. */
  function OwnRoot(t: MapType): string
  {
    match t
    case BasicV2 => BasicV2Root
    case DataVis => DataVisRoot
    case OsmUrl => OsmUrlRoot
    case DataVisLight => DataVisLightRoot
    case OutdoorV2 => OutdoorV2Root
  }

  /** The setter chain every factory method runs on a fresh builder:
      name, zoom 0 to 18, 256 pixels, `.png`, no base URLs, the root URL,
      the small tile size. */
  function Configured(name: string, root: string): Builder
  {
    var b := Set(NewBuilder(), Name(Some(name)));
    var b := Set(b, ZoomLevels(0, 18));
    var b := Set(b, TilePixels(256));
    var b := Set(b, ImageFilenameEnding(Some(".png")));
    var b := Set(b, BaseUrls(Some([])));
    var b := Set(b, RootURL(root));
    Set(b, Size(SizeSmall))
  }

  /** The name and root URL the method `createMap` dispatches each type
      to sets, as written. */
  function NameAndRoot(t: MapType): (string, string)
  {
    match t
    case BasicV2 => ("OutDoor V2", OutdoorV2Root)
    case DataVis => ("Data Vis", DataVisRoot)
    case OsmUrl => ("Datavis Light", DataVisLightRoot)
    case DataVisLight => ("OSM URL", OsmUrlRoot)
    case OutdoorV2 => ("Basic V2", BasicV2Root)
  }

  /** The tile source of each map type: the configuration chain on a
      fresh builder, then `build`. Every chain sets the root URL and the
      tile size, so the build always succeeds and `createMap` is total. */
  function CreateMap(t: MapType): (src: MapTilerTileSource)
    ensures src.zoomMinLevel == 0 && src.zoomMaxLevel == 18
    ensures src.tileSizePixels == 256 && src.tileSize == SizeSmall
    ensures src.imageFilenameEnding == Some(".png") && src.baseUrls == Some([])
    ensures src.name == Some(NameAndRoot(t).0) && src.rootURL == NameAndRoot(t).1
  {
    Build(Configured(NameAndRoot(t).0, NameAndRoot(t).1)).value
  }

  /** The root URLs `createMap` hands out are the five styles' roots, each
      to exactly one type: the type-to-root map is a bijection. */
  lemma CreateMapRootsBijective(s: MapType, t: MapType)
    ensures CreateMap(s).rootURL == CreateMap(t).rootURL <==> s == t
    ensures exists u :: CreateMap(s).rootURL == OwnRoot(u)
    ensures exists u :: CreateMap(u).rootURL == OwnRoot(s)
  {
    var r := CreateMap(s).rootURL;
    match s
    case BasicV2 => assert r == OwnRoot(OutdoorV2); assert CreateMap(OutdoorV2).rootURL == OwnRoot(BasicV2);
    case DataVis => assert r == OwnRoot(DataVis); assert CreateMap(DataVis).rootURL == OwnRoot(DataVis);
    case OsmUrl => assert r == OwnRoot(DataVisLight); assert CreateMap(DataVisLight).rootURL == OwnRoot(OsmUrl);
    case DataVisLight => assert r == OwnRoot(OsmUrl); assert CreateMap(OsmUrl).rootURL == OwnRoot(DataVisLight);
    case OutdoorV2 => assert r == OwnRoot(BasicV2); assert CreateMap(BasicV2).rootURL == OwnRoot(OutdoorV2);
  }

  /** As written, only the data-vis type gets its own style; each of the
      other four gets another style's root URL. */
  lemma CreateMapOwnRootOnlyForDataVis(t: MapType)
    ensures CreateMap(t).rootURL == OwnRoot(t) <==> t == DataVis
  {
  }

  /** The name and root URL each type is named after. */
  function IntendedNameAndRoot(t: MapType): (string, string)
  {
    match t
    case BasicV2 => ("Basic V2", BasicV2Root)
    case DataVis => ("Data Vis", DataVisRoot)
    case OsmUrl => ("OSM URL", OsmUrlRoot)
    case DataVisLight => ("Datavis Light", DataVisLightRoot)
    case OutdoorV2 => ("OutDoor V2", OutdoorV2Root)
  }

  /** The factory with each type given its own style: the same
      configuration chain, with the name and root URL the type is named
      after. */
  function CreateIntendedMap(t: MapType): (src: MapTilerTileSource)
    ensures src.rootURL == OwnRoot(t)
    ensures src.name == Some(IntendedNameAndRoot(t).0)
    ensures src.zoomMinLevel == 0 && src.zoomMaxLevel == 18
    ensures src.tileSizePixels == 256 && src.tileSize == SizeSmall
    ensures src.imageFilenameEnding == Some(".png") && src.baseUrls == Some([])
  {
    Build(Configured(IntendedNameAndRoot(t).0, IntendedNameAndRoot(t).1)).value
  }

  /** The dispatch sends each type to the method named after it, but each
      of four method bodies builds its swap partner's style; the name a
      body sets matches the root URL it sets. `createMap` of a type is the
      intended map of the type it is swapped with. */
  lemma CreateMapSwapsPairs(t: MapType)
    ensures var swapped := match t
              case BasicV2 => OutdoorV2
              case OutdoorV2 => BasicV2
              case OsmUrl => DataVisLight
              case DataVisLight => OsmUrl
              case DataVis => DataVis;
            NameAndRoot(t) == IntendedNameAndRoot(swapped)
  {
  }
}
