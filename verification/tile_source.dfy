/** The MapTiler tile source and its builder: a record of eight fields,
    a builder whose setters overwrite one field each and whose last two
    fields have no default, and the URL of a tile, which is the root URL
    followed by the tile size, zoom, x and y, the `.png` extension and the
    API key. */
module TileSource {
  import opened Outcomes
  import opened Text

  /** The tile sizes MapTiler serves. */
  datatype TileSize = SizeSmall | SizeMedium | SizeLarge

  function TileSizeValue(t: TileSize): (v: nat)
    ensures t == SizeSmall ==> v == 256
    ensures t == SizeMedium ==> v == 512
    ensures t == SizeLarge ==> v == 1024
  {
    match t
    case SizeSmall => 256
    case SizeMedium => 512
    case SizeLarge => 1024
  }

  /** Distinct tile sizes have distinct values, so the value identifies
      the size. */
  lemma TileSizeValueInjective(s: TileSize, t: TileSize)
    requires TileSizeValue(s) == TileSizeValue(t)
    ensures s == t
  {
  }

  /** A tile source. `name`, `imageFilenameEnding` and `baseUrls` (and
      each base URL) are nullable. */
  datatype MapTilerTileSource = MapTilerTileSource(
    name: Option<string>,
    zoomMinLevel: int,
    zoomMaxLevel: int,
    tileSizePixels: int,
    imageFilenameEnding: Option<string>,
    baseUrls: Option<seq<Option<string>>>,
    rootURL: string,
    tileSize: TileSize)

  /** The builder's fields; `rootURL` and `tileSize` are lateinit, `None`
      until set. */
  datatype Builder = Builder(
    name: Option<string>,
    zoomMinLevel: int,
    zoomMaxLevel: int,
    tileSizePixels: int,
    imageFilenameEnding: Option<string>,
    baseUrls: Option<seq<Option<string>>>,
    rootURL: Option<string>,
    tileSize: Option<TileSize>)

  /** A fresh builder: no name, zoom levels 0 and 0, 0 pixels, no ending,
      no base URLs, and neither root URL nor tile size set. */
  function NewBuilder(): Builder
  {
    Builder(None, 0, 0, 0, None, None, None, None)
  }

  /** The builder's setters. `TilePixels` is `setTileSize(Int)`, `Size`
      is `setTileSize(TileSize)`. */
  datatype Setter =
    | Name(name: Option<string>)
    | ZoomLevels(minLevel: int, maxLevel: int)
    | TilePixels(tileSizePixels: int)
    | ImageFilenameEnding(ending: Option<string>)
    | BaseUrls(urls: Option<seq<Option<string>>>)
    | RootURL(url: string)
    | Size(tileSize: TileSize)

  /** Applies one setter. */
  function Set(b: Builder, s: Setter): Builder
  {
    match s
    case Name(n) => b.(name := n)
    case ZoomLevels(lo, hi) => b.(zoomMinLevel := lo, zoomMaxLevel := hi)
    case TilePixels(px) => b.(tileSizePixels := px)
    case ImageFilenameEnding(e) => b.(imageFilenameEnding := e)
    case BaseUrls(u) => b.(baseUrls := u)
    case RootURL(r) => b.(rootURL := Some(r))
    case Size(t) => b.(tileSize := Some(t))
  }

  /** A chain of setter calls, applied left to right. */
  function SetAll(b: Builder, ss: seq<Setter>): Builder
    decreases |ss|
  {
    if ss == [] then b else Set(SetAll(b, ss[..|ss| - 1]), ss[|ss| - 1])
  }

  /** The value the last setter in `ss` that `pick` recognises gave, if
      any. This is the reference a chain of setters is compared with. */
  ghost function Last<T>(ss: seq<Setter>, pick: Setter -> Option<T>): (v: Option<T>)
    ensures v.Some? <==> exists i :: 0 <= i < |ss| && pick(ss[i]).Some?
    ensures v.Some? ==> exists i :: 0 <= i < |ss| && pick(ss[i]) == v
                                     && forall j :: i < j < |ss| ==> pick(ss[j]).None?
    decreases |ss|
  {
    if ss == [] then None
    else
      var n := |ss| - 1;
      if pick(ss[n]).Some? then pick(ss[n])
      else
        var v := Last(ss[..n], pick);
        assert forall i :: 0 <= i < n ==> ss[..n][i] == ss[i];
        if v.None? then v
        else
          var i :| 0 <= i < n && pick(ss[..n][i]) == v && forall j :: i < j < n ==> pick(ss[..n][j]).None?;
          assert pick(ss[i]) == v && forall j :: i < j < |ss| ==> pick(ss[j]).None?;
          v
  }

  function PickName(s: Setter): Option<Option<string>>
  {
    if s.Name? then Some(s.name) else None
  }

  function PickZoom(s: Setter): Option<(int, int)>
  {
    if s.ZoomLevels? then Some((s.minLevel, s.maxLevel)) else None
  }

  function PickPixels(s: Setter): Option<int>
  {
    if s.TilePixels? then Some(s.tileSizePixels) else None
  }

  function PickEnding(s: Setter): Option<Option<string>>
  {
    if s.ImageFilenameEnding? then Some(s.ending) else None
  }

  function PickBaseUrls(s: Setter): Option<Option<seq<Option<string>>>>
  {
    if s.BaseUrls? then Some(s.urls) else None
  }

  function PickRootURL(s: Setter): Option<string>
  {
    if s.RootURL? then Some(s.url) else None
  }

  function PickSize(s: Setter): Option<TileSize>
  {
    if s.Size? then Some(s.tileSize) else None
  }

  function OrElse<T>(v: Option<T>, default: T): T
  {
    if v.Some? then v.value else default
  }

  function OrKeep<T>(v: Option<T>, prior: Option<T>): Option<T>
  {
    if v.Some? then v else prior
  }

  /** Last write wins: after a chain of setters each field holds what the
      last setter for it wrote, or what it held before if no setter
      touched it; in particular each setter changes only its own fields,
      and `setTileSize(Int)` and `setTileSize(TileSize)` write different
      fields. */
  lemma {:induction false} SetAllLastWriteWins(b: Builder, ss: seq<Setter>)
    ensures var r := SetAll(b, ss);
            && r.name == OrElse(Last(ss, PickName), b.name)
            && (r.zoomMinLevel, r.zoomMaxLevel) == OrElse(Last(ss, PickZoom), (b.zoomMinLevel, b.zoomMaxLevel))
            && r.tileSizePixels == OrElse(Last(ss, PickPixels), b.tileSizePixels)
            && r.imageFilenameEnding == OrElse(Last(ss, PickEnding), b.imageFilenameEnding)
            && r.baseUrls == OrElse(Last(ss, PickBaseUrls), b.baseUrls)
            && r.rootURL == OrKeep(Last(ss, PickRootURL), b.rootURL)
            && r.tileSize == OrKeep(Last(ss, PickSize), b.tileSize)
    decreases |ss|
  {
    if ss != [] {
      var init, s := ss[..|ss| - 1], ss[|ss| - 1];
      SetAllLastWriteWins(b, init);
      assert SetAll(b, ss) == Set(SetAll(b, init), s);
      match s
      case Name(_) =>
      case ZoomLevels(_, _) =>
      case TilePixels(_) =>
      case ImageFilenameEnding(_) =>
      case BaseUrls(_) =>
      case RootURL(_) =>
      case Size(_) =>
    }
  }

  /** Calling a setter twice is calling it once with the second value. */
  lemma SetTwice(b: Builder, s: Setter, t: Setter)
    requires s.Name? == t.Name? && s.ZoomLevels? == t.ZoomLevels? && s.TilePixels? == t.TilePixels?
    requires s.ImageFilenameEnding? == t.ImageFilenameEnding? && s.BaseUrls? == t.BaseUrls?
    requires s.RootURL? == t.RootURL? && s.Size? == t.Size?
    ensures Set(Set(b, s), t) == Set(b, t)
  {
  }

  /** Setters of different kinds commute. */
  lemma SetCommutes(b: Builder, s: Setter, t: Setter)
    requires !(s.Name? && t.Name?) && !(s.ZoomLevels? && t.ZoomLevels?) && !(s.TilePixels? && t.TilePixels?)
    requires !(s.ImageFilenameEnding? && t.ImageFilenameEnding?) && !(s.BaseUrls? && t.BaseUrls?)
    requires !(s.RootURL? && t.RootURL?) && !(s.Size? && t.Size?)
    ensures Set(Set(b, s), t) == Set(Set(b, t), s)
  {
  }

  /** Builds the tile source. Reading an unset lateinit field throws;
      the root URL is read before the tile size. */
  function Build(b: Builder): (r: Result<MapTilerTileSource>)
    ensures r.Err? <==> b.rootURL.None? || b.tileSize.None?
    ensures b.rootURL.None? ==> r == Err(UninitializedProperty("rootURL"))
    ensures b.rootURL.Some? && b.tileSize.None? ==> r == Err(UninitializedProperty("tileSize"))
    ensures r.Ok? ==> r.value == MapTilerTileSource(b.name, b.zoomMinLevel, b.zoomMaxLevel, b.tileSizePixels,
                                                    b.imageFilenameEnding, b.baseUrls,
                                                    b.rootURL.value, b.tileSize.value)
  {
    if b.rootURL.None? then Err(UninitializedProperty("rootURL"))
    else if b.tileSize.None? then Err(UninitializedProperty("tileSize"))
    else Ok(MapTilerTileSource(b.name, b.zoomMinLevel, b.zoomMaxLevel, b.tileSizePixels,
                               b.imageFilenameEnding, b.baseUrls, b.rootURL.value, b.tileSize.value))
  }

  /** A builder fed a chain of setters builds exactly when the chain sets
      the root URL and the tile size, and the source it builds holds the
      last value written to each field, or the builder's default. */
  lemma BuildAfterSetters(ss: seq<Setter>)
    ensures var r := Build(SetAll(NewBuilder(), ss));
            && (r.Ok? <==> Last(ss, PickRootURL).Some? && Last(ss, PickSize).Some?)
            && (Last(ss, PickRootURL).None? ==> r == Err(UninitializedProperty("rootURL")))
            && (r.Ok? ==>
                  && r.value.name == OrElse(Last(ss, PickName), None)
                  && (r.value.zoomMinLevel, r.value.zoomMaxLevel) == OrElse(Last(ss, PickZoom), (0, 0))
                  && r.value.tileSizePixels == OrElse(Last(ss, PickPixels), 0)
                  && r.value.imageFilenameEnding == OrElse(Last(ss, PickEnding), None)
                  && r.value.baseUrls == OrElse(Last(ss, PickBaseUrls), None)
                  && r.value.rootURL == Last(ss, PickRootURL).value
                  && r.value.tileSize == Last(ss, PickSize).value)
  {
    SetAllLastWriteWins(NewBuilder(), ss);
  }

  // ---------------------------------------------------------------------
  // The tile URL

  /** The fixed tail of every tile URL. */
  function UrlSuffix(apiKey: string): string
  {
    ".png" + "?key=" + apiKey
  }

  /** The path between the root URL and the suffix: the tile size's
      value, zoom, x and y, separated by slashes. */
  function TilePath(size: nat, zoom: nat, x: nat, y: nat): string
  {
    NatToString(size) + "/" + NatToString(zoom) + "/" + NatToString(x) + "/" + NatToString(y)
  }

  /** The URL of the tile at `zoom`, `x`, `y`: the root URL, then the
      tile size's value, zoom, x and y separated by slashes, then `.png`
      and the API key. The extension is fixed, whatever the source's
      filename ending, and the size is the tile size's value, whatever
      the source's pixel count. */
  function TileUrl(src: MapTilerTileSource, zoom: nat, x: nat, y: nat, apiKey: string): (url: string)
    ensures |url| >= |src.rootURL| + |UrlSuffix(apiKey)|
    ensures url[..|src.rootURL|] == src.rootURL
    ensures url[|url| - |UrlSuffix(apiKey)|..] == UrlSuffix(apiKey)
  {
    src.rootURL + TilePath(TileSizeValue(src.tileSize), zoom, x, y) + UrlSuffix(apiKey)
  }

  /** What a tile URL addresses. */
  datatype TileAddress = TileAddress(size: nat, zoom: nat, x: nat, y: nat)

  /** Reads a tile URL back, given the root URL and API key it was built
      with: `None` unless it starts with the root, ends with the suffix,
      and holds four slash-separated numbers in between. */
  function ParseTileUrl(url: string, root: string, apiKey: string): (a: Option<TileAddress>)
    ensures a.Some? ==> |url| >= |root| + |UrlSuffix(apiKey)| && url[..|root|] == root
  {
    var suffix := UrlSuffix(apiKey);
    if |url| < |root| + |suffix| || url[..|root|] != root || url[|url| - |suffix|..] != suffix then None
    else
      var parts := Split(url[|root|..|url| - |suffix|], '/');
      if |parts| != 4 then None
      else
        match (ParseNat(parts[0]), ParseNat(parts[1]), ParseNat(parts[2]), ParseNat(parts[3]))
        case (Some(s), Some(z), Some(x), Some(y)) => Some(TileAddress(s, z, x, y))
        case _ => None
  }

  /** A rendered number holds no slash. */
  lemma NoSlash(n: nat)
    ensures forall i :: 0 <= i < |NatToString(n)| ==> NatToString(n)[i] != '/'
  {
  }

  /** A rendered number followed by a slash splits off as one piece. */
  lemma SplitNumber(n: nat, rest: string)
    ensures Split(NatToString(n) + "/" + rest, '/') == [NatToString(n)] + Split(rest, '/')
  {
    NoSlash(n);
    SplitPiece(NatToString(n), '/', rest);
  }

  /** The path, grouped from the right. */
  lemma TilePathShape(size: nat, zoom: nat, x: nat, y: nat)
    ensures TilePath(size, zoom, x, y)
            == NatToString(size) + "/" + (NatToString(zoom) + "/" + (NatToString(x) + "/" + NatToString(y)))
  {
  }

  /** The path splits at its slashes into the four rendered numbers. */
  lemma SplitTilePath(size: nat, zoom: nat, x: nat, y: nat)
    ensures Split(TilePath(size, zoom, x, y), '/')
            == [NatToString(size), NatToString(zoom), NatToString(x), NatToString(y)]
  {
    var ys := NatToString(y);
    var r3 := NatToString(x) + "/" + ys;
    var r2 := NatToString(zoom) + "/" + r3;
    TilePathShape(size, zoom, x, y);
    NoSlash(y);
    SplitNone(ys, '/');
    SplitNumber(x, ys);
    SplitNumber(zoom, r3);
    SplitNumber(size, r2);
  }

  /** Reading a tile URL back gives the tile size, zoom, x and y it was
      built from, in that order. */
  lemma ParseTileUrlRoundTrip(src: MapTilerTileSource, zoom: nat, x: nat, y: nat, apiKey: string)
    ensures ParseTileUrl(TileUrl(src, zoom, x, y, apiKey), src.rootURL, apiKey)
            == Some(TileAddress(TileSizeValue(src.tileSize), zoom, x, y))
  {
    var size := TileSizeValue(src.tileSize);
    var url := TileUrl(src, zoom, x, y, apiKey);
    var path := TilePath(size, zoom, x, y);
    assert url[|src.rootURL|..|url| - |UrlSuffix(apiKey)|] == path;
    SplitTilePath(size, zoom, x, y);
    ParseNatToString(size);
    ParseNatToString(zoom);
    ParseNatToString(x);
    ParseNatToString(y);
  }

  /** Distinct tiles of one source have distinct URLs. */
  lemma TileUrlInjective(src: MapTilerTileSource, z1: nat, x1: nat, y1: nat, z2: nat, x2: nat, y2: nat, apiKey: string)
    requires TileUrl(src, z1, x1, y1, apiKey) == TileUrl(src, z2, x2, y2, apiKey)
    ensures z1 == z2 && x1 == x2 && y1 == y2
  {
    ParseTileUrlRoundTrip(src, z1, x1, y1, apiKey);
    ParseTileUrlRoundTrip(src, z2, x2, y2, apiKey);
  }

  /** The URL depends on the root URL and tile size only: the name, zoom
      range, pixel count, filename ending and base URLs play no part. */
  lemma TileUrlIgnoresOtherFields(src: MapTilerTileSource, other: MapTilerTileSource,
                                  zoom: nat, x: nat, y: nat, apiKey: string)
    requires other.rootURL == src.rootURL && other.tileSize == src.tileSize
    ensures TileUrl(other, zoom, x, y, apiKey) == TileUrl(src, zoom, x, y, apiKey)
  {
  }
}
