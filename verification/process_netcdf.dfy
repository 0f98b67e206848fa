/**
 * The naming logic of the NetCDF processor: parsing a polar-swath file path
 * with its fixed regular expression, the glob pattern for the other files of
 * the same pass, the product list, the GeoTIFF and map-file names, which
 * products still have to be generated, and the time metadata of the map
 * layers. The satellite toolkit, the raster reader and the map renderer are
 * outside the model; file existence and the glob search are parameters.
 */
module ProcessNetcdf {
  import opened Wrappers
  import opened Timestamps

  /** The platform alternatives of the file-name pattern, in its order. */
  const Platforms: seq<string> :=
    ["metopa", "metopb", "metopc", "noaa18", "noaa19", "noaa20", "npp", "aqua", "terra", "fy3d"]

  /** The instrument alternatives of the file-name pattern, in its order. */
  const Instruments: seq<string> := ["avhrr", "viirs-mband", "viirs-dnb", "modis-1km", "mersi2-1k"]

  /** The fixed directory text that must end the directory part, before `YYYY/MM/DD/`. */
  const ArchiveMarker: string := "satellite-thredds/polar-swath/"

  /** `satellite-thredds/polar-swath/` and `YYYY/MM/DD/`: 30 + 11 characters. */
  const DirSuffixLength: nat := 41

  /** `-<14 digits>-<14 digits>.nc`: 1 + 14 + 1 + 14 + 3 characters. */
  const TailLength: nat := 33

  /** `\d{4}/\d{2}/\d{2}/` */
  predicate IsDateDirs(s: string)
  {
    |s| == 11 && AllDigits(s[0..4]) && s[4] == '/' && AllDigits(s[5..7]) && s[7] == '/'
    && AllDigits(s[8..10]) && s[10] == '/'
  }

  /**
   * The first group, `.*satellite-thredds/polar-swath/\d{4}/\d{2}/\d{2}/`:
   * anything without a line break (`.` does not match one), then the fixed
   * archive directories.
   */
  predicate IsArchiveDir(d: string)
  {
    '\n' !in d && |d| >= DirSuffixLength
    && d[|d| - DirSuffixLength..|d| - 11] == ArchiveMarker && IsDateDirs(d[|d| - 11..])
  }

  /** The five groups of a match: directory, platform, instrument, start and end time. */
  datatype SwathName = SwathName(dir: string, platform: string, instrument: string, start: string, end: string)

  predicate Valid(n: SwathName)
  {
    IsArchiveDir(n.dir) && n.platform in Platforms && n.instrument in Instruments
    && IsTimestamp14(n.start) && IsTimestamp14(n.end)
  }

  /** The path a match was read from, with the pattern's fixed separators put back. */
  function Render(n: SwathName): string
  {
    n.dir + n.platform + "-" + n.instrument + "-" + n.start + "-" + n.end + ".nc"
  }

  /**
   * The language of the pattern under `re.match` with a final `$`: a rendered
   * valid name, or one followed by a single line break, which `$` tolerates.
   */
  ghost predicate MatchesPattern(path: string)
  {
    exists n :: Valid(n) && (path == Render(n) || path == Render(n) + "\n")
  }

  /** The position of the last `c` in `s`, or -1 when there is none. */
  function LastIndexOf(s: string, c: char): (k: int)
    ensures -1 <= k < |s|
    ensures k >= 0 ==> s[k] == c
    ensures forall j :: k < j < |s| ==> s[j] != c
  {
    if |s| == 0 then -1
    else if s[|s| - 1] == c then |s| - 1
    else LastIndexOf(s[..|s| - 1], c)
  }

  /** The position of the first `c` in `s`, or -1 when there is none. */
  function FirstIndexOf(s: string, c: char): (k: int)
    ensures -1 <= k < |s|
    ensures k >= 0 ==> s[k] == c && forall j :: 0 <= j < k ==> s[j] != c
    ensures k < 0 ==> c !in s
  {
    if |s| == 0 then -1
    else if s[0] == c then 0
    else var k := FirstIndexOf(s[1..], c); if k < 0 then -1 else k + 1
  }

  /** No platform holds a `/` or a `-`, and no instrument a `/`, so a match splits in one way only. */
  lemma NameAlphabet()
    ensures forall p :: p in Platforms ==> '/' !in p && '-' !in p
    ensures forall i :: i in Instruments ==> '/' !in i
  {
  }

  /** The fixed-length tail `-<start>-<end>.nc` split off a line, leaving the head before it. */
  function SplitTail(line: string): (r: Option<(string, string, string)>)
    ensures r.Some? ==> line == r.value.0 + "-" + r.value.1 + "-" + r.value.2 + ".nc"
                        && IsTimestamp14(r.value.1) && IsTimestamp14(r.value.2)
  {
    if |line| < TailLength then None
    else
      var head, tail := line[..|line| - TailLength], line[|line| - TailLength..];
      var start, end := tail[1..15], tail[16..30];
      if tail[0] == '-' && IsTimestamp14(start) && tail[15] == '-' && IsTimestamp14(end) && tail[30..] == ".nc" then
        assert tail == "-" + start + "-" + end + ".nc";
        assert line == head + tail;
        Some((head, start, end))
      else None
  }

  /** The head cut after its last `/`: the directory group and the file stem. */
  function SplitDir(head: string): (r: Option<(string, string)>)
    ensures r.Some? ==> head == r.value.0 + r.value.1 && '/' !in r.value.1
  {
    var slash := LastIndexOf(head, '/');
    if slash < 0 then None
    else
      assert head == head[..slash + 1] + head[slash + 1..];
      Some((head[..slash + 1], head[slash + 1..]))
  }

  /** The stem cut at its first `-`: platform and instrument. */
  function SplitStem(stem: string): (r: Option<(string, string)>)
    ensures r.Some? ==> stem == r.value.0 + "-" + r.value.1
  {
    var dash := FirstIndexOf(stem, '-');
    if dash < 0 then None
    else
      assert stem == stem[..dash] + "-" + stem[dash + 1..];
      Some((stem[..dash], stem[dash + 1..]))
  }

  /**
   * The split the pattern forces on a line: a fixed-length tail of two stamps
   * and `.nc`, the directory up to the last `/` before it, and the file stem
   * cut at its first `-`. Which platforms and instruments are allowed is
   * checked afterwards, by `ParseLine`.
   */
  function SplitLine(line: string): (r: Option<SwathName>)
    ensures r.Some? ==> line == Render(r.value) && IsTimestamp14(r.value.start) && IsTimestamp14(r.value.end)
  {
    match SplitTail(line)
    case None => None
    case Some((head, start, end)) =>
      match SplitDir(head)
      case None => None
      case Some((dir, stem)) =>
        match SplitStem(stem)
        case None => None
        case Some((platform, instrument)) => Some(SwathName(dir, platform, instrument, start, end))
  }

  /** A line without its trailing line break, matched against the whole pattern. */
  function ParseLine(line: string): (r: Option<SwathName>)
    ensures r.Some? ==> Valid(r.value) && line == Render(r.value)
  {
    match SplitLine(line)
    case None => None
    case Some(n) => if Valid(n) then Some(n) else None
  }

  /**
   * `_parse_filename`: the five groups of the pattern, or `None` when the path
   * does not match.
   */
  function ParseFilename(path: string): (r: Option<SwathName>)
    ensures r.Some? ==> Valid(r.value) && (path == Render(r.value) || path == Render(r.value) + "\n")
  {
    if |path| > 0 && path[|path| - 1] == '\n' then
      var line := path[..|path| - 1];
      assert path == line + "\n";
      ParseLine(line)
    else ParseLine(path)
  }

  lemma SplitTailRender(head: string, start: string, end: string)
    requires IsTimestamp14(start) && IsTimestamp14(end)
    ensures SplitTail(head + "-" + start + "-" + end + ".nc") == Some((head, start, end))
  {
    var tail := "-" + start + "-" + end + ".nc";
    var line := head + "-" + start + "-" + end + ".nc";
    assert line == head + tail;
    assert line[..|line| - TailLength] == head && line[|line| - TailLength..] == tail;
    assert tail[1..15] == start && tail[16..30] == end && tail[30..] == ".nc";
  }

  lemma SplitDirRender(dir: string, stem: string)
    requires |dir| > 0 && dir[|dir| - 1] == '/' && '/' !in stem
    ensures SplitDir(dir + stem) == Some((dir, stem))
  {
    var head := dir + stem;
    assert forall j :: |dir| <= j < |head| ==> head[j] != '/' by {
      forall j | |dir| <= j < |head| ensures head[j] != '/' {
        assert head[j] == stem[j - |dir|];
      }
    }
    assert head[|dir| - 1] == '/';
    assert head[..|dir|] == dir && head[|dir|..] == stem;
  }

  lemma SplitStemRender(platform: string, instrument: string)
    requires '-' !in platform
    ensures SplitStem(platform + "-" + instrument) == Some((platform, instrument))
  {
    var stem := platform + "-" + instrument;
    assert forall j :: 0 <= j < |platform| ==> stem[j] != '-' by {
      forall j | 0 <= j < |platform| ensures stem[j] != '-' {
        assert stem[j] == platform[j];
      }
    }
    assert stem[|platform|] == '-';
    assert stem[..|platform|] == platform && stem[|platform| + 1..] == instrument;
  }

  /** The split recovers every name whose directory ends in `/` and whose platform and instrument have no `/`. */
  lemma SplitRender(n: SwathName)
    requires |n.dir| > 0 && n.dir[|n.dir| - 1] == '/'
    requires '/' !in n.platform && '-' !in n.platform && '/' !in n.instrument
    requires IsTimestamp14(n.start) && IsTimestamp14(n.end)
    ensures SplitLine(Render(n)) == Some(n)
  {
    var stem := n.platform + "-" + n.instrument;
    var head := n.dir + stem;
    assert Render(n) == head + "-" + n.start + "-" + n.end + ".nc";
    SplitTailRender(head, n.start, n.end);
    assert '/' !in stem by {
      forall j | 0 <= j < |stem| ensures stem[j] != '/' {
        if j < |n.platform| { assert stem[j] == n.platform[j]; }
        else if j > |n.platform| { assert stem[j] == n.instrument[j - |n.platform| - 1]; }
      }
    }
    SplitDirRender(n.dir, stem);
    SplitStemRender(n.platform, n.instrument);
  }

  /** Every valid name is parsed back from its rendering, with or without a trailing line break. */
  lemma ParseRender(n: SwathName)
    requires Valid(n)
    ensures ParseFilename(Render(n)) == Some(n)
    ensures ParseFilename(Render(n) + "\n") == Some(n)
  {
    NameAlphabet();
    assert n.dir[|n.dir| - 1] == '/' by {
      assert n.dir[|n.dir| - 1] == n.dir[|n.dir| - 11..][10];
    }
    SplitRender(n);
    var line := Render(n);
    assert ParseLine(line) == Some(n);
    assert (line + "\n")[..|line + "\n"| - 1] == line;
  }

  /** Two valid names with the same rendering are the same name: the split is unique. */
  lemma RenderInjective(n: SwathName, m: SwathName)
    requires Valid(n) && Valid(m) && Render(n) == Render(m)
    ensures n == m
  {
    ParseRender(n);
    ParseRender(m);
  }

  /** `_parse_filename` returns a tuple exactly for the paths the pattern matches. */
  lemma ParseFilenameMatches(path: string)
    ensures ParseFilename(path).Some? <==> MatchesPattern(path)
  {
    if MatchesPattern(path) {
      var n :| Valid(n) && (path == Render(n) || path == Render(n) + "\n");
      ParseRender(n);
    }
  }

  /** `_search_for_similar_netcdf_paths`: the glob pattern for every instrument of the same pass. */
  function SimilarPattern(dir: string, platform: string, start: string, end: string): string
  {
    dir + platform + "-*-" + start + "-" + end + ".nc"
  }

  /** The pattern is the parsed path with its instrument segment replaced by `*`. */
  lemma SimilarPatternReplacesInstrument(n: SwathName)
    ensures var before, after := n.dir + n.platform + "-", "-" + n.start + "-" + n.end + ".nc";
            Render(n) == before + n.instrument + after
            && SimilarPattern(n.dir, n.platform, n.start, n.end) == before + "*" + after
  {
  }

  /**
   * Filling the `*` of a parsed path's pattern with a valid name's instrument
   * gives that name's path exactly when it is the same pass (same directory,
   * platform, start and end) seen by that instrument.
   */
  lemma SimilarPatternSiblings(n: SwathName, m: SwathName)
    requires Valid(n) && Valid(m)
    ensures Render(m) == n.dir + n.platform + "-" + m.instrument + "-" + n.start + "-" + n.end + ".nc"
            <==> m == n.(instrument := m.instrument)
  {
    var sibling := n.(instrument := m.instrument);
    if Render(m) == Render(sibling) {
      RenderInjective(m, sibling);
    }
  }

  /** The product generated when none is requested. */
  const DefaultProduct: string := "overview"

  /**
   * `_get_satpy_products`: the requested products and the request are both
   * ignored; the list is always the default product alone.
   */
  function GetSatpyProducts(requested: seq<string>, fullRequest: Option<map<string, string>>): (r: seq<string>)
    ensures r == [DefaultProduct]
  {
    [DefaultProduct]
  }

  /** One entry of `satpy_products_to_generate`: a product and its GeoTIFF file name. */
  datatype ProductFile = ProductFile(product: string, filename: string)

  /** `f'{product}-{start_time:%Y%m%d%H%M%S}.tif'` */
  function ProductFilename(product: string, start: DateTime): string
  {
    product + "-" + FormatCompact(start) + ".tif"
  }

  /** `f'satpy-products-{start_time:%Y%m%d%H%M%S}.map'` */
  function MapFilename(start: DateTime): string
  {
    "satpy-products-" + FormatCompact(start) + ".map"
  }

  /** Reformatting the parsed start time gives back the file name's own digits. */
  lemma FilenamesUseStartStamp(product: string, stamp: string)
    requires IsTimestamp14(stamp) && Strptime(stamp).Some?
    ensures ProductFilename(product, Strptime(stamp).value) == product + "-" + stamp + ".tif"
    ensures MapFilename(Strptime(stamp).value) == "satpy-products-" + stamp + ".map"
  {
    FormatCompactStrptime(stamp);
  }

  /** The loop of `execute` that pairs each product with its output file name, in order. */
  method PlanProducts(products: seq<string>, start: DateTime) returns (plan: seq<ProductFile>)
    ensures |plan| == |products|
    ensures forall k :: 0 <= k < |plan| ==> plan[k] == ProductFile(products[k], ProductFilename(products[k], start))
  {
    plan := [];
    for i := 0 to |products|
      invariant |plan| == i
      invariant forall k :: 0 <= k < i ==> plan[k] == ProductFile(products[k], ProductFilename(products[k], start))
    {
      plan := plan + [ProductFile(products[i], ProductFilename(products[i], start))];
    }
  }

  /** The products, in plan order, whose output file is not yet on disk. */
  function MissingProducts(plan: seq<ProductFile>, onDisk: set<string>): seq<string>
  {
    if plan == [] then []
    else
      var last := plan[|plan| - 1];
      MissingProducts(plan[..|plan| - 1], onDisk) + (if last.filename in onDisk then [] else [last.product])
  }

  /** A product is selected exactly when some entry of the plan names it with a missing file. */
  lemma {:induction false} MissingProductsMembers(plan: seq<ProductFile>, onDisk: set<string>, p: string)
    ensures p in MissingProducts(plan, onDisk)
            <==> exists k :: 0 <= k < |plan| && plan[k].product == p && plan[k].filename !in onDisk
  {
    if plan != [] {
      var init := plan[..|plan| - 1];
      MissingProductsMembers(init, onDisk, p);
      if exists k :: 0 <= k < |init| && init[k].product == p && init[k].filename !in onDisk {
        var k :| 0 <= k < |init| && init[k].product == p && init[k].filename !in onDisk;
        assert plan[k] == init[k];
      }
      if exists k :: 0 <= k < |plan| && plan[k].product == p && plan[k].filename !in onDisk {
        var k :| 0 <= k < |plan| && plan[k].product == p && plan[k].filename !in onDisk;
        if k < |init| { assert init[k] == plan[k]; }
      }
    }
  }

  /** Selection keeps the plan's order: selecting from two parts is selecting from each in turn. */
  lemma {:induction false} MissingProductsAppend(a: seq<ProductFile>, b: seq<ProductFile>, onDisk: set<string>)
    ensures MissingProducts(a + b, onDisk) == MissingProducts(a, onDisk) + MissingProducts(b, onDisk)
  {
    if b == [] {
      assert a + b == a;
    } else {
      var b' := b[..|b| - 1];
      assert (a + b)[..|a + b| - 1] == a + b';
      MissingProductsAppend(a, b', onDisk);
    }
  }

  /** Nothing is selected exactly when every planned file already exists. */
  lemma {:induction false} MissingProductsEmpty(plan: seq<ProductFile>, onDisk: set<string>)
    ensures MissingProducts(plan, onDisk) == [] <==> forall k :: 0 <= k < |plan| ==> plan[k].filename in onDisk
  {
    if plan != [] {
      var init := plan[..|plan| - 1];
      MissingProductsEmpty(init, onDisk);
      assert forall k :: 0 <= k < |init| ==> init[k] == plan[k];
    }
  }

  /** The first loop of `_generate_satpy_geotiff`: the products whose file does not exist. */
  method SelectMissing(plan: seq<ProductFile>, onDisk: set<string>) returns (selected: seq<string>)
    ensures selected == MissingProducts(plan, onDisk)
  {
    selected := [];
    for i := 0 to |plan|
      invariant selected == MissingProducts(plan[..i], onDisk)
    {
      assert plan[..i + 1][..i] == plan[..i];
      if plan[i].filename !in onDisk {
        selected := selected + [plan[i].product];
      }
    }
    assert plan[..|plan|] == plan;
  }

  /** The entries, in plan order, whose product is among the selected ones. */
  function SavedEntries(plan: seq<ProductFile>, selected: seq<string>): seq<ProductFile>
  {
    if plan == [] then []
    else
      var last := plan[|plan| - 1];
      SavedEntries(plan[..|plan| - 1], selected) + (if last.product in selected then [last] else [])
  }

  /** An entry is saved exactly when it is in the plan and its product was selected. */
  lemma {:induction false} SavedEntriesMembers(plan: seq<ProductFile>, selected: seq<string>, e: ProductFile)
    ensures e in SavedEntries(plan, selected) <==> e in plan && e.product in selected
  {
    if plan != [] {
      var init := plan[..|plan| - 1];
      SavedEntriesMembers(init, selected, e);
      assert plan == init + [plan[|plan| - 1]];
    }
  }

  /** The second loop of `_generate_satpy_geotiff`: save every entry whose product was selected. */
  method SaveSelected(plan: seq<ProductFile>, selected: seq<string>) returns (saved: seq<ProductFile>)
    ensures saved == SavedEntries(plan, selected)
  {
    saved := [];
    for i := 0 to |plan|
      invariant saved == SavedEntries(plan[..i], selected)
    {
      assert plan[..i + 1][..i] == plan[..i];
      if plan[i].product in selected {
        saved := saved + [plan[i]];
      }
    }
    assert plan[..|plan|] == plan;
  }

  /** What `_generate_satpy_geotiff` does: nothing, or load the swath files and save products. */
  datatype Generation =
    | NothingToGenerate
    | Generated(sceneFiles: seq<string>, loaded: seq<string>, saved: seq<ProductFile>)

  /**
   * `_generate_satpy_geotiff`, with `os.path.exists` given as the set of
   * files on disk: it returns early when every output exists, and otherwise
   * builds a scene from the similar swath files, loads the missing products
   * and saves the entries of those products.
   */
  method GenerateGeotiff(netcdfPaths: seq<string>, plan: seq<ProductFile>, onDisk: set<string>)
    returns (g: Generation)
    ensures g.NothingToGenerate? <==> forall k :: 0 <= k < |plan| ==> plan[k].filename in onDisk
    ensures g.Generated? ==> g.sceneFiles == netcdfPaths && g.loaded == MissingProducts(plan, onDisk)
                             && g.saved == SavedEntries(plan, g.loaded)
  {
    var selected := SelectMissing(plan, onDisk);
    MissingProductsEmpty(plan, onDisk);
    if selected == [] {
      return NothingToGenerate;
    }
    var saved := SaveSelected(plan, selected);
    g := Generated(netcdfPaths, selected, saved);
  }

  /** After generation every planned GeoTIFF exists: it was on disk already or it was saved. */
  lemma GenerationCoversPlan(plan: seq<ProductFile>, onDisk: set<string>, e: ProductFile)
    requires e in plan
    ensures e.filename in onDisk || e in SavedEntries(plan, MissingProducts(plan, onDisk))
  {
    if e.filename !in onDisk {
      var k :| 0 <= k < |plan| && plan[k] == e;
      MissingProductsMembers(plan, onDisk, e.product);
      SavedEntriesMembers(plan, MissingProducts(plan, onDisk), e);
    }
  }

  /** Nothing is saved twice over an existing file when the plan names each product once. */
  lemma SavedAreMissing(plan: seq<ProductFile>, onDisk: set<string>, e: ProductFile)
    requires forall i, j :: 0 <= i < j < |plan| ==> plan[i].product != plan[j].product
    requires e in SavedEntries(plan, MissingProducts(plan, onDisk))
    ensures e in plan && e.filename !in onDisk
  {
    SavedEntriesMembers(plan, MissingProducts(plan, onDisk), e);
    MissingProductsMembers(plan, onDisk, e.product);
    var k :| 0 <= k < |plan| && plan[k].product == e.product && plan[k].filename !in onDisk;
    var j :| 0 <= j < |plan| && plan[j] == e;
    if j < k { assert plan[j].product != plan[k].product; }
    if k < j { assert plan[k].product != plan[j].product; }
  }

  /** `wms_timeextent`: the interval from the start time to itself. */
  function TimeExtent(start: DateTime): string
  {
    FormatIso(start) + "/" + FormatIso(start)
  }

  /** The layer's time extent is a zero-length interval at the file name's start stamp. */
  lemma TimeExtentOfStamp(stamp: string)
    requires IsTimestamp14(stamp) && Strptime(stamp).Some?
    ensures var iso := stamp[0..4] + "-" + stamp[4..6] + "-" + stamp[6..8] + "T" + stamp[8..10] + ":"
                       + stamp[10..12] + ":" + stamp[12..14] + "Z";
            FormatIso(Strptime(stamp).value) == iso && TimeExtent(Strptime(stamp).value) == iso + "/" + iso
  {
    FormatIsoStrptime(stamp);
  }

  /** The raster layer object that `_generate_layer` fills in. */
  class LayerObj {
    var name: string
    var data: string
    var status: int
    var isRaster: bool
    var metadata: map<string, string>

    constructor ()
      ensures name == "" && data == "" && status == 0 && !isRaster && metadata == map[]
    {
      name, data, status, isRaster, metadata := "", "", 0, false, map[];
    }
  }

  /**
   * `_generate_layer` without the raster reader: it switches the layer on,
   * points it at the GeoTIFF, names it after the product and sets the title
   * and time metadata.
   */
  method GenerateLayer(start: DateTime, product: string, filename: string, layer: LayerObj)
    modifies layer
    ensures layer.status == 1 && layer.data == filename && layer.isRaster && layer.name == product
    ensures layer.metadata == old(layer.metadata)["wms_title" := product]
                              ["wms_timeextent" := TimeExtent(start)]["wms_default" := FormatIso(start)]
  {
    layer.status := 1;
    layer.data := filename;
    layer.isRaster := true;
    layer.name := product;
    layer.metadata := layer.metadata["wms_title" := product];
    layer.metadata := layer.metadata["wms_timeextent" := TimeExtent(start)];
    layer.metadata := layer.metadata["wms_default" := FormatIso(start)];
  }

  /** Why `execute` stops before producing a map. */
  datatype ExecuteError =
    | MissingName          // ProcessorExecuteError: no `name` input
    | MissingPath          // TypeError: `None` given to the pattern
    | UnparsablePath       // TypeError: unpacking the `None` of a failed match
    | InvalidStartTime     // ValueError from `strptime`

  /** What `execute` has built by the time it renders the map. */
  datatype ExecutePlan = ExecutePlan(
    start: DateTime,
    similarPattern: string,
    products: seq<string>,
    plan: seq<ProductFile>,
    generation: Generation,
    layers: seq<LayerObj>,
    mapFilename: string)

  /**
   * `ProcessNetcdfProcessor.execute` up to the rendering: the inputs are the
   * request's string-valued fields, `glob` stands for the file search and
   * `onDisk` for the files that exist.
   */
  method Execute(data: map<string, string>, glob: string -> seq<string>, onDisk: set<string>)
    returns (r: Result<ExecutePlan, ExecuteError>)
    ensures "name" !in data ==> r == Err(MissingName)
    ensures "name" in data && "netcdf_file" !in data ==> r == Err(MissingPath)
    ensures "name" in data && "netcdf_file" in data && ParseFilename(data["netcdf_file"]).None?
            ==> r == Err(UnparsablePath)
    ensures "name" in data && "netcdf_file" in data && ParseFilename(data["netcdf_file"]).Some?
            ==> var n := ParseFilename(data["netcdf_file"]).value;
                (Strptime(n.start).None? ==> r == Err(InvalidStartTime))
                && (Strptime(n.start).Some? ==>
                      r.Ok? && r.value.start == Strptime(n.start).value
                      && r.value.similarPattern == SimilarPattern(n.dir, n.platform, n.start, n.end)
                      && r.value.products == [DefaultProduct]
                      && r.value.plan == [ProductFile(DefaultProduct, DefaultProduct + "-" + n.start + ".tif")]
                      && r.value.mapFilename == "satpy-products-" + n.start + ".map")
    ensures r.Ok? ==> (r.value.generation == NothingToGenerate
                       <==> forall k :: 0 <= k < |r.value.plan| ==> r.value.plan[k].filename in onDisk)
    ensures r.Ok? && r.value.generation.Generated? ==>
              r.value.generation.sceneFiles == glob(r.value.similarPattern)
              && r.value.generation.loaded == MissingProducts(r.value.plan, onDisk)
              && r.value.generation.saved == SavedEntries(r.value.plan, r.value.generation.loaded)
    ensures r.Ok? ==> |r.value.layers| == |r.value.plan|
    ensures r.Ok? ==> forall k :: 0 <= k < |r.value.layers| ==>
              var layer, entry := r.value.layers[k], r.value.plan[k];
              layer.name == entry.product && layer.data == entry.filename && layer.status == 1
              && layer.metadata == map["wms_title" := entry.product,
                                       "wms_timeextent" := TimeExtent(r.value.start),
                                       "wms_default" := FormatIso(r.value.start)]
  {
    if "name" !in data {
      return Err(MissingName);
    }
    if "netcdf_file" !in data {
      return Err(MissingPath);
    }
    var path := data["netcdf_file"];
    var parsed := ParseFilename(path);
    if parsed.None? {
      return Err(UnparsablePath);
    }
    var n := parsed.value;
    var startTime := Strptime(n.start);
    if startTime.None? {
      return Err(InvalidStartTime);
    }
    var start := startTime.value;
    var pattern := SimilarPattern(n.dir, n.platform, n.start, n.end);
    var similarPaths := glob(pattern);
    var products := GetSatpyProducts([], None);
    var plan := PlanProducts(products, start);
    FilenamesUseStartStamp(DefaultProduct, n.start);
    var generation := GenerateGeotiff(similarPaths, plan, onDisk);

    var layers: seq<LayerObj> := [];
    for i := 0 to |plan|
      invariant |layers| == i
      invariant forall k :: 0 <= k < i ==>
                  layers[k].name == plan[k].product && layers[k].data == plan[k].filename && layers[k].status == 1
                  && layers[k].metadata == map["wms_title" := plan[k].product,
                                               "wms_timeextent" := TimeExtent(start),
                                               "wms_default" := FormatIso(start)]
    {
      var layer := new LayerObj();
      GenerateLayer(start, plan[i].product, plan[i].filename, layer);
      layers := layers + [layer];
    }
    r := Ok(ExecutePlan(start, pattern, products, plan, generation, layers, MapFilename(start)));
  }
}
