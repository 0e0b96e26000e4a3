/**
 `fetch_least_cloudy`: pick the least cloudy scene the catalogue returned and
 make sure its true-colour GeoTIFF is on local disk, downloading it only when
 the expected file is not there yet. The catalogue search, the raster read,
 the raster write and the rename are foreign calls whose outcomes are inputs;
 the filesystem is a map from paths to file contents, and every call that
 reaches the network or the disk is recorded as an event.
 */
module FetchSentinel {
  import opened Outcomes
  import opened Scenes

  type Byte = b: int | 0 <= b < 256
  type Bytes = seq<Byte>

  /** A filesystem path as its sequence of components. */
  type Path = seq<string>

  /** The files on disk and their contents; directories are left implicit. */
  type Fs = map<Path, Bytes>

  /** The suffix of the local file name; the stem is the scene id. */
  const VisualSuffix := "_visual.tif"

  /** The header of a classic little-endian TIFF file: byte order "II", then the version number 42. */
  const TiffHeader: Bytes := [0x49, 0x49, 0x2A, 0x00]

  /** A raster as read from the signed href; its profile is carried through unchanged and not modelled. */
  datatype Raster = Raster(pixels: Bytes)

  /**
   The GeoTIFF rasterio writes for a raster: a classic TIFF header, then an
   encoding of the pixels kept abstract. The abstraction assumes only that a
   written GeoTIFF is never empty and is determined by the raster.
   */
  function GeoTiff(r: Raster): Bytes {
    TiffHeader + r.pixels
  }

  /** How the write of the temporary GeoTIFF ends: complete, or raised after `partial` reached the disk. */
  datatype WriteOutcome = Written | WriteRaised(partial: Bytes, message: string)

  /** What the foreign calls do on one run. */
  datatype Io = Io(
    create: Outcome<()>,              // tempfile.NamedTemporaryFile(suffix=".tif", delete=False)
    read: string -> Outcome<Raster>,  // rasterio.open(href) and read
    write: WriteOutcome,              // rasterio.open(tmp, "w") and write
    rename: Outcome<()>)              // Path(tmp).rename(local)

  /** Why `fetch_least_cloudy` raised. */
  datatype FetchError =
    | NoTiles                      // the RuntimeError "No tiles found"
    | MissingAsset(role: string)   // KeyError on the scene's asset map
    | CreateFailed(message: string)
    | ReadFailed(message: string)
    | WriteFailed(message: string)
    | RenameFailed(message: string)

  /** A call that reached the network or the disk. */
  datatype Event =
    | Created(path: Path)                    // NamedTemporaryFile(delete=False) creates an empty file
    | Fetched(href: string)                  // rasterio.open(href) and read: the one network download
    | Wrote(path: Path, content: Bytes)
    | Renamed(source: Path, target: Path)

  /** The result of a call, the filesystem it leaves behind, and the events it performed in order. */
  datatype Run = Run(result: Result<Path, FetchError>, fs: Fs, events: seq<Event>)

  /** `out_dir / f"{scene_id}_visual.tif"`. */
  function LocalPath(outDir: Path, sceneId: string): Path {
    outDir + [sceneId + VisualSuffix]
  }

  /** Whether an event writes, creates or replaces the file at `p`. */
  predicate Modifies(e: Event, p: Path) {
    match e
    case Created(q) => q == p
    case Fetched(_) => false
    case Wrote(q, _) => q == p
    case Renamed(src, dst) => src == p || dst == p
  }

  /** No two events of the sequence are downloads. */
  predicate AtMostOneFetch(events: seq<Event>) {
    forall i, j :: 0 <= i < j < |events| && events[i].Fetched? ==> !events[j].Fetched?
  }

  /** `Path(src).rename(dst)`: the file moves to `dst`, replacing whatever was there. */
  function Rename(fs: Fs, src: Path, dst: Path): (fs': Fs)
    requires src in fs
    ensures dst in fs' && fs'[dst] == fs[src]
    ensures src != dst ==> src !in fs'
    ensures forall p :: p != src && p != dst ==> (p in fs' <==> p in fs) && (p in fs ==> fs'[p] == fs[p])
  {
    (fs - {src})[dst := fs[src]]
  }

  /**
   The cache-miss branch: create the temporary file, download the raster,
   write it as a GeoTIFF into the temporary file, and rename that file to
   `local`. Each foreign call can raise, which ends the run there; when the
   temporary file cannot even be created, nothing is downloaded or changed.
   */
  function Materialise(href: string, local: Path, fs: Fs, tmp: Path, io: Io): (r: Run)
    requires tmp !in fs
    ensures r.result.Ok? <==> io.create.Done? && io.read(href).Done? && io.write.Written? && io.rename.Done?
    ensures r.result.Ok? ==> r.result.value == local && r.fs == fs[local := GeoTiff(io.read(href).value)]
    ensures r.result.Err? ==> r.fs - {tmp} == fs
    ensures io.create.Raised? ==> r.result == Err(CreateFailed(io.create.message)) && r.fs == fs && r.events == []
    ensures Fetched(href) in r.events <==> io.create.Done?
    ensures AtMostOneFetch(r.events)
    ensures tmp != local ==> forall i :: 0 <= i < |r.events| && Modifies(r.events[i], local) ==>
              i == |r.events| - 1 && r.events[i] == Renamed(tmp, local) && r.result.Ok?
  {
    match io.create
    case Raised(m) => Run(Err(CreateFailed(m)), fs, [])
    case Done(_) =>
      var fs1 := fs[tmp := []];
      var fetched := [Created(tmp), Fetched(href)];
      match io.read(href)
      case Raised(m) => Run(Err(ReadFailed(m)), fs1, fetched)
      case Done(raster) =>
        match io.write
        case WriteRaised(partial, m) =>
          Run(Err(WriteFailed(m)), fs1[tmp := partial], fetched + [Wrote(tmp, partial)])
        case Written =>
          var content := GeoTiff(raster);
          var fs2 := fs1[tmp := content];
          var written := fetched + [Wrote(tmp, content)];
          match io.rename
          case Raised(m) => Run(Err(RenameFailed(m)), fs2, written)
          case Done(_) =>
            assert fs2 - {tmp} == fs;
            Run(Ok(local), Rename(fs2, tmp, local), written + [Renamed(tmp, local)])
  }

  /**
   `fetch_least_cloudy(aoi, date_range, max_cloud, out_dir)` once the search
   has returned `items`: `tmp` is the fresh name NamedTemporaryFile picks.
   */
  function FetchLeastCloudy(items: seq<Scene>, outDir: Path, fs: Fs, tmp: Path, io: Io): (r: Run)
    requires tmp !in fs
    ensures r.result == Err(NoTiles) <==> |items| == 0
    ensures |items| == 0 ==> r.fs == fs && r.events == []
    ensures r.result.Ok? ==> exists k :: IsFirstLeastCloudy(items, k) && r.result.value == LocalPath(outDir, items[k].id)
    ensures r.result.Ok? ==> r.result.value in r.fs && r.fs - {r.result.value} == fs - {r.result.value}
    ensures r.result.Ok? && r.result.value !in fs ==> |r.fs[r.result.value]| > 0
    ensures r.result.Ok? && r.result.value !in fs ==>
              exists k :: && IsFirstLeastCloudy(items, k) && VisualRole in items[k].assets
                          && Fetched(items[k].assets[VisualRole].href) in r.events
                          && io.read(items[k].assets[VisualRole].href).Done?
                          && r.fs[r.result.value] == GeoTiff(io.read(items[k].assets[VisualRole].href).value)
    ensures r.result.Err? ==> r.fs - {tmp} == fs
    ensures AtMostOneFetch(r.events)
  {
    if |items| == 0 then Run(Err(NoTiles), fs, [])
    else
      var k := BestIndex(items, |items|);
      assert items[..|items|] == items;
      var best := items[k];
      if VisualRole !in best.assets then Run(Err(MissingAsset(VisualRole)), fs, [])
      else
        var local := LocalPath(outDir, best.id);
        if local in fs then Run(Ok(local), fs, [])
        else Materialise(best.assets[VisualRole].href, local, fs, tmp, io)
  }

  /** The local file name is determined by the scene id alone, and distinct scenes get distinct files. */
  lemma LocalPathInjective(outDir: Path, id1: string, id2: string)
    ensures LocalPath(outDir, id1) == LocalPath(outDir, id2) <==> id1 == id2
  {
    if LocalPath(outDir, id1) == LocalPath(outDir, id2) {
      var n1, n2 := id1 + VisualSuffix, id2 + VisualSuffix;
      assert n1 == LocalPath(outDir, id1)[|outDir|] == n2;
      assert id1 == n1[..|id1|] && id2 == n2[..|id2|];
    }
  }

  /**
   For the chosen scene (index `k`): a scene without a visual asset raises
   KeyError before the cache is even looked at, cached file or not; otherwise
   the call returns exactly when the file is already cached or every step of
   the download (create, read, write, rename) succeeds.
   */
  lemma SucceedsExactlyWhenCachedOrDownloaded(items: seq<Scene>, k: nat, outDir: Path, fs: Fs, tmp: Path, io: Io)
    requires tmp !in fs && IsFirstLeastCloudy(items, k)
    ensures var r := FetchLeastCloudy(items, outDir, fs, tmp, io);
            && (VisualRole !in items[k].assets ==> r == Run(Err(MissingAsset(VisualRole)), fs, []))
            && (VisualRole in items[k].assets ==>
                  var href := items[k].assets[VisualRole].href;
                  (r.result.Ok? <==>
                     || LocalPath(outDir, items[k].id) in fs
                     || (io.create.Done? && io.read(href).Done? && io.write.Written? && io.rename.Done?)))
  {
  }

  /**
   Downloading into a directory that does not hold the chosen scene's file
   yet (`k` is the index of that scene), a call that returns leaves a
   non-empty file at the returned path. This is a corollary of
   `FetchLeastCloudy`'s own contract, stated for the chosen scene.
   */
  lemma FreshDownloadIsNonEmpty(items: seq<Scene>, k: nat, outDir: Path, fs: Fs, tmp: Path, io: Io)
    requires tmp !in fs && IsFirstLeastCloudy(items, k)
    requires LocalPath(outDir, items[k].id) !in fs
    ensures var r := FetchLeastCloudy(items, outDir, fs, tmp, io);
            r.result.Ok? ==> r.result.value in r.fs && |r.fs[r.result.value]| > 0
  {
  }

  /**
   A fresh download fetches the chosen scene's (index `k`) visual asset and
   nothing else, and the returned file holds the GeoTIFF of exactly that
   raster.
   */
  lemma FreshDownloadHoldsChosenScene(items: seq<Scene>, k: nat, outDir: Path, fs: Fs, tmp: Path, io: Io)
    requires tmp !in fs && IsFirstLeastCloudy(items, k)
    requires LocalPath(outDir, items[k].id) !in fs
    ensures var r := FetchLeastCloudy(items, outDir, fs, tmp, io);
            r.result.Ok? ==>
              && VisualRole in items[k].assets
              && var href := items[k].assets[VisualRole].href;
                 && (forall i :: 0 <= i < |r.events| && r.events[i].Fetched? ==> r.events[i] == Fetched(href))
                 && io.read(href).Done?
                 && r.fs == fs[r.result.value := GeoTiff(io.read(href).value)]
  {
    FoldFindsFirstLeastCloudy(items, k);
  }

  /**
   When the file for the chosen scene (at index `k`) already exists, the call
   returns its path without downloading, creating or renaming anything.
   */
  lemma CacheHitTouchesNothing(items: seq<Scene>, k: nat, outDir: Path, fs: Fs, tmp: Path, io: Io)
    requires tmp !in fs && IsFirstLeastCloudy(items, k)
    requires VisualRole in items[k].assets && LocalPath(outDir, items[k].id) in fs
    ensures FetchLeastCloudy(items, outDir, fs, tmp, io) == Run(Ok(LocalPath(outDir, items[k].id)), fs, [])
  {
  }

  /**
   Idempotence: after a successful call, calling again with the same scenes
   and directory (whatever the foreign calls would now do) returns the same
   path, leaves the files as they are and downloads nothing, so the two calls
   together download at most once.
   */
  lemma {:induction false} SecondCallIsCacheHit(items: seq<Scene>, outDir: Path, fs: Fs, tmp: Path, io: Io, tmp2: Path, io2: Io)
    requires tmp !in fs
    ensures var first := FetchLeastCloudy(items, outDir, fs, tmp, io);
            first.result.Ok? && tmp2 !in first.fs ==>
              var second := FetchLeastCloudy(items, outDir, first.fs, tmp2, io2);
              && second.result == first.result
              && second.fs == first.fs
              && second.events == []
              && AtMostOneFetch(first.events + second.events)
  {
    var first := FetchLeastCloudy(items, outDir, fs, tmp, io);
    if first.result.Ok? && tmp2 !in first.fs {
      var k := BestIndex(items, |items|);
      assert items[..|items|] == items;
      assert VisualRole in items[k].assets;
      CacheHitTouchesNothing(items, k, outDir, first.fs, tmp2, io2);
      assert first.events + [] == first.events;
    }
  }

  /**
   On a cache miss for the chosen scene (at index `k`), the final file is only
   ever produced by the rename: no earlier event touches it, and a run that
   raises leaves it absent.
   */
  lemma {:induction false} FinalPathOnlyWrittenByRename(items: seq<Scene>, k: nat, outDir: Path, fs: Fs, tmp: Path, io: Io)
    requires tmp !in fs && IsFirstLeastCloudy(items, k)
    requires LocalPath(outDir, items[k].id) !in fs
    requires tmp != LocalPath(outDir, items[k].id)
    ensures var local := LocalPath(outDir, items[k].id);
            var r := FetchLeastCloudy(items, outDir, fs, tmp, io);
            && (forall i :: 0 <= i < |r.events| && Modifies(r.events[i], local) ==>
                  i == |r.events| - 1 && r.events[i] == Renamed(tmp, local) && r.result.Ok?)
            && (r.result.Err? ==> local !in r.fs)
  {
    var local := LocalPath(outDir, items[k].id);
    var r := FetchLeastCloudy(items, outDir, fs, tmp, io);
    if r.result.Err? {
      assert local !in r.fs - {tmp};
    }
  }
}
