/** The model downloader: a fixed catalog, a marker file per finished download,
    the table of downloads in flight, and the queries over the catalog. The
    filesystem is a map from path to entry; snapshot_download is an outcome given
    by the caller. */
module Downloader {
  import opened Wrappers
  import opened PyStr
  import opened Runtime

  /** MODELS_DIR at its default, `./models`. */
  const DefaultModelsDir: string := "models"
  const MarkerName: string := ".download_complete"
  const BytesPerGb: int := 1073741824

  /** ModelInfo; `type` is called `kind` here. */
  datatype ModelInfo = ModelInfo(
    id: string,
    name: string,
    repoId: string,
    kind: string,
    sizeGb: real,
    description: string,
    requiredVramGb: real)

  /** AVAILABLE_MODELS. */
  const AvailableModels: seq<ModelInfo> := [
    ModelInfo("ltx-video-distilled", "LTX-Video 0.9.8 (Distilled)", "Lightricks/LTX-Video-0.9.8-distilled",
              "video", 8.5, "Fast video generation, optimized for consumer GPUs", 8.0),
    ModelInfo("ltx-video-full", "LTX-Video 13B", "Lightricks/LTX-Video",
              "video", 26.0, "Full quality video generation model", 16.0),
    ModelInfo("flux-schnell", "Flux.1 Schnell", "black-forest-labs/FLUX.1-schnell",
              "image", 12.0, "Ultra-fast image generation (4 steps)", 6.0),
    ModelInfo("flux-dev", "Flux.1 Dev", "black-forest-labs/FLUX.1-dev",
              "image", 24.0, "High quality image generation", 12.0)
  ]

  /** `[m.id for m in models]`. */
  function Ids(models: seq<ModelInfo>): (ids: seq<string>)
    ensures |ids| == |models|
    ensures forall k :: 0 <= k < |models| ==> ids[k] == models[k].id
  {
    if |models| == 0 then [] else Ids(models[..|models| - 1]) + [models[|models| - 1].id]
  }

  /** The first entry with the given id, as the loop of get_model_info finds it. */
  function Lookup(models: seq<ModelInfo>, id: string): (r: Option<ModelInfo>)
    ensures r.Some? ==> r.value.id == id
  {
    if |models| == 0 then None
    else if models[0].id == id then Some(models[0])
    else Lookup(models[1..], id)
  }

  /** Lookup finds nothing exactly when no entry has the id, and otherwise the
      entry at the first position holding it. */
  lemma {:induction false} LookupFirstMatch(models: seq<ModelInfo>, id: string)
    ensures Lookup(models, id).None? <==> forall k :: 0 <= k < |models| ==> models[k].id != id
    ensures Lookup(models, id).Some? ==>
              exists k :: 0 <= k < |models| && models[k] == Lookup(models, id).value && models[k].id == id &&
                          forall j :: 0 <= j < k ==> models[j].id != id
  {
    if |models| > 0 && models[0].id != id {
      LookupFirstMatch(models[1..], id);
      if Lookup(models, id).Some? {
        var k :| 0 <= k < |models[1..]| && models[1..][k] == Lookup(models[1..], id).value && models[1..][k].id == id &&
                 forall j :: 0 <= j < k ==> models[1..][j].id != id;
        assert models[k + 1] == Lookup(models, id).value;
        forall j | 0 <= j < k + 1 ensures models[j].id != id {
          if j > 0 { assert models[j] == models[1..][j - 1]; }
        }
      } else {
        forall k | 0 <= k < |models| ensures models[k].id != id {
          if k > 0 { assert models[k] == models[1..][k - 1]; }
        }
      }
    }
  }

  /** No two catalog entries share an id. */
  lemma CatalogIdsDistinct()
    ensures forall i, j :: 0 <= i < j < |AvailableModels| ==> AvailableModels[i].id != AvailableModels[j].id
  {
  }

  /** Because ids are distinct, looking up a catalog entry's id finds that entry. */
  lemma CatalogLookup(k: nat)
    requires k < |AvailableModels|
    ensures Lookup(AvailableModels, AvailableModels[k].id) == Some(AvailableModels[k])
  {
    LookupFirstMatch(AvailableModels, AvailableModels[k].id);
    CatalogIdsDistinct();
  }

  /** DownloadProgress. */
  datatype DownloadProgress = DownloadProgress(
    modelId: string,
    totalBytes: int,
    downloadedBytes: int,
    currentFile: string,
    filesCompleted: int,
    filesTotal: int)

  /** A non-zero amount divided by itself is one. */
  lemma DivSelf(x: real)
    requires x != 0.0
    ensures x / x == 1.0
  {
  }

  /** The `percentage` property, in exact arithmetic: 0 when the total is unknown. */
  function Percentage(p: DownloadProgress): (r: real)
    ensures p.totalBytes == 0 ==> r == 0.0
    ensures 0 <= p.downloadedBytes <= p.totalBytes && p.totalBytes > 0 ==> 0.0 <= r <= 100.0
    ensures p.downloadedBytes == p.totalBytes && p.totalBytes != 0 ==> r == 100.0
  {
    if p.totalBytes == 0 then 0.0
    else
      var frac := p.downloadedBytes as real / p.totalBytes as real;
      DivSelf(p.totalBytes as real);
      assert 0 <= p.downloadedBytes <= p.totalBytes && p.totalBytes > 0 ==> 0.0 <= frac <= 1.0;
      frac * 100.0
  }

  /** The progress record download_model enters in the table: the catalog size in
      bytes (truncated), nothing downloaded yet, one file. */
  function InitialProgress(m: ModelInfo): (p: DownloadProgress)
    ensures p.modelId == m.id && p.totalBytes == (m.sizeGb * BytesPerGb as real).Floor
    ensures p.downloadedBytes == 0 && p.currentFile == "" && p.filesCompleted == 0 && p.filesTotal == 1
    ensures Percentage(p) == 0.0
  {
    DownloadProgress(m.id, (m.sizeGb * BytesPerGb as real).Floor, 0, "", 0, 1)
  }

  /** One entry of get_active_downloads. */
  datatype ActiveInfo = ActiveInfo(percentage: real, currentFile: string, downloadedGb: real)

  /** A path in the modelled filesystem is a directory or a file with its text. */
  datatype Entry = Directory | File(content: string)

  /** models_dir / type / id. */
  function ModelDir(modelsDir: string, m: ModelInfo): string {
    Join(Join(modelsDir, m.kind), m.id)
  }

  /** models_dir / type / id / .download_complete. */
  function MarkerPath(modelsDir: string, m: ModelInfo): (p: string)
    ensures HasPrefix(p, ModelDir(modelsDir, m) + "/")
    ensures |p| > |ModelDir(modelsDir, m)| + 1
  {
    var p := Join(ModelDir(modelsDir, m), MarkerName);
    assert p[..|ModelDir(modelsDir, m)| + 1] == ModelDir(modelsDir, m) + "/";
    p
  }

  /** model_dir.mkdir(parents=True, exist_ok=True): the type directory and the model
      directory exist afterwards; existing entries stay as they are. */
  function WithModelDirs(fs: map<string, Entry>, modelsDir: string, m: ModelInfo): (r: map<string, Entry>)
    ensures Join(modelsDir, m.kind) in r && ModelDir(modelsDir, m) in r
    ensures forall p :: p in fs ==> p in r && r[p] == fs[p]
    ensures forall p :: p in r && p !in fs ==> p == Join(modelsDir, m.kind) || p == ModelDir(modelsDir, m)
    ensures MarkerPath(modelsDir, m) in r <==> MarkerPath(modelsDir, m) in fs
  {
    var typeDir := Join(modelsDir, m.kind);
    var withType := if typeDir in fs then fs else fs[typeDir := Directory];
    var dir := ModelDir(modelsDir, m);
    if dir in withType then withType else withType[dir := Directory]
  }

  /** shutil.rmtree(dir): the directory and everything below it disappear. */
  function RemoveTree(fs: map<string, Entry>, dir: string): (r: map<string, Entry>)
    ensures forall p :: p in r <==> p in fs && p != dir && !HasPrefix(p, dir + "/")
    ensures forall p :: p in r ==> r[p] == fs[p]
  {
    map p | p in fs && p != dir && !HasPrefix(p, dir + "/") :: fs[p]
  }

  /** `[m.id for m in AVAILABLE_MODELS]` when no list is given. */
  function RequestedIds(modelIds: Option<seq<string>>): seq<string> {
    if modelIds.Some? then modelIds.value else Ids(AvailableModels)
  }

  /** The sum get_total_size computes: the size of every entry whose id is listed,
      each entry counted once, in catalog order. */
  function TotalSize(models: seq<ModelInfo>, ids: seq<string>): (r: real)
    ensures |ids| == 0 ==> r == 0.0
    ensures (forall k :: 0 <= k < |models| ==> models[k].sizeGb >= 0.0) ==> r >= 0.0
  {
    if |models| == 0 then 0.0
    else TotalSize(models[..|models| - 1], ids) + (if models[|models| - 1].id in ids then models[|models| - 1].sizeGb else 0.0)
  }

  /** The total depends only on which catalog ids the list contains: order,
      duplicates and unknown ids make no difference. */
  lemma {:induction false} TotalSizeBySet(models: seq<ModelInfo>, a: seq<string>, b: seq<string>)
    requires forall k :: 0 <= k < |models| ==> (models[k].id in a <==> models[k].id in b)
    ensures TotalSize(models, a) == TotalSize(models, b)
  {
    if |models| > 0 {
      var front := models[..|models| - 1];
      assert forall k :: 0 <= k < |front| ==> front[k] == models[k];
      TotalSizeBySet(front, a, b);
    }
  }

  /** Appending ids that are unknown or already listed leaves the total unchanged. */
  lemma TotalSizeIgnores(ids: seq<string>, extra: seq<string>)
    requires forall x :: x in extra ==> x in ids || x !in Ids(AvailableModels)
    ensures TotalSize(AvailableModels, ids + extra) == TotalSize(AvailableModels, ids)
  {
    forall k | 0 <= k < |AvailableModels|
      ensures AvailableModels[k].id in ids + extra <==> AvailableModels[k].id in ids
    {
      assert Ids(AvailableModels)[k] == AvailableModels[k].id;
    }
    TotalSizeBySet(AvailableModels, ids + extra, ids);
  }

  /** The whole catalog weighs 70.5 GB. */
  lemma CatalogTotal()
    ensures TotalSize(AvailableModels, Ids(AvailableModels)) == 70.5
  {
    var ids := Ids(AvailableModels);
    var a := AvailableModels;
    assert a[0].id in ids && a[1].id in ids && a[2].id in ids && a[3].id in ids;
    assert a[..1][..0] == [];
    assert TotalSize(a[..1], ids) == 8.5;
    assert a[..2][..1] == a[..1];
    assert TotalSize(a[..2], ids) == 34.5;
    assert a[..3][..2] == a[..2];
    assert TotalSize(a[..3], ids) == 46.5;
    assert a[..3] == a[..|a| - 1];
  }

  /** What download_all reports for one id: the unknown-model error for an id
      outside the catalog, and for a catalog id its directory or an "error: "
      message. */
  predicate ReportsOutcome(modelsDir: string, id: string, text: string) {
    match Lookup(AvailableModels, id)
    case None => text == "error: Unknown model: " + id
    case Some(m) => text == ModelDir(modelsDir, m) || HasPrefix(text, "error: ")
  }

  /** The text download_all stores for an outcome of download_model. */
  lemma OutcomeReported(modelsDir: string, id: string, r: Result<string, string>, text: string)
    requires Lookup(AvailableModels, id).None? ==> r == Failure("Unknown model: " + id)
    requires r.Success? ==> Lookup(AvailableModels, id).Some? && r.value == ModelDir(modelsDir, Lookup(AvailableModels, id).value)
    requires text == if r.Success? then r.value else "error: " + r.error
    ensures ReportsOutcome(modelsDir, id, text)
    ensures r.Failure? ==> HasPrefix(text, "error: ")
  {
    OutcomeText(modelsDir, id, Lookup(AvailableModels, id), r, text);
  }

  /** OutcomeReported for whatever the catalogue lookup found. */
  lemma OutcomeText(modelsDir: string, id: string, found: Option<ModelInfo>, r: Result<string, string>, text: string)
    requires found.None? ==> r == Failure("Unknown model: " + id)
    requires r.Success? ==> found.Some? && r.value == ModelDir(modelsDir, found.value)
    requires text == if r.Success? then r.value else "error: " + r.error
    ensures found.None? ==> text == "error: Unknown model: " + id
    ensures found.Some? ==> text == ModelDir(modelsDir, found.value) || HasPrefix(text, "error: ")
    ensures r.Failure? ==> HasPrefix(text, "error: ")
  {
    assert r.Failure? ==> HasPrefix(text, "error: ");
    if found.None? {
      assert "error: " + ("Unknown model: " + id) == "error: Unknown model: " + id;
    }
  }

  /** Catalog ids and types are single path components, none named like the marker. */
  lemma CatalogNames()
    ensures forall m :: m in AvailableModels ==>
              '/' !in m.id && '/' !in m.kind && m.id != MarkerName && m.kind != MarkerName
  {
    forall m | m in AvailableModels
      ensures '/' !in m.id && '/' !in m.kind && m.id != MarkerName && m.kind != MarkerName
    {
      assert m.kind == "video" || m.kind == "image";
      assert m.id[0] == 'l' || m.id[0] == 'f';
    }
  }

  /** A model directory starts with "error: " only when models_dir does, so such
      a directory cannot be mistaken for an error text. */
  lemma ModelDirNotError(modelsDir: string, m: ModelInfo)
    requires !HasPrefix(modelsDir, "error: ")
    ensures !HasPrefix(ModelDir(modelsDir, m), "error: ")
  {
    var d := ModelDir(modelsDir, m);
    var n := |modelsDir|;
    assert d == modelsDir + ("/" + m.kind + "/" + m.id);
    if |d| >= 7 {
      if n < 7 {
        assert d[..7][n] == '/';
      } else {
        assert d[..7] == modelsDir[..7];
      }
    }
  }

  /** A catalog lookup that succeeds yields a catalog entry with that id. */
  lemma LookupInCatalog(id: string)
    ensures Lookup(AvailableModels, id).Some? ==>
              Lookup(AvailableModels, id).value in AvailableModels && Lookup(AvailableModels, id).value.id == id
  {
    LookupFirstMatch(AvailableModels, id);
  }

  /** The marker of one catalog entry is none of the paths a download of another
      entry creates: its type directory, its model directory and its marker. */
  lemma MarkerApart(modelsDir: string, m: ModelInfo, other: ModelInfo)
    requires m in AvailableModels && other in AvailableModels && m.id != other.id
    ensures MarkerPath(modelsDir, m) != Join(modelsDir, other.kind)
    ensures MarkerPath(modelsDir, m) != ModelDir(modelsDir, other)
    ensures MarkerPath(modelsDir, m) != MarkerPath(modelsDir, other)
  {
    CatalogNames();
    var p := MarkerPath(modelsDir, m);
    NameOfJoin(ModelDir(modelsDir, m), MarkerName);
    NameOfJoin(modelsDir, other.kind);
    NameOfJoin(Join(modelsDir, other.kind), other.id);
    if p == MarkerPath(modelsDir, other) {
      JoinCancel(ModelDir(modelsDir, m), ModelDir(modelsDir, other), MarkerName);
      NameOfJoin(Join(modelsDir, m.kind), m.id);
      assert false;
    }
  }

  /** The catalog id has been downloaded in the filesystem fs: its marker exists. */
  predicate Downloaded(fs: map<string, Entry>, modelsDir: string, id: string) {
    var m := Lookup(AvailableModels, id);
    m.Some? && MarkerPath(modelsDir, m.value) in fs
  }

  /** download_model goes on to fetch: a catalog id, forced or not yet downloaded. */
  predicate Fetches(fs: map<string, Entry>, modelsDir: string, id: string, force: bool) {
    Lookup(AvailableModels, id).Some? && (force || !Downloaded(fs, modelsDir, id))
  }

  /** What download_model returns when it starts from the filesystem fs. */
  function ModelOutcome(fs: map<string, Entry>, modelsDir: string, id: string, force: bool, fetch: FetchOutcome)
    : (r: Result<string, string>)
    ensures Lookup(AvailableModels, id).None? ==> r == Failure("Unknown model: " + id)
    ensures Lookup(AvailableModels, id).Some? ==>
              (r.Success? <==> !Fetches(fs, modelsDir, id, force) || fetch.Fetched?) &&
              (r.Success? ==> r.value == ModelDir(modelsDir, Lookup(AvailableModels, id).value)) &&
              (r.Failure? ==> r.error == fetch.message)
  {
    match Lookup(AvailableModels, id)
    case None => Failure("Unknown model: " + id)
    case Some(m) =>
      if Fetches(fs, modelsDir, id, force) && fetch.FetchFailed? then Failure(fetch.message)
      else Success(ModelDir(modelsDir, m))
  }

  /** The filesystem download_model leaves behind when it starts from fs. */
  function ModelFs(fs: map<string, Entry>, modelsDir: string, id: string, force: bool, fetch: FetchOutcome)
    : (r: map<string, Entry>)
    ensures forall p :: p in fs ==> p in r
  {
    if !Fetches(fs, modelsDir, id, force) then fs
    else
      var m := Lookup(AvailableModels, id).value;
      var dirs := WithModelDirs(fs, modelsDir, m);
      if fetch.Fetched? then dirs[MarkerPath(modelsDir, m) := File(m.repoId)] else dirs
  }

  /** The text download_with_callback returns for an outcome of download_model. */
  function Reported(r: Result<string, string>): string {
    if r.Success? then r.value else "error: " + r.error
  }

  /** Without force, a catalog id ends up downloaded exactly when download_model
      succeeds; a failure carries the fetch's message. */
  lemma OwnMarker(fs: map<string, Entry>, modelsDir: string, id: string, fetch: FetchOutcome)
    requires Lookup(AvailableModels, id).Some?
    ensures Downloaded(ModelFs(fs, modelsDir, id, false, fetch), modelsDir, id) <==>
            ModelOutcome(fs, modelsDir, id, false, fetch).Success?
    ensures ModelOutcome(fs, modelsDir, id, false, fetch).Failure? ==>
            ModelOutcome(fs, modelsDir, id, false, fetch) == Failure(fetch.message)
  {
    var m := Lookup(AvailableModels, id).value;
    if Fetches(fs, modelsDir, id, false) {
      var dirs := WithModelDirs(fs, modelsDir, m);
      assert MarkerPath(modelsDir, m) in dirs <==> MarkerPath(modelsDir, m) in fs;
    }
  }

  /** download_model leaves the marker of every other catalog entry as it was. */
  lemma OtherMarkers(fs: map<string, Entry>, modelsDir: string, id: string, force: bool, fetch: FetchOutcome, other: ModelInfo)
    requires other in AvailableModels && other.id != id
    ensures var r := ModelFs(fs, modelsDir, id, force, fetch);
            var p := MarkerPath(modelsDir, other);
            (p in r <==> p in fs) && (p in fs ==> r[p] == fs[p])
  {
    if Fetches(fs, modelsDir, id, force) {
      LookupInCatalog(id);
      MarkerApart(modelsDir, other, Lookup(AvailableModels, id).value);
    }
  }

  /** The last position of id in ids. */
  function LastPosition(ids: seq<string>, id: string): (k: nat)
    requires id in ids
    ensures k < |ids| && ids[k] == id
    ensures forall j :: k < j < |ids| ==> ids[j] != id
  {
    if ids[|ids| - 1] == id then |ids| - 1 else LastPosition(ids[..|ids| - 1], id)
  }

  /** The filesystem after download_all's downloads of ids, one after another. */
  function AllFs(fs: map<string, Entry>, modelsDir: string, ids: seq<string>, fetches: seq<FetchOutcome>)
    : map<string, Entry>
    requires |fetches| == |ids|
  {
    if |ids| == 0 then fs
    else ModelFs(AllFs(fs, modelsDir, ids[..|ids| - 1], fetches[..|ids| - 1]), modelsDir,
                 ids[|ids| - 1], false, fetches[|ids| - 1])
  }

  /** download_all's results: each id's text, a repeated id keeping its last one. */
  function AllResults(fs: map<string, Entry>, modelsDir: string, ids: seq<string>, fetches: seq<FetchOutcome>)
    : map<string, string>
    requires |fetches| == |ids|
  {
    if |ids| == 0 then map[]
    else
      var before := AllFs(fs, modelsDir, ids[..|ids| - 1], fetches[..|ids| - 1]);
      AllResults(fs, modelsDir, ids[..|ids| - 1], fetches[..|ids| - 1])[
        ids[|ids| - 1] := Reported(ModelOutcome(before, modelsDir, ids[|ids| - 1], false, fetches[|ids| - 1]))]
  }

  /** One more download extends AllFs and AllResults by that download. */
  lemma AllStep(fs: map<string, Entry>, modelsDir: string, ids: seq<string>, fetches: seq<FetchOutcome>, i: nat)
    requires |fetches| == |ids| && i < |ids|
    ensures AllFs(fs, modelsDir, ids[..i + 1], fetches[..i + 1]) ==
            ModelFs(AllFs(fs, modelsDir, ids[..i], fetches[..i]), modelsDir, ids[i], false, fetches[i])
    ensures AllResults(fs, modelsDir, ids[..i + 1], fetches[..i + 1]) ==
            AllResults(fs, modelsDir, ids[..i], fetches[..i])[
              ids[i] := Reported(ModelOutcome(AllFs(fs, modelsDir, ids[..i], fetches[..i]), modelsDir, ids[i], false, fetches[i]))]
  {
    assert ids[..i + 1][..i] == ids[..i] && fetches[..i + 1][..i] == fetches[..i];
  }

  /** Every text download_all reports has the form ReportsOutcome allows. */
  lemma {:induction false} AllResultsOutcomes(fs: map<string, Entry>, modelsDir: string, ids: seq<string>, fetches: seq<FetchOutcome>)
    requires |fetches| == |ids|
    ensures forall id :: id in AllResults(fs, modelsDir, ids, fetches) ==>
              ReportsOutcome(modelsDir, id, AllResults(fs, modelsDir, ids, fetches)[id])
  {
    if |ids| > 0 {
      var n := |ids| - 1;
      AllResultsOutcomes(fs, modelsDir, ids[..n], fetches[..n]);
      var r := ModelOutcome(AllFs(fs, modelsDir, ids[..n], fetches[..n]), modelsDir, ids[n], false, fetches[n]);
      OutcomeReported(modelsDir, ids[n], r, Reported(r));
    }
  }

  /** download_all removes nothing: every existing path, and so every finished
      download, is still there. */
  lemma {:induction false} AllFsKeeps(fs: map<string, Entry>, modelsDir: string, ids: seq<string>, fetches: seq<FetchOutcome>)
    requires |fetches| == |ids|
    ensures forall p :: p in fs ==> p in AllFs(fs, modelsDir, ids, fetches)
  {
    if |ids| > 0 {
      AllFsKeeps(fs, modelsDir, ids[..|ids| - 1], fetches[..|ids| - 1]);
    }
  }

  /** The marker of a catalog entry whose id was not requested is left as it was. */
  lemma {:induction false} UnrequestedMarkers(fs: map<string, Entry>, modelsDir: string, ids: seq<string>,
                                              fetches: seq<FetchOutcome>, other: ModelInfo)
    requires |fetches| == |ids|
    requires other in AvailableModels && other.id !in ids
    ensures var r := AllFs(fs, modelsDir, ids, fetches);
            var p := MarkerPath(modelsDir, other);
            (p in r <==> p in fs) && (p in fs ==> r[p] == fs[p])
  {
    if |ids| > 0 {
      var front, frontFetches := ids[..|ids| - 1], fetches[..|ids| - 1];
      assert other.id !in front;
      UnrequestedMarkers(fs, modelsDir, front, frontFetches, other);
      OtherMarkers(AllFs(fs, modelsDir, front, frontFetches), modelsDir, ids[|ids| - 1], false, fetches[|ids| - 1], other);
    }
  }

  /** download_all reports a result for exactly the requested ids. */
  lemma {:induction false} AllResultsKeys(fs: map<string, Entry>, modelsDir: string, ids: seq<string>, fetches: seq<FetchOutcome>)
    requires |fetches| == |ids|
    ensures forall id :: id in AllResults(fs, modelsDir, ids, fetches) <==> id in ids
  {
    if |ids| > 0 {
      AllResultsKeys(fs, modelsDir, ids[..|ids| - 1], fetches[..|ids| - 1]);
      assert ids == ids[..|ids| - 1] + [ids[|ids| - 1]];
    }
  }

  /** What download_all reports for a requested catalog id agrees with the disk
      afterwards: its directory when the model is downloaded, and otherwise
      "error: " and the message of the fetch made for its last occurrence. */
  lemma {:induction false} AllResultsReport(fs: map<string, Entry>, modelsDir: string, ids: seq<string>,
                                            fetches: seq<FetchOutcome>, id: string)
    requires |fetches| == |ids|
    requires id in ids && Lookup(AvailableModels, id).Some?
    ensures var after := AllFs(fs, modelsDir, ids, fetches);
            var results := AllResults(fs, modelsDir, ids, fetches);
            id in results &&
            (Downloaded(after, modelsDir, id) ==> results[id] == ModelDir(modelsDir, Lookup(AvailableModels, id).value)) &&
            var last := fetches[LastPosition(ids, id)];
            (!Downloaded(after, modelsDir, id) ==> last.FetchFailed? && results[id] == "error: " + last.message)
  {
    var n := |ids| - 1;
    var front, frontFetches := ids[..n], fetches[..n];
    var before := AllFs(fs, modelsDir, front, frontFetches);
    if ids[n] == id {
      OwnMarker(before, modelsDir, id, fetches[n]);
    } else {
      assert id in front;
      AllResultsReport(fs, modelsDir, front, frontFetches, id);
      LookupInCatalog(id);
      OtherMarkers(before, modelsDir, ids[n], false, fetches[n], Lookup(AvailableModels, id).value);
      assert LastPosition(ids, id) == LastPosition(front, id);
    }
  }

  /** Unless models_dir itself starts with "error: ", download_all reports a
      requested catalog id's directory exactly when the model is downloaded. */
  lemma AllResultsMatch(fs: map<string, Entry>, modelsDir: string, ids: seq<string>,
                        fetches: seq<FetchOutcome>, id: string)
    requires |fetches| == |ids|
    requires id in ids && Lookup(AvailableModels, id).Some?
    requires !HasPrefix(modelsDir, "error: ")
    ensures var results := AllResults(fs, modelsDir, ids, fetches);
            id in results &&
            (results[id] == ModelDir(modelsDir, Lookup(AvailableModels, id).value) <==>
             Downloaded(AllFs(fs, modelsDir, ids, fetches), modelsDir, id))
  {
    AllResultsReport(fs, modelsDir, ids, fetches, id);
    ModelDirNotError(modelsDir, Lookup(AvailableModels, id).value);
    var last := fetches[LastPosition(ids, id)];
    if !Downloaded(AllFs(fs, modelsDir, ids, fetches), modelsDir, id) {
      assert HasPrefix("error: " + last.message, "error: ");
    }
  }

  /** Every entry of the table `now` was already in `before`, unchanged. */
  predicate Shrunk(now: map<string, DownloadProgress>, before: map<string, DownloadProgress>) {
    forall id :: id in now ==> id in before && now[id] == before[id]
  }

  class ModelDownloader {
    const modelsDir: string
    const maxConcurrent: int
    /** The paths that exist, with what they hold. */
    var fs: map<string, Entry>
    /** `_active_downloads`: the progress of every download in flight. */
    var activeDownloads: map<string, DownloadProgress>

    /** __init__: `models_dir or MODELS_DIR`, created if absent; no download in flight. */
    constructor (requestedDir: Option<string>, maxWorkers: int, initialFs: map<string, Entry>)
      ensures modelsDir == (if requestedDir.Some? then requestedDir.value else DefaultModelsDir)
      ensures maxConcurrent == maxWorkers
      ensures fs == (if modelsDir in initialFs then initialFs else initialFs[modelsDir := Directory])
      ensures activeDownloads == map[]
    {
      var dir := if requestedDir.Some? then requestedDir.value else DefaultModelsDir;
      modelsDir := dir;
      maxConcurrent := maxWorkers;
      fs := if dir in initialFs then initialFs else initialFs[dir := Directory];
      activeDownloads := map[];
    }

    /** get_available_models: the four catalog entries, no id listed twice. */
    function GetAvailableModels(): (models: seq<ModelInfo>)
      ensures |models| == 4
      ensures forall i, j :: 0 <= i < j < |models| ==> models[i].id != models[j].id
      ensures forall k :: 0 <= k < |models| ==> Lookup(AvailableModels, models[k].id) == Some(models[k])
    {
      CatalogIdsDistinct();
      forall k | 0 <= k < |AvailableModels|
        ensures Lookup(AvailableModels, AvailableModels[k].id) == Some(AvailableModels[k])
      {
        CatalogLookup(k);
      }
      AvailableModels
    }

    /** get_model_info: the first catalog entry with the id, or None. */
    method GetModelInfo(id: string) returns (r: Option<ModelInfo>)
      ensures r == Lookup(AvailableModels, id)
      ensures r.None? <==> id !in Ids(AvailableModels)
      ensures r.Some? ==> r.value.id == id
    {
      LookupFirstMatch(AvailableModels, id);
      var i := 0;
      while i < |AvailableModels|
        invariant 0 <= i <= |AvailableModels|
        invariant Lookup(AvailableModels[i..], id) == Lookup(AvailableModels, id)
      {
        var model := AvailableModels[i];
        if model.id == id {
          return Some(model);
        }
        assert AvailableModels[i..][1..] == AvailableModels[i + 1..];
        i := i + 1;
      }
      return None;
    }

    /** is_downloaded: false for an unknown id; for a catalog id, whether its marker
        file exists. */
    predicate IsDownloaded(id: string): (b: bool)
      reads this
      ensures Lookup(AvailableModels, id).None? ==> !b
    {
      Downloaded(fs, modelsDir, id)
    }

    /** An id outside the catalog is never downloaded; a catalog entry is
        downloaded exactly when its own marker file exists. */
    lemma IsDownloadedMeans(id: string)
      ensures id !in Ids(AvailableModels) ==> !IsDownloaded(id)
      ensures forall k :: 0 <= k < |AvailableModels| && AvailableModels[k].id == id ==>
                (IsDownloaded(id) <==> MarkerPath(modelsDir, AvailableModels[k]) in fs)
    {
      LookupFirstMatch(AvailableModels, id);
      CatalogIdsDistinct();
    }

    /** _download_sync: the snapshot download itself. It runs only while the model's
        progress is in the active-downloads table. */
    method DownloadSync(m: ModelInfo, dir: string, fetch: FetchOutcome) returns (r: Result<string, string>)
      requires m.id in activeDownloads
      ensures fetch.Fetched? ==> r == Success(dir)
      ensures fetch.FetchFailed? ==> r == Failure(fetch.message)
    {
      if fetch.FetchFailed? {
        return Failure(fetch.message);
      }
      r := Success(dir);
    }

    /** download_model: raises for an unknown id; returns the existing directory
        when already downloaded and not forced; otherwise creates the directory,
        enters the table, downloads, writes the marker (holding the repository id)
        only on success, and leaves the table whatever the outcome. */
    method DownloadModel(id: string, force: bool, fetch: FetchOutcome) returns (r: Result<string, string>)
      modifies this
      ensures Lookup(AvailableModels, id).None? ==>
                r == Failure("Unknown model: " + id) && fs == old(fs) && activeDownloads == old(activeDownloads)
      ensures Lookup(AvailableModels, id).Some? && old(IsDownloaded(id)) && !force ==>
                r == Success(ModelDir(modelsDir, Lookup(AvailableModels, id).value)) &&
                fs == old(fs) && activeDownloads == old(activeDownloads)
      ensures Lookup(AvailableModels, id).Some? && (force || !old(IsDownloaded(id))) ==>
                var m := Lookup(AvailableModels, id).value;
                activeDownloads == old(activeDownloads) - {id} &&
                (fetch.Fetched? ==>
                   r == Success(ModelDir(modelsDir, m)) &&
                   fs == WithModelDirs(old(fs), modelsDir, m)[MarkerPath(modelsDir, m) := File(m.repoId)]) &&
                (fetch.FetchFailed? ==>
                   r == Failure(fetch.message) && fs == WithModelDirs(old(fs), modelsDir, m))
      ensures Shrunk(activeDownloads, old(activeDownloads))
      ensures r == ModelOutcome(old(fs), modelsDir, id, force, fetch) && fs == ModelFs(old(fs), modelsDir, id, force, fetch)
      ensures activeDownloads == if Fetches(old(fs), modelsDir, id, force) then old(activeDownloads) - {id} else old(activeDownloads)
      ensures r.Success? ==> IsDownloaded(id) && r.value == ModelDir(modelsDir, Lookup(AvailableModels, id).value)
      ensures r.Failure? ==> (IsDownloaded(id) <==> old(IsDownloaded(id)))
    {
      var model := GetModelInfo(id);
      if model.None? {
        return Failure("Unknown model: " + id);
      }
      var m := model.value;
      var downloaded := IsDownloaded(id);
      if downloaded && !force {
        return Success(ModelDir(modelsDir, m));
      }
      r := FetchModel(m, fetch);
    }

    /** The download itself inside download_model, for a catalog entry: creates the
        directory, enters the table, downloads, writes the marker (holding the
        repository id) only on success, and leaves the table whatever the outcome. */
    method FetchModel(m: ModelInfo, fetch: FetchOutcome) returns (r: Result<string, string>)
      requires Lookup(AvailableModels, m.id) == Some(m)
      modifies this
      ensures activeDownloads == old(activeDownloads) - {m.id}
      ensures fetch.Fetched? ==>
                r == Success(ModelDir(modelsDir, m)) &&
                fs == WithModelDirs(old(fs), modelsDir, m)[MarkerPath(modelsDir, m) := File(m.repoId)]
      ensures fetch.FetchFailed? ==>
                r == Failure(fetch.message) && fs == WithModelDirs(old(fs), modelsDir, m)
      ensures r.Success? ==> IsDownloaded(m.id)
      ensures r.Failure? ==> (IsDownloaded(m.id) <==> old(IsDownloaded(m.id)))
    {
      var dir := ModelDir(modelsDir, m);
      fs := WithModelDirs(fs, modelsDir, m);
      activeDownloads := activeDownloads[m.id := InitialProgress(m)];
      var result := DownloadSync(m, dir, fetch);
      if result.Success? {
        fs := fs[MarkerPath(modelsDir, m) := File(m.repoId)];
      }
      activeDownloads := activeDownloads - {m.id};
      r := result;
    }

    /** download_with_callback inside download_all: one download_model, its outcome
        turned into text, an exception into "error: " + its message. A text that is
        not an error names a model that is now downloaded. */
    method DownloadWithCallback(id: string, fetch: FetchOutcome) returns (text: string)
      modifies this
      ensures text == Reported(ModelOutcome(old(fs), modelsDir, id, false, fetch))
      ensures fs == ModelFs(old(fs), modelsDir, id, false, fetch)
      ensures activeDownloads == if Fetches(old(fs), modelsDir, id, false) then old(activeDownloads) - {id} else old(activeDownloads)
      ensures ReportsOutcome(modelsDir, id, text)
      ensures HasPrefix(text, "error: ") || IsDownloaded(id)
      ensures Shrunk(activeDownloads, old(activeDownloads))
    {
      var outcome := DownloadModel(id, false, fetch);
      text := if outcome.Success? then outcome.value else "error: " + outcome.error;
      OutcomeReported(modelsDir, id, outcome, text);
    }

    /** download_all: one download_model per requested id (all catalog ids by
        default); every outcome lands in the result, a failure as "error: ..."
        rather than an exception; a repeated id keeps its last outcome. */
    method DownloadAll(modelIds: Option<seq<string>>, fetches: seq<FetchOutcome>) returns (results: map<string, string>)
      requires |fetches| == |RequestedIds(modelIds)|
      modifies this
      ensures forall id :: id in results <==> id in RequestedIds(modelIds)
      ensures forall id :: id in results ==> ReportsOutcome(modelsDir, id, results[id])
      ensures Shrunk(activeDownloads, old(activeDownloads))
      ensures fs == AllFs(old(fs), modelsDir, RequestedIds(modelIds), fetches)
      ensures results == AllResults(old(fs), modelsDir, RequestedIds(modelIds), fetches)
      ensures forall p :: p in old(fs) ==> p in fs
      ensures forall m :: m in AvailableModels && m.id !in RequestedIds(modelIds) ==>
                (MarkerPath(modelsDir, m) in fs <==> MarkerPath(modelsDir, m) in old(fs)) &&
                (MarkerPath(modelsDir, m) in old(fs) ==> fs[MarkerPath(modelsDir, m)] == old(fs)[MarkerPath(modelsDir, m)])
      ensures forall id :: id in RequestedIds(modelIds) && Lookup(AvailableModels, id).Some? ==>
                (IsDownloaded(id) ==> results[id] == ModelDir(modelsDir, Lookup(AvailableModels, id).value)) &&
                (!IsDownloaded(id) ==>
                   fetches[LastPosition(RequestedIds(modelIds), id)].FetchFailed? &&
                   results[id] == "error: " + fetches[LastPosition(RequestedIds(modelIds), id)].message)
      ensures !HasPrefix(modelsDir, "error: ") ==>
                forall id :: id in RequestedIds(modelIds) && Lookup(AvailableModels, id).Some? ==>
                  (results[id] == ModelDir(modelsDir, Lookup(AvailableModels, id).value) <==> IsDownloaded(id))
    {
      ghost var before := fs;
      var ids := RequestedIds(modelIds);
      results := DownloadEach(ids, fetches);
      AllDownloadsChecked(before, ids, fetches);
    }

    /** The loop of download_all: download_with_callback on each id in turn, the
        texts collected under their ids. */
    method DownloadEach(ids: seq<string>, fetches: seq<FetchOutcome>) returns (results: map<string, string>)
      requires |fetches| == |ids|
      modifies this
      ensures forall id :: id in results <==> id in ids
      ensures forall id :: id in results ==> ReportsOutcome(modelsDir, id, results[id])
      ensures Shrunk(activeDownloads, old(activeDownloads))
      ensures fs == AllFs(old(fs), modelsDir, ids, fetches)
      ensures results == AllResults(old(fs), modelsDir, ids, fetches)
    {
      results := map[];
      var i := 0;
      while i < |ids|
        invariant 0 <= i <= |ids|
        invariant Shrunk(activeDownloads, old(activeDownloads))
        invariant fs == AllFs(old(fs), modelsDir, ids[..i], fetches[..i])
        invariant results == AllResults(old(fs), modelsDir, ids[..i], fetches[..i])
      {
        AllStep(old(fs), modelsDir, ids, fetches, i);
        var text := DownloadWithCallback(ids[i], fetches[i]);
        results := results[ids[i] := text];
        i := i + 1;
      }
      assert ids[..|ids|] == ids && fetches[..|fetches|] == fetches;
      AllResultsKeys(old(fs), modelsDir, ids, fetches);
      AllResultsOutcomes(old(fs), modelsDir, ids, fetches);
    }

    /** The lemmas behind download_all's postcondition, for the final filesystem. */
    lemma AllDownloadsChecked(before: map<string, Entry>, ids: seq<string>, fetches: seq<FetchOutcome>)
      requires |fetches| == |ids|
      requires fs == AllFs(before, modelsDir, ids, fetches)
      ensures forall p :: p in before ==> p in fs
      ensures forall m :: m in AvailableModels && m.id !in ids ==>
                (MarkerPath(modelsDir, m) in fs <==> MarkerPath(modelsDir, m) in before) &&
                (MarkerPath(modelsDir, m) in before ==> fs[MarkerPath(modelsDir, m)] == before[MarkerPath(modelsDir, m)])
      ensures forall id :: id in ids && Lookup(AvailableModels, id).Some? ==>
                var results := AllResults(before, modelsDir, ids, fetches);
                var last := fetches[LastPosition(ids, id)];
                id in results &&
                (IsDownloaded(id) ==> results[id] == ModelDir(modelsDir, Lookup(AvailableModels, id).value)) &&
                (!IsDownloaded(id) ==> last.FetchFailed? && results[id] == "error: " + last.message)
      ensures !HasPrefix(modelsDir, "error: ") ==>
                forall id :: id in ids && Lookup(AvailableModels, id).Some? ==>
                  var results := AllResults(before, modelsDir, ids, fetches);
                  id in results &&
                  (results[id] == ModelDir(modelsDir, Lookup(AvailableModels, id).value) <==> IsDownloaded(id))
    {
      AllFsKeeps(before, modelsDir, ids, fetches);
      forall m | m in AvailableModels && m.id !in ids
        ensures (MarkerPath(modelsDir, m) in fs <==> MarkerPath(modelsDir, m) in before) &&
                (MarkerPath(modelsDir, m) in before ==> fs[MarkerPath(modelsDir, m)] == before[MarkerPath(modelsDir, m)])
      {
        UnrequestedMarkers(before, modelsDir, ids, fetches, m);
      }
      forall id | id in ids && Lookup(AvailableModels, id).Some?
        ensures var results := AllResults(before, modelsDir, ids, fetches);
                var last := fetches[LastPosition(ids, id)];
                id in results &&
                (IsDownloaded(id) ==> results[id] == ModelDir(modelsDir, Lookup(AvailableModels, id).value)) &&
                (!IsDownloaded(id) ==> last.FetchFailed? && results[id] == "error: " + last.message)
      {
        AllResultsReport(before, modelsDir, ids, fetches, id);
      }
      if !HasPrefix(modelsDir, "error: ") {
        forall id | id in ids && Lookup(AvailableModels, id).Some?
          ensures var results := AllResults(before, modelsDir, ids, fetches);
                  id in results &&
                  (results[id] == ModelDir(modelsDir, Lookup(AvailableModels, id).value) <==> IsDownloaded(id))
        {
          AllResultsMatch(before, modelsDir, ids, fetches, id);
        }
      }
    }

    /** get_active_downloads: progress, current file and gigabytes so far for every
        download in flight. */
    function GetActiveDownloads(): (r: map<string, ActiveInfo>)
      reads this
      ensures r.Keys == activeDownloads.Keys
      ensures forall id :: id in r ==> r[id].percentage == Percentage(activeDownloads[id]) &&
                                       r[id].currentFile == activeDownloads[id].currentFile &&
                                       r[id].downloadedGb == activeDownloads[id].downloadedBytes as real / BytesPerGb as real
    {
      map id | id in activeDownloads ::
        ActiveInfo(Percentage(activeDownloads[id]), activeDownloads[id].currentFile,
                   activeDownloads[id].downloadedBytes as real / BytesPerGb as real)
    }

    /** The ids get_downloaded_models collects from the first n catalog entries. */
    function DownloadedIds(models: seq<ModelInfo>): (r: seq<string>)
      reads this
      ensures |r| <= |models|
    {
      if |models| == 0 then []
      else
        var front := DownloadedIds(models[..|models| - 1]);
        if IsDownloaded(models[|models| - 1].id) then front + [models[|models| - 1].id] else front
    }

    /** An id is collected exactly when it is a catalog id of models and downloaded. */
    lemma {:induction false} DownloadedIdsMembers(models: seq<ModelInfo>)
      ensures forall id :: id in DownloadedIds(models) <==> id in Ids(models) && IsDownloaded(id)
    {
      if |models| > 0 {
        DownloadedIdsMembers(models[..|models| - 1]);
        assert Ids(models) == Ids(models[..|models| - 1]) + [models[|models| - 1].id];
      }
    }

    /** get_downloaded_models: exactly the downloaded catalog ids, in catalog order. */
    method GetDownloadedModels() returns (downloaded: seq<string>)
      ensures downloaded == DownloadedIds(AvailableModels)
      ensures forall id :: id in downloaded <==> id in Ids(AvailableModels) && IsDownloaded(id)
    {
      downloaded := CollectDownloaded(AvailableModels);
      DownloadedIdsMembers(AvailableModels);
    }

    /** The loop of get_downloaded_models over the entries `models`. */
    method CollectDownloaded(models: seq<ModelInfo>) returns (downloaded: seq<string>)
      ensures downloaded == DownloadedIds(models)
    {
      downloaded := [];
      var i := 0;
      while i < |models|
        invariant 0 <= i <= |models|
        invariant downloaded == DownloadedIds(models[..i])
      {
        var model := models[i];
        assert models[..i + 1][..i] == models[..i];
        if IsDownloaded(model.id) {
          downloaded := downloaded + [model.id];
        }
        i := i + 1;
      }
      assert models[..|models|] == models;
    }

    /** get_total_size: the catalog sizes of the requested ids, all by default (70.5 GB). */
    method GetTotalSize(modelIds: Option<seq<string>>) returns (total: real)
      ensures total == TotalSize(AvailableModels, RequestedIds(modelIds))
      ensures modelIds.None? ==> total == 70.5
    {
      CatalogTotal();
      total := SumSizes(AvailableModels, RequestedIds(modelIds));
    }

    /** The loop of get_total_size over the entries `models`. */
    static method SumSizes(models: seq<ModelInfo>, ids: seq<string>) returns (total: real)
      ensures total == TotalSize(models, ids)
    {
      total := 0.0;
      var i := 0;
      while i < |models|
        invariant 0 <= i <= |models|
        invariant total == TotalSize(models[..i], ids)
      {
        var model := models[i];
        assert models[..i + 1][..i] == models[..i];
        if model.id in ids {
          total := total + model.sizeGb;
        }
        i := i + 1;
      }
      assert models[..|models|] == models;
    }

    /** cleanup: false for an unknown id or a missing directory; otherwise the
        model's directory tree is removed, the marker with it, and the answer is true. */
    method Cleanup(id: string) returns (removed: bool)
      modifies this
      ensures removed <==> Lookup(AvailableModels, id).Some? && ModelDir(modelsDir, Lookup(AvailableModels, id).value) in old(fs)
      ensures removed ==> fs == RemoveTree(old(fs), ModelDir(modelsDir, Lookup(AvailableModels, id).value)) && !IsDownloaded(id)
      ensures !removed ==> fs == old(fs)
      ensures activeDownloads == old(activeDownloads)
    {
      var model := GetModelInfo(id);
      if model.None? {
        return false;
      }
      var dir := ModelDir(modelsDir, model.value);
      if dir !in fs {
        return false;
      }
      fs := RemoveTree(fs, dir);
      removed := true;
    }
  }
}
