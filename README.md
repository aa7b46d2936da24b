# Media generation core, modelled in Dafny

A model of the media-generation module of a local AI agent. It has four parts:

- **Flux image wrapper** (`flux.dfy`, module `Flux`). It checks the model variant and maps it to its repository. It adjusts step count and guidance per variant and picks the device and precision. It loads the pipeline once and drops it on unload. It also names output files for one or many images and for seed variations.
- **LTX-Video wrapper** (`ltx.dfy`, module `Ltx`). It has two independently cached pipelines: text-to-video and image-to-video. It defines the default output names and the weight-cache directory name.
- **Model downloader** (`downloader.dfy`, module `Downloader`). It covers the fixed catalog and its first-match lookup. A download is complete when its marker file `models/<type>/<id>/.download_complete` exists. It tracks downloads in flight and leaves that table whatever the outcome. It also handles batch downloads, filtering and size sums over the catalog, and cleanup.
- **HTTP API** (`server.dfy`, module `Server`). It covers request bounds and the job table (`pending`, then `processing`, then `completed` or `failed`). It also covers the background tasks that create or reuse wrappers, the status and download endpoints with their error codes, and model unloading.

Shared definitions:

- **`runtime.dfy`** (module `Runtime`): hardware probes and the device/precision table, defined once and used by both wrappers. It also holds pipeline handles.
- **`pystr.dfy`** (module `PyStr`): the Python string and path rules the naming depends on. These are `str(int)`, truthiness of `x or default`, `os.path.splitext`, and `pathlib`'s `name` and `suffix`.
- **`wrappers.dfy`**: the `Option` and `Result` datatypes.

Things outside the program are inputs:

- **Pipeline inference** is a function from a pipeline handle and its call arguments to an outcome. The outcome is a number of images, a rendered video, or an exception message.
- **`snapshot_download`** is a fetch outcome: it succeeded, or it failed with a message.
- **The filesystem** is a map from path to entry in the downloader. In the wrappers' download checks and the download endpoint it is a set of existing paths.
- **Hardware probes** are a record of three booleans.
- **`uuid4`** is a job-id parameter.
- **The import flags** `HAS_IMAGE`/`HAS_VIDEO` are constructor arguments.

Path values are strings joined with `/`, with `./` prefixes already normalised away: `models`, `models/flux`, `models/ltx-video`, `outputs`.

Each background task runs to completion when it is called. The `processing` status is written and then overwritten within the same call.

## Model

| member | source | states |
|---|---|---|
| Runtime.DetectDevice | modules/media-gen/image/flux_wrapper.py:81-87 | cuda when available, else mps when available, else cpu (the same rule is at video/ltx_wrapper.py:85-91) |
| Runtime.OptimalDtype | modules/media-gen/image/flux_wrapper.py:89-97 | bfloat16 on cuda with bf16 support, float16 on cuda without it, float16 on mps, float32 elsewhere |
| Runtime.ResolveDevice | modules/media-gen/image/flux_wrapper.py:73 | a given non-empty device wins; None or "" falls back to detection |
| Runtime.ResolveDtype | modules/media-gen/image/flux_wrapper.py:74 | a given precision wins; otherwise the table for the chosen device |
| Runtime.ChoosePlacement | modules/media-gen/image/flux_wrapper.py:123-126 | CPU offload exactly when offload is enabled and the device is "cuda"; otherwise the pipeline is moved to the device |
| Runtime.DetectedPrecision | modules/media-gen/image/flux_wrapper.py:81-97 | on the detected device, float32 exactly when neither cuda nor mps is available, and bfloat16 only on cuda with bf16 support |
| PyStr.NatToString | modules/media-gen/image/flux_wrapper.py:184 | decimal digits only, at least one, a single digit exactly below 10 |
| PyStr.NatToStringInjective | modules/media-gen/image/flux_wrapper.py:184 | different indices print differently |
| PyStr.IntToString | modules/media-gen/image/flux_wrapper.py:181 | a leading '-' exactly for negatives, digits after it, the natural rendering for non-negatives |
| PyStr.IntToStringInjective | modules/media-gen/image/flux_wrapper.py:181 | different ints print differently |
| PyStr.SeedLabel | modules/media-gen/image/flux_wrapper.py:181 | `seed or 'random'`: "random" exactly for None and 0, otherwise str(seed) |
| PyStr.LastIndexOf | modules/media-gen/image/flux_wrapper.py:183 | the last position holding the character, or -1 when none does |
| PyStr.ExtensionStart | modules/media-gen/image/flux_wrapper.py:183 | the cut is a '.' in the final component with no later '.' |
| PyStr.SplitExt | modules/media-gen/image/flux_wrapper.py:183 | root + ext is the path; ext is empty or a dot followed by no '.' and no '/' |
| PyStr.SplitExtRule | modules/media-gen/image/flux_wrapper.py:183 | the extension is non-empty exactly when the last '.' is in the final component and that component is not all dots before it |
| PyStr.Name | modules/media-gen/api/server.py:284 | the text after the last '/': a suffix of the path with no '/', preceded by a '/' unless it is the whole path |
| PyStr.NameOfJoin | modules/media-gen/api/server.py:284 | the name of dir/name is name when name holds no '/' |
| PyStr.JoinCancel | modules/media-gen/downloader.py:140-143 | joining the same name onto two directories gives equal paths only for equal directories |
| PyStr.Suffix | modules/media-gen/api/server.py:285 | non-empty exactly when the name's last '.' is neither its first nor its last character, and then the name from that '.' on; otherwise empty |
| PyStr.NameSuffix | modules/media-gen/api/server.py:285 | the same rule for a name without '/' |
| PyStr.ReplaceChar | modules/media-gen/video/ltx_wrapper.py:106 | same length; every '/' becomes '_' and every other character stays |
| Flux.ResolveVariant | modules/media-gen/image/flux_wrapper.py:68-72 | accepted exactly for "schnell" and "dev", mapped to black-forest-labs/FLUX.1-<variant>; anything else gives the ValueError message |
| Flux.CallFor | modules/media-gen/image/flux_wrapper.py:166-174 | the prompt, size, seed and image count are passed unchanged; steps and guidance are those AdjustSampling gives for the variant; the negative prompt is not passed |
| Flux.SinglePath | modules/media-gen/image/flux_wrapper.py:180 | never empty: a non-empty output path verbatim, otherwise output_<seed or 'random'>.png |
| Flux.MultiBase | modules/media-gen/image/flux_wrapper.py:182 | never empty: a non-empty output path verbatim, otherwise output_<seed or 'random'> |
| Flux.ImagePath | modules/media-gen/image/flux_wrapper.py:179-184 | with one image asked for, the single path whatever the index; otherwise a path that starts with the base's root and "_" |
| Flux.VariationConfig | modules/media-gen/image/flux_wrapper.py:214-219 | the prompt unchanged, seed base_seed + i, the forwarded options, and variation_<i>.png as the path generate_image uses |
| Flux.AdjustSampling | modules/media-gen/image/flux_wrapper.py:153-163 | schnell: min(steps, 4) steps (so at most 4) and guidance exactly 0.0; dev: max(steps, 20) and max(guidance, 3.5), never lowered; other variants unchanged |
| Flux.IndexedPath | modules/media-gen/image/flux_wrapper.py:182-184 | the base's root, "_", the index, then the base's extension or ".png" |
| Flux.IndexedPathsDistinct | modules/media-gen/image/flux_wrapper.py:182-184 | two indices never share a numbered path |
| Flux.IndexedPathOfSplit | modules/media-gen/image/flux_wrapper.py:182-184 | for a base whose split is known and whose extension is non-empty, the numbered path is root, "_", the index, and that extension |
| Flux.ImagePaths | modules/media-gen/image/flux_wrapper.py:177-187 | one path per produced image, in index order |
| Flux.ImageOutcome | modules/media-gen/image/flux_wrapper.py:163-190 | the run's exception; for one image the single path (IndexError when none was produced); for several, the list of numbered paths |
| Flux.ManyPathsDistinct | modules/media-gen/image/flux_wrapper.py:177-190 | with several images the returned paths are pairwise distinct |
| Flux.DefaultNameCancel | modules/media-gen/image/flux_wrapper.py:180 | two default names output_<a>.png and output_<b>.png are equal only for equal labels |
| Flux.DefaultNameBySeed | modules/media-gen/image/flux_wrapper.py:179-181 | with no output path, seed 0 and no seed both give output_random.png, and distinct non-zero seeds give distinct names |
| Flux.VariationPaths | modules/media-gen/image/flux_wrapper.py:211-221 | the i-th variation has seed base_seed + i and file variation_<i>.png, and no two variations share a file |
| Flux.FluxWrapper.constructor | modules/media-gen/image/flux_wrapper.py:71-77 | variant, repository, resolved device and precision, offload flag; nothing loaded |
| Flux.FluxWrapper.Create | modules/media-gen/image/flux_wrapper.py:68-77 | fails exactly for an unknown variant, with its message; otherwise a fresh wrapper as the constructor describes |
| Flux.FluxWrapper.FreshPipeline | modules/media-gen/image/flux_wrapper.py:118-126 | the wrapper's repository at its precision, offloaded exactly under the offload condition |
| Flux.FluxWrapper.LoadPipeline | modules/media-gen/image/flux_wrapper.py:114-131 | a loaded pipeline is reused with no build; otherwise exactly one build |
| Flux.FluxWrapper.GenerateImage | modules/media-gen/image/flux_wrapper.py:133-190 | loads lazily, calls the pipeline with the adjusted sampling, and returns the ImageOutcome of that run |
| Flux.FluxWrapper.CollectPaths | modules/media-gen/image/flux_wrapper.py:177-187 | the saving loop collects exactly one path per produced image, in index order |
| Flux.FluxWrapper.GenerateVariation | modules/media-gen/image/flux_wrapper.py:213-221 | one round of the variation loop: the pipeline is loaded at most once and the result is the i-th variation's outcome |
| Flux.FluxWrapper.GenerateVariations | modules/media-gen/image/flux_wrapper.py:192-223 | no variations and nothing loaded for num_variations <= 0; otherwise the pipeline is loaded once, and the result is exactly num_variations outputs, the i-th being the i-th variation's outcome, or the error of the first failing variation after successes for all earlier ones |
| Flux.FluxWrapper.Unload | modules/media-gen/image/flux_wrapper.py:225-227 | the pipeline is dropped |
| Flux.FluxWrapper.GetModelInfo | modules/media-gen/image/flux_wrapper.py:234-243 | the settings, and pipeline_loaded exactly when a pipeline is held |
| Flux.FluxWrapper.EnsureModelDownloaded | modules/media-gen/image/flux_wrapper.py:99-112 | directory models/flux/<variant>; a download runs exactly when it is absent, and only then can it fail |
| Flux.QuickGenerateImage | modules/media-gen/image/flux_wrapper.py:246-281 | unknown variant rejected; otherwise one build, the wrapper's outcome for the fixed config, and the pipeline unloaded exactly on success |
| Ltx.TextVideoPath | modules/media-gen/video/ltx_wrapper.py:189 | never empty: a non-empty output path verbatim, otherwise output_<seed or 'random'>.mp4 |
| Ltx.ImageVideoPath | modules/media-gen/video/ltx_wrapper.py:232 | never empty: a non-empty output path verbatim, otherwise output_img2vid_<seed or 'random'>.mp4 |
| Ltx.VideoCallFor | modules/media-gen/video/ltx_wrapper.py:171-186 | the prompt, negative prompt, size, frames, steps and guidance are passed unchanged, and a generator is seeded whenever a seed is given, 0 included |
| Ltx.SeedLabelStart | modules/media-gen/video/ltx_wrapper.py:189 | the label `seed or 'random'` never starts with 'i', the character that begins the image-to-video default after "output_" |
| Ltx.DefaultVideoPaths | modules/media-gen/video/ltx_wrapper.py:189 | the text-to-video and image-to-video default names never coincide, and seed 0 gives the "random" names (same rule at line 232) |
| Ltx.DefaultNamesDiffer | modules/media-gen/video/ltx_wrapper.py:189 | the text-to-video and image-to-video default names differ for any two seeds (the image-to-video name is built at line 232) |
| Ltx.ModelDirName | modules/media-gen/video/ltx_wrapper.py:106 | the model id with every '/' as '_', hence a single path component |
| Ltx.LTXVideoWrapper.constructor | modules/media-gen/video/ltx_wrapper.py:59-83 | model id, resolved device and precision, offload flag; neither pipeline loaded |
| Ltx.LTXVideoWrapper.FreshPipeline | modules/media-gen/video/ltx_wrapper.py:124-132 | the requested kind, the wrapper's model and precision, offloaded exactly under the offload condition, else on the device |
| Ltx.LTXVideoWrapper.LoadText2Video | modules/media-gen/video/ltx_wrapper.py:119-136 | built at most once until unload; the image-to-video pipeline is untouched |
| Ltx.LTXVideoWrapper.LoadImg2Video | modules/media-gen/video/ltx_wrapper.py:138-155 | built at most once until unload; the text-to-video pipeline is untouched |
| Ltx.LTXVideoWrapper.GenerateVideo | modules/media-gen/video/ltx_wrapper.py:157-193 | the run's exception, or output_path / output_<seed or random>.mp4 |
| Ltx.LTXVideoWrapper.GenerateFromImage | modules/media-gen/video/ltx_wrapper.py:195-236 | the run's exception, or output_path / output_img2vid_<seed or random>.mp4 |
| Ltx.LTXVideoWrapper.Unload | modules/media-gen/video/ltx_wrapper.py:251-254 | both pipelines dropped |
| Ltx.LTXVideoWrapper.GetModelInfo | modules/media-gen/video/ltx_wrapper.py:261-269 | the settings, and each loaded flag exactly when its pipeline is held |
| Ltx.LTXVideoWrapper.EnsureModelDownloaded | modules/media-gen/video/ltx_wrapper.py:104-117 | directory models/ltx-video/<id with '/' as '_'>; a download runs exactly when it is absent, and only then can it fail |
| Ltx.QuickGenerateVideo | modules/media-gen/video/ltx_wrapper.py:273-309 | a fresh distilled-model wrapper, one build; on success the wrapper's path and nothing left loaded, on failure the exception with the pipeline still loaded |
| Downloader.Ids | modules/media-gen/downloader.py:252 | the ids of the entries, position by position |
| Downloader.Lookup | modules/media-gen/downloader.py:127-132 | whatever it finds carries the id looked up |
| Downloader.InitialProgress | modules/media-gen/downloader.py:178-185 | the model's id, its catalog size in bytes truncated, nothing downloaded, no current file, one file to fetch, and so a percentage of 0 |
| Downloader.TotalSize | modules/media-gen/downloader.py:298-307 | 0 for no ids, and never negative when no size is |
| Downloader.LookupFirstMatch | modules/media-gen/downloader.py:127-132 | nothing found exactly when no entry has the id; otherwise the entry at the first position holding it |
| Downloader.CatalogIdsDistinct | modules/media-gen/downloader.py:44-81 | the catalog ids are pairwise distinct |
| Downloader.CatalogLookup | modules/media-gen/downloader.py:127-132 | looking up a catalog entry's id finds that entry |
| Downloader.Percentage | modules/media-gen/downloader.py:95-99 | 0 when the total is 0; between 0 and 100 while the download is within its total; 100 when complete |
| Downloader.MarkerPath | modules/media-gen/downloader.py:140-143 | the marker lies inside models_dir/type/id |
| Downloader.WithModelDirs | modules/media-gen/downloader.py:172-173 | the type and model directories exist afterwards, nothing else is added or changed, and the marker's presence is unaffected |
| Downloader.RemoveTree | modules/media-gen/downloader.py:317-319 | the directory and every path below it are gone; every other path is kept unchanged |
| Downloader.TotalSizeBySet | modules/media-gen/downloader.py:298-307 | the total depends only on which catalog ids are listed, so order and duplicates do not matter |
| Downloader.TotalSizeIgnores | modules/media-gen/downloader.py:298-307 | appending unknown or already-listed ids leaves the total unchanged |
| Downloader.CatalogTotal | modules/media-gen/downloader.py:298-307 | the whole catalog is 70.5 GB |
| Downloader.CatalogNames | modules/media-gen/downloader.py:44-81 | catalog ids and types are single path components, none equal to the marker's name |
| Downloader.LookupInCatalog | modules/media-gen/downloader.py:127-132 | a successful lookup yields a catalog entry with the id looked up |
| Downloader.MarkerApart | modules/media-gen/downloader.py:140-143 | one catalog entry's marker is neither another entry's marker nor its directory nor its type directory |
| Downloader.ModelOutcome | modules/media-gen/downloader.py:146-209 | "Unknown model: <id>" outside the catalog; for a catalog id, success exactly when no fetch is needed or the fetch succeeded, the model directory on success and the fetch's message on failure |
| Downloader.ModelFs | modules/media-gen/downloader.py:146-209 | the filesystem after download_model keeps every existing path |
| Downloader.OwnMarker | modules/media-gen/downloader.py:146-209 | without force, a catalog model is downloaded afterwards exactly when download_model succeeded, and a failure carries the fetch's message |
| Downloader.OtherMarkers | modules/media-gen/downloader.py:172-203 | download_model leaves every other catalog entry's marker as it was |
| Downloader.LastPosition | modules/media-gen/downloader.py:262-277 | a position holding the id with no later occurrence of it |
| Downloader.AllStep | modules/media-gen/downloader.py:267-277 | one more download extends the batch's filesystem and results by that download's own effect and text |
| Downloader.AllResultsOutcomes | modules/media-gen/downloader.py:261-277 | every batch text is the unknown-id error, the model directory, or an "error: " text |
| Downloader.AllFsKeeps | modules/media-gen/downloader.py:236-277 | a batch removes no path, so a finished download stays finished |
| Downloader.UnrequestedMarkers | modules/media-gen/downloader.py:236-277 | the marker of a catalog entry that was not requested is left as it was |
| Downloader.AllResultsKeys | modules/media-gen/downloader.py:267-277 | the batch reports a result for exactly the requested ids |
| Downloader.AllResultsReport | modules/media-gen/downloader.py:256-277 | for a requested catalog id: its directory when it is downloaded afterwards, otherwise "error: " + the message of the fetch made for its last occurrence, which failed |
| Downloader.ModelDirNotError | modules/media-gen/downloader.py:140 | a model directory starts with "error: " only when models_dir does |
| Downloader.AllResultsMatch | modules/media-gen/downloader.py:256-277 | unless models_dir starts with "error: ", a requested catalog id's result is its directory exactly when the model is downloaded afterwards |
| Downloader.OutcomeReported | modules/media-gen/downloader.py:261-265 | a download outcome becomes its path or "error: " + message, the unknown-id message for an id outside the catalog |
| Downloader.OutcomeText | modules/media-gen/downloader.py:261-265 | the same text rule for any lookup result: the unknown-id error when nothing was found, else the directory or an "error: " text |
| Downloader.ModelDownloader.constructor | modules/media-gen/downloader.py:105-121 | models_dir or the default, created if absent; no download in flight |
| Downloader.ModelDownloader.GetAvailableModels | modules/media-gen/downloader.py:123-125 | four entries, distinct ids, each found by its own id |
| Downloader.ModelDownloader.GetModelInfo | modules/media-gen/downloader.py:127-132 | the first catalog entry with the id, None exactly for ids outside the catalog |
| Downloader.ModelDownloader.IsDownloaded | modules/media-gen/downloader.py:134-144 | an id outside the catalog is never downloaded |
| Downloader.ModelDownloader.IsDownloadedMeans | modules/media-gen/downloader.py:134-144 | false for an unknown id; for a catalog entry, true exactly when models_dir/type/id/.download_complete exists |
| Downloader.ModelDownloader.DownloadSync | modules/media-gen/downloader.py:211-234 | runs only while the model is in the active table; the model directory on success, or the failure |
| Downloader.ModelDownloader.DownloadModel | modules/media-gen/downloader.py:146-209 | the outcome, filesystem and active table are ModelOutcome, ModelFs and the table without the id when a fetch ran; unknown id raises, changing nothing; already downloaded and not forced returns the directory, changing nothing; otherwise the model leaves the active table whatever the outcome, and the marker (holding repo_id) is written only on success; afterwards a success implies downloaded and a failure keeps the marker state |
| Downloader.ModelDownloader.FetchModel | modules/media-gen/downloader.py:172-209 | the directories are created, the model leaves the active table, and on success the marker holds repo_id; a failure keeps the marker state and returns the message |
| Downloader.ModelDownloader.DownloadWithCallback | modules/media-gen/downloader.py:256-265 | the text is the outcome download_model gives without force, the directory or "error: " + message; the filesystem and active table are those download_model leaves; a non-error text means the model is downloaded |
| Downloader.ModelDownloader.DownloadAll | modules/media-gen/downloader.py:236-277 | a result for exactly the requested ids (all by default), never raised; the filesystem and results are those of the downloads in order; for a requested catalog id, its directory when downloaded afterwards, else "error: " + the message of its last fetch, and (unless models_dir starts with "error: ") its directory exactly when downloaded; finished downloads stay finished; unrequested markers are unchanged; no new entry left in the active table |
| Downloader.ModelDownloader.DownloadEach | modules/media-gen/downloader.py:267-277 | the loop's filesystem and results are those of the downloads of the ids in order |
| Downloader.ModelDownloader.AllDownloadsChecked | modules/media-gen/downloader.py:236-277 | after the batch, finished downloads stay finished, unrequested markers are unchanged, and each requested catalog id's text agrees with its marker |
| Downloader.ModelDownloader.GetActiveDownloads | modules/media-gen/downloader.py:279-288 | one report per download in flight with its percentage, current file and downloaded bytes in gigabytes |
| Downloader.ModelDownloader.DownloadedIds | modules/media-gen/downloader.py:290-296 | at most one id per given entry |
| Downloader.ModelDownloader.DownloadedIdsMembers | modules/media-gen/downloader.py:290-296 | exactly the downloaded ids among the given entries are collected |
| Downloader.ModelDownloader.GetDownloadedModels | modules/media-gen/downloader.py:290-296 | exactly the downloaded catalog ids, in catalog order |
| Downloader.ModelDownloader.CollectDownloaded | modules/media-gen/downloader.py:292-296 | the loop keeps exactly the downloaded ids of the given entries, in order |
| Downloader.ModelDownloader.GetTotalSize | modules/media-gen/downloader.py:298-307 | the catalog sizes of the listed ids, each entry once; 70.5 by default |
| Downloader.ModelDownloader.SumSizes | modules/media-gen/downloader.py:303-307 | the loop adds the size of each given entry whose id is listed, once per entry |
| Downloader.ModelDownloader.Cleanup | modules/media-gen/downloader.py:309-323 | false, changing nothing, for an unknown id or a missing directory; otherwise the tree is removed and the model is no longer downloaded |
| Server.ValidImageRequest | modules/media-gen/api/server.py:91-95 | a valid request names a variant the Flux wrapper accepts and asks for at least one image; the field defaults (1024 by 1024, schnell, one image) are valid |
| Server.ValidVideoRequest | modules/media-gen/api/server.py:101-103 | a valid request asks for a positive size and frame count; the LTX wrapper's defaults (768 by 512, 97 frames) are valid |
| Server.StatusName | modules/media-gen/api/server.py:110 | one of the four status strings, "completed" exactly for Completed |
| Server.MediaType | modules/media-gen/api/server.py:285 | image/png exactly for a ".png" suffix, otherwise video/mp4 |
| Server.ImageJobConfig | modules/media-gen/api/server.py:168-178 | the request's fields, default steps and guidance, output outputs/<job_id>.png |
| Server.VideoJobConfig | modules/media-gen/api/server.py:226-236 | the request's fields without the image path, default steps, guidance and fps, output outputs/<job_id>.mp4 |
| Server.ImageJob | modules/media-gen/api/server.py:182-193 | completed with the string itself or the list's first element; failed with the exception, or with IndexError for an empty list |
| Server.VideoJob | modules/media-gen/api/server.py:240-248 | completed with the path, or failed with the exception |
| Server.JobFilePath | modules/media-gen/api/server.py:277-285 | a job file outputs/<job_id><ext> has name <job_id><ext>, suffix ext, and splits just before ext |
| Server.JobFileSplit | modules/media-gen/api/server.py:277-280 | os.path.splitext cuts outputs/<job_id><ext> just before ext |
| Server.FirstImagePath | modules/media-gen/api/server.py:168-178 | the first image of a job is outputs/<job_id>.png, or outputs/<job_id>_0.png when several are asked for |
| Server.ImageJobResult | modules/media-gen/api/server.py:168-193 | a run producing images completes the job with that PNG path; a run producing none fails it with IndexError |
| Server.ImageJobRecord | modules/media-gen/api/server.py:186-193 | given the first image path, n > 0 images complete the job with it, and none fails it with IndexError |
| Server.PngJobFile | modules/media-gen/api/server.py:277-285 | outputs/<stem>.png is named <stem>.png and served as image/png |
| Server.VideoJobResult | modules/media-gen/api/server.py:226-244 | a rendered video completes the job with outputs/<job_id>.mp4, served as MP4 |
| Server.GenerationState.constructor | modules/media-gen/api/server.py:43-48 | nothing loaded, no jobs |
| Server.GenerationState.HealthCheck | modules/media-gen/api/server.py:124-133 | healthy, the import flags, and each loaded flag exactly when its wrapper exists |
| Server.GenerationState.GetJobStatus | modules/media-gen/api/server.py:251-263 | 404 exactly for an unknown id; otherwise the stored status, result and error unchanged |
| Server.GenerationState.DownloadResult | modules/media-gen/api/server.py:266-286 | 404 for an unknown job, 400 "Job status: <status>" when not completed, 404 when the file is missing; served exactly when completed with an existing file, under its own name and typed by its suffix |
| Server.GenerationState.ImageJobServed | modules/media-gen/api/server.py:266-286 | a finished image job's file is served as image/png named <job_id>.png or <job_id>_0.png |
| Server.GenerationState.VideoJobServed | modules/media-gen/api/server.py:266-286 | a finished video job's file is served as video/mp4 named <job_id>.mp4 |
| Server.GenerationState.GenerateImage | modules/media-gen/api/server.py:136-153 | out-of-bounds body 422 and no job; no image support 503 and no job; otherwise a pending job under the new id, whose status endpoint returns the same response |
| Server.GenerationState.GenerateVideo | modules/media-gen/api/server.py:196-213 | the same rules for video requests |
| Server.GenerationState.ProcessImageGeneration | modules/media-gen/api/server.py:156-193 | ends completed or failed, touching only its own job; a missing job fails with the KeyError; the wrapper is reused exactly when it has the requested variant, otherwise the old one is unloaded and replaced; the stored entry is the ImageJob of the generation |
| Server.GenerationState.SwapImageWrapper | modules/media-gen/api/server.py:162-165 | the old wrapper is unloaded; a wrapper for the requested variant replaces it exactly when the variant is known, with nothing loaded yet |
| Server.GenerationState.RunImageJob | modules/media-gen/api/server.py:168-189 | on a wrapper with the requested variant, the pipeline is loaded at most once and the job holds the ImageJob of the generation |
| Server.GenerationState.SwitchAndRunImageJob | modules/media-gen/api/server.py:162-193 | an unknown variant fails the job with its message and keeps the old wrapper; a known one records the generation on a fresh wrapper built once |
| Server.GenerationState.ProcessVideoGeneration | modules/media-gen/api/server.py:216-248 | ends completed or failed, touching only its own job; a distilled-model wrapper is created only when none exists; the loaded text-to-video pipeline is reused, or a fresh one built once; the image-to-video pipeline is untouched; the stored entry is the VideoJob of the text-to-video run |
| Server.GenerationState.UnloadModels | modules/media-gen/api/server.py:289-300 | both wrappers unloaded and dropped; jobs untouched |
| Server.GenerationState.Shutdown | modules/media-gen/api/server.py:62-66 | loaded wrappers are unloaded at shutdown |
| Server.GenerationState.GetModelsInfo | modules/media-gen/api/server.py:303-309 | each loaded wrapper's own get_model_info report (model id, variant and loaded pipelines), None exactly when it is not loaded |

## Left out

- Library calls are outside the model: torch, diffusers, PIL and imageio. This covers inference, generators, image opening and resizing, and video export (`_save_video`, video/ltx_wrapper.py:238-249). Pipeline runs are the `pipe` oracle, and `torch.cuda.empty_cache` is not modelled. `from_pretrained` is taken never to raise. A failing `Image.open` is folded into the image-to-video run's exception.
- Concurrency is not modelled: asyncio, the thread pool, `run_in_executor`, `asyncio.gather` and `BackgroundTasks`. Downloads and background tasks run one after another, each from start to end. So the `processing` status is never observed between calls.
- `DownloadAll` and `AllResultsMatch`: with a repeated id such as `download_all(["a", "a"])`, the source starts both downloads before either ends. The `finally` that runs second then fails with `KeyError` when it deletes the table entry (downloader.py:208-209). So the source may report `"error: 'a'"` for a model that is downloaded, depending on which download ends last. The model runs the repeated download after the first has finished: it finds the model downloaded and reports its directory. So the if-and-only-if of `AllResultsMatch` is a promise for this one-at-a-time order, not for the source's scheduling of repeated ids.
- `ModelDownloader.constructor`: the `ValueError` that `ThreadPoolExecutor` raises for a non-positive `max_concurrent` is not modelled, because the executor is not modelled.
- `DownloadSync`: the progress callback plumbing (`update_progress`, downloader.py:220-225) is not modelled; the source defines `update_progress` and never calls it.
- Floating point is replaced by exact reals in `Percentage`, `GetActiveDownloads` and `GetTotalSize`, and in the guidance values of `Flux.AdjustSampling` (`max(guidance, 3.5)`) and `Ltx.VideoCallFor`. The byte estimate truncates like `int()`. Float rounding is not modelled, and neither are NaN and infinities: `max` with a NaN guidance is not captured.
- `Flux.QuickGenerateImage` and `Ltx.QuickGenerateVideo`: the default output paths `"output.png"` (image/flux_wrapper.py:248) and `"output.mp4"` (video/ltx_wrapper.py:275) are not modelled; both take the output path as a required argument.
- FastAPI routing, CORS, uvicorn and the logging setup are left out (server.py:39-40, 70-84, 312-323), as is the downloader's CLI `main` (downloader.py:327-388).
- The request-validation error's detail body is left out. A 422 is the single `ValidationError` value.
- The unreachable non-tuple branch of `download_all` (downloader.py:274-275) is left out.
- `KeyErrorMessage`: gives `'<id>'`. It does not model `repr`'s escaping of ids that contain quotes.
- Filesystem corner cases are left out: `mkdir` meeting an existing plain file, `rmtree` on a plain file, and permission errors. Parent directories above the models directory are also left out. The output directory's creation at import (server.py:51-52) is outside the model; the download endpoint takes the set of existing files as an input.
- Default arguments are not modelled: `model_variant="schnell"` (image/flux_wrapper.py:54), `model_id=DISTILLED_MODEL` (video/ltx_wrapper.py:61), and `num_variations=4`, `base_seed=42` (image/flux_wrapper.py:195-196). The constructors and `GenerateVariations` take every argument explicitly. The server passes the variant and the distilled model itself.
- Environment variables for the directories are not modelled (`AMFBOT_MODELS_DIR`, `AMFBOT_OUTPUT_DIR`). Their defaults are constants.
- Seeded random generation is outside the model: the seed is only passed through to the pipeline call.
