/** The media generation HTTP API: request validation, the job table, the
    background tasks that drive the two wrappers, the status and download
    endpoints, and model unloading. Each endpoint is a member of the server state;
    a background task runs to completion when it is called. */
module Server {
  import opened Wrappers
  import opened PyStr
  import opened Runtime
  import Flux
  import Ltx

  /** OUTPUT_DIR at its default, `./outputs`. */
  const OutputDir: string := "outputs"

  datatype Status = Pending | Processing | Completed | Failed

  /** The status as the JSON string the API uses. */
  function StatusName(s: Status): (name: string)
    ensures name in {"pending", "processing", "completed", "failed"}
    ensures name == "completed" <==> s == Completed
  {
    match s
    case Pending => "pending"
    case Processing => "processing"
    case Completed => "completed"
    case Failed => "failed"
  }

  /** An entry of `state.jobs`: the status, and the optional "result" and "error" keys. */
  datatype Job = Job(status: Status, result: Option<string>, error: Option<string>)

  /** ImageRequest, before validation. */
  datatype ImageRequest = ImageRequest(
    prompt: string,
    negativePrompt: string,
    width: int,
    height: int,
    model: string,
    seed: Option<int>,
    numImages: int)

  /** The field constraints of ImageRequest. A valid request names a variant the
      Flux wrapper accepts, and the field defaults are valid. */
  predicate ValidImageRequest(r: ImageRequest): (v: bool)
    ensures v ==> Flux.ResolveVariant(r.model).Success?
    ensures v ==> r.numImages >= 1
    ensures r.width == 1024 && r.height == 1024 && r.model == "schnell" && r.numImages == 1 ==> v
  {
    256 <= r.width <= 2048 && 256 <= r.height <= 2048 &&
    (r.model == "schnell" || r.model == "dev") &&
    1 <= r.numImages <= 4
  }

  /** VideoRequest, before validation. */
  datatype VideoRequest = VideoRequest(
    prompt: string,
    negativePrompt: string,
    width: int,
    height: int,
    numFrames: int,
    seed: Option<int>,
    imagePath: Option<string>)

  /** The field constraints of VideoRequest. A valid request asks for a positive
      size and frame count, and the LTX wrapper's own defaults are valid. */
  predicate ValidVideoRequest(r: VideoRequest): (v: bool)
    ensures v ==> r.width > 0 && r.height > 0 && r.numFrames > 0
    ensures var d := Ltx.DefaultVideoConfig(r.prompt);
            r.width == d.width && r.height == d.height && r.numFrames == d.numFrames ==> v
  {
    256 <= r.width <= 1280 && 256 <= r.height <= 720 && 25 <= r.numFrames <= 257
  }

  datatype JobResponse = JobResponse(jobId: string, status: Status, result: Option<string>, error: Option<string>)

  /** Why a request gets no success answer: a body that fails the field constraints
      (422, before the endpoint runs), or an HTTPException raised by the endpoint. */
  datatype Rejection = ValidationError | HttpError(code: int, detail: string)

  datatype FileResponse = FileResponse(path: string, filename: string, mediaType: string)

  datatype HealthResponse = HealthResponse(
    status: string,
    videoAvailable: bool,
    imageAvailable: bool,
    videoLoaded: bool,
    imageLoaded: bool)

  datatype ModelsInfo = ModelsInfo(video: Option<Ltx.LtxInfo>, image: Option<Flux.FluxInfo>)

  const ImageUnavailable: string := "Image generation not available. Install Flux dependencies."
  const VideoUnavailable: string := "Video generation not available. Install LTX-Video dependencies."
  const UnloadedMessage: string := "All models unloaded"

  /** str() of the KeyError raised by `state.jobs[job_id]` for a missing job. */
  function KeyErrorMessage(jobId: string): string {
    "'" + jobId + "'"
  }

  /** The shape of a uuid4 string as far as file names care: non-empty, with no
      '/' and no '.'. */
  predicate JobIdShape(jobId: string) {
    |jobId| > 0 && '/' !in jobId && '.' !in jobId
  }

  /** The media type download_result sends: PNG for a ".png" suffix, MP4 for anything else. */
  function MediaType(path: string): (t: string)
    ensures t == "image/png" <==> Suffix(path) == ".png"
    ensures t != "image/png" ==> t == "video/mp4"
  {
    if Suffix(path) == ".png" then "image/png" else "video/mp4"
  }

  /** The config process_image_generation builds: the request's fields, the dataclass
      defaults for steps and guidance, and the output path OUTPUT_DIR/<job_id>.png. */
  function ImageJobConfig(jobId: string, request: ImageRequest): (c: Flux.ImageConfig)
    ensures c.outputPath == Some(Join(OutputDir, jobId + ".png"))
    ensures c.prompt == request.prompt && c.negativePrompt == request.negativePrompt
    ensures c.width == request.width && c.height == request.height
    ensures c.seed == request.seed && c.numImages == request.numImages
    ensures c.numInferenceSteps == Flux.DefaultConfig(request.prompt).numInferenceSteps
    ensures c.guidanceScale == Flux.DefaultConfig(request.prompt).guidanceScale
  {
    Flux.ImageConfig(request.prompt, request.negativePrompt, request.width, request.height, 4, 0.0,
                     request.seed, Some(Join(OutputDir, jobId + ".png")), request.numImages)
  }

  /** The config process_video_generation builds: the request's fields (the image
      path is not among them), the dataclass defaults for steps, guidance and fps,
      and the output path OUTPUT_DIR/<job_id>.mp4. */
  function VideoJobConfig(jobId: string, request: VideoRequest): (c: Ltx.VideoConfig)
    ensures c.outputPath == Some(Join(OutputDir, jobId + ".mp4"))
    ensures c.prompt == request.prompt && c.negativePrompt == request.negativePrompt
    ensures c.width == request.width && c.height == request.height
    ensures c.numFrames == request.numFrames && c.seed == request.seed
    ensures c.numInferenceSteps == Ltx.DefaultVideoConfig(request.prompt).numInferenceSteps
    ensures c.guidanceScale == Ltx.DefaultVideoConfig(request.prompt).guidanceScale
    ensures c.fps == Ltx.DefaultVideoConfig(request.prompt).fps
  {
    Ltx.VideoConfig(request.prompt, request.negativePrompt, request.width, request.height,
                    request.numFrames, 50, 7.5, request.seed, 24, Some(Join(OutputDir, jobId + ".mp4")))
  }

  /** The entry an image task stores for what generate_image returned: the single
      path, the first of several (an IndexError when there are none), or the
      exception's message. */
  function ImageJob(outcome: Result<Flux.ImageOutput, string>): (j: Job)
    ensures j.status == Completed || j.status == Failed
    ensures j.status == Completed <==> outcome.Success? && (outcome.value.Many? ==> |outcome.value.paths| > 0)
    ensures j.status == Completed ==>
              j.error.None? &&
              j.result == Some(if outcome.value.Single? then outcome.value.path else outcome.value.paths[0])
    ensures j.status == Failed ==>
              j.result.None? &&
              j.error == Some(if outcome.Failure? then outcome.error else Flux.IndexErrorMessage)
  {
    match outcome
    case Failure(e) => Job(Failed, None, Some(e))
    case Success(Single(p)) => Job(Completed, Some(p), None)
    case Success(Many(ps)) => if |ps| == 0 then Job(Failed, None, Some(Flux.IndexErrorMessage)) else Job(Completed, Some(ps[0]), None)
  }

  /** The entry a video task stores: the saved path, or the exception's message. */
  function VideoJob(outcome: Result<string, string>): (j: Job)
    ensures j.status == Completed <==> outcome.Success?
    ensures outcome.Success? ==> j == Job(Completed, Some(outcome.value), None)
    ensures outcome.Failure? ==> j == Job(Failed, None, Some(outcome.error))
  {
    if outcome.Success? then Job(Completed, Some(outcome.value), None) else Job(Failed, None, Some(outcome.error))
  }

  /** A position holding c with no c after it is where str.rfind finds c. */
  lemma LastIndexOfAt(s: string, c: char, r: int)
    requires 0 <= r < |s| && s[r] == c
    requires forall k :: r < k < |s| ==> s[k] != c
    ensures LastIndexOf(s, c) == r
  {
  }

  /** In <stem><ext>, with no '.' in the stem, the last '.' is the first of ext. */
  lemma LastDotOfExt(stem: string, ext: string)
    requires '.' !in stem
    requires |ext| >= 1 && ext[0] == '.' && '.' !in ext[1..]
    ensures LastIndexOf(stem + ext, '.') == |stem|
  {
    var s := stem + ext;
    forall k | |stem| < k < |s| ensures s[k] != '.' {
      assert s[k] == ext[1..][k - |stem| - 1];
    }
    LastIndexOfAt(s, '.', |stem|);
  }

  /** In OUTPUT_DIR/<jobId><ext> the last '/' is the one after OUTPUT_DIR. */
  lemma JobFileSeparator(jobId: string, ext: string)
    requires JobIdShape(jobId) && '/' !in ext
    ensures LastIndexOf(Join(OutputDir, jobId + ext), '/') == |OutputDir|
  {
    var p := Join(OutputDir, jobId + ext);
    var n := |OutputDir|;
    assert p == OutputDir + "/" + (jobId + ext);
    forall k | n < k < |p| ensures p[k] != '/' {
      assert p[k] == (jobId + ext)[k - n - 1];
    }
    LastIndexOfAt(p, '/', n);
  }

  /** A file OUTPUT_DIR/<job_id><ext>: its name is <job_id><ext>, its pathlib suffix
      is ext, and os.path.splitext cuts it just before ext. */
  lemma JobFilePath(jobId: string, ext: string)
    requires JobIdShape(jobId)
    requires |ext| >= 2 && ext[0] == '.' && '.' !in ext[1..] && '/' !in ext
    ensures Name(Join(OutputDir, jobId + ext)) == jobId + ext
    ensures Suffix(Join(OutputDir, jobId + ext)) == ext
    ensures SplitExt(Join(OutputDir, jobId + ext)) == (Join(OutputDir, jobId), ext)
  {
    var name := jobId + ext;
    NameOfJoin(OutputDir, name);
    LastDotOfExt(jobId, ext);
    assert name[|jobId|..] == ext;
    assert NameSuffix(name) == ext;
    JobFileSplit(jobId, ext);
  }

  /** os.path.splitext cuts OUTPUT_DIR/<job_id><ext> just before ext. */
  lemma JobFileSplit(jobId: string, ext: string)
    requires JobIdShape(jobId)
    requires |ext| >= 2 && ext[0] == '.' && '.' !in ext[1..] && '/' !in ext
    ensures SplitExt(Join(OutputDir, jobId + ext)) == (Join(OutputDir, jobId), ext)
  {
    var p := Join(OutputDir, jobId + ext);
    var n := |OutputDir|;
    JobFileSeparator(jobId, ext);
    assert p == (OutputDir + "/" + jobId) + ext;
    LastDotOfExt(OutputDir + "/" + jobId, ext);
    var dot := n + 1 + |jobId|;
    assert p[n + 1..dot] == jobId && jobId[0] != '.';
    assert !AllDots(p[n + 1..dot]);
    assert ExtensionStart(p) == dot;
    assert p[..dot] == Join(OutputDir, jobId);
    assert p[dot..] == ext;
  }

  /** What an image task records when the pipeline produced n images: for n > 0 a
      completed job whose result is OUTPUT_DIR/<job_id>.png (one image) or
      OUTPUT_DIR/<job_id>_0.png (several), a PNG file in both cases; for n == 0 an
      IndexError, whatever the number of images asked for. */
  lemma ImageJobResult(jobId: string, request: ImageRequest, n: nat)
    requires JobIdShape(jobId)
    ensures var stem := if request.numImages == 1 then jobId else jobId + "_0";
            var job := ImageJob(Flux.ImageOutcome(ImageJobConfig(jobId, request), Flux.Produced(n)));
            (n > 0 ==>
               job == Job(Completed, Some(Join(OutputDir, stem + ".png")), None)) &&
            (n == 0 ==> job == Job(Failed, None, Some(Flux.IndexErrorMessage))) &&
            Name(Join(OutputDir, stem + ".png")) == stem + ".png" &&
            MediaType(Join(OutputDir, stem + ".png")) == "image/png"
  {
    var stem := if request.numImages == 1 then jobId else jobId + "_0";
    FirstImagePath(jobId, request);
    ImageJobRecord(ImageJobConfig(jobId, request), n, Join(OutputDir, stem + ".png"));
    if request.numImages != 1 {
      NumberedStemShape(jobId);
    }
    PngJobFile(stem);
  }

  /** A job id numbered with "_0" is still a plain file stem. */
  lemma NumberedStemShape(jobId: string)
    requires JobIdShape(jobId)
    ensures JobIdShape(jobId + "_0")
  {
    assert forall k :: 0 <= k < |jobId + "_0"| ==> (jobId + "_0")[k] == if k < |jobId| then jobId[k] else "_0"[k - |jobId|];
  }

  /** OUTPUT_DIR/<stem>.png is named <stem>.png and served as PNG. */
  lemma PngJobFile(stem: string)
    requires JobIdShape(stem)
    ensures Name(Join(OutputDir, stem + ".png")) == stem + ".png"
    ensures MediaType(Join(OutputDir, stem + ".png")) == "image/png"
  {
    JobFilePath(stem, ".png");
  }

  /** The job recorded for n produced images, given the first image's path. */
  lemma ImageJobRecord(config: Flux.ImageConfig, n: nat, path: string)
    requires Flux.ImagePath(config, 0) == path
    ensures n > 0 ==> ImageJob(Flux.ImageOutcome(config, Flux.Produced(n))) == Job(Completed, Some(path), None)
    ensures n == 0 ==> ImageJob(Flux.ImageOutcome(config, Flux.Produced(n))) == Job(Failed, None, Some(Flux.IndexErrorMessage))
  {
    var outcome := Flux.ImageOutcome(config, Flux.Produced(n));
    if n > 0 {
      if config.numImages == 1 {
        assert outcome == Success(Flux.Single(path));
      } else {
        assert outcome.Success? && outcome.value.Many? && outcome.value.paths[0] == path;
      }
      assert ImageJob(outcome) == Job(Completed, Some(path), None);
    } else if config.numImages != 1 {
      assert outcome == Success(Flux.Many([]));
    }
  }

  /** The path of the first image of an image task: OUTPUT_DIR/<job_id>.png for one
      image, OUTPUT_DIR/<job_id>_0.png for several. */
  lemma FirstImagePath(jobId: string, request: ImageRequest)
    requires JobIdShape(jobId)
    ensures Flux.ImagePath(ImageJobConfig(jobId, request), 0) ==
            Join(OutputDir, (if request.numImages == 1 then jobId else jobId + "_0") + ".png")
  {
    var config := ImageJobConfig(jobId, request);
    var out := Join(OutputDir, jobId + ".png");
    if request.numImages != 1 {
      assert Flux.MultiBase(config) == out;
      FirstIndexedJobPath(jobId);
    } else {
      assert Flux.SinglePath(config) == out;
    }
  }

  /** Numbering OUTPUT_DIR/<job_id>.png from 0 gives OUTPUT_DIR/<job_id>_0.png. */
  lemma FirstIndexedJobPath(jobId: string)
    requires JobIdShape(jobId)
    ensures Flux.IndexedPath(Join(OutputDir, jobId + ".png"), 0) == Join(OutputDir, jobId + "_0" + ".png")
  {
    JobFilePath(jobId, ".png");
    Flux.IndexedPathOfSplit(Join(OutputDir, jobId + ".png"), Join(OutputDir, jobId), ".png", 0);
    FirstIndexSuffix(OutputDir, jobId, ".png");
  }

  /** Numbering a root from 0 appends "_0" to its last component. */
  lemma FirstIndexSuffix(dir: string, name: string, ext: string)
    ensures Join(dir, name) + "_" + NatToString(0) + ext == Join(dir, name + "_0" + ext)
  {
    assert NatToString(0) == "0";
    JoinAppend(dir, name, "_0" + ext);
  }

  /** What a video task records when the pipeline rendered: a completed job whose
      result is OUTPUT_DIR/<job_id>.mp4, served as MP4. */
  lemma VideoJobResult(jobId: string, request: VideoRequest)
    requires JobIdShape(jobId)
    ensures var job := VideoJob(Success(Ltx.TextVideoPath(VideoJobConfig(jobId, request))));
            job == Job(Completed, Some(Join(OutputDir, jobId + ".mp4")), None) &&
            Name(job.result.value) == jobId + ".mp4" && MediaType(job.result.value) == "video/mp4"
  {
    var out := Join(OutputDir, jobId + ".mp4");
    assert out != "";
    JobFilePath(jobId, ".mp4");
    assert Ltx.TextVideoPath(VideoJobConfig(jobId, request)) == out;
  }

  /** Writing a key twice leaves only the second value; the key set gains the key. */
  lemma Overwritten<K, V>(m: map<K, V>, k: K, first: V, second: V)
    ensures m[k := first][k := second] == m[k := second]
    ensures m[k := second].Keys == m.Keys + {k}
  { }

  /** GenerationState together with the import flags HAS_VIDEO and HAS_IMAGE. */
  class GenerationState {
    const hasVideo: bool
    const hasImage: bool
    var videoWrapper: Ltx.LTXVideoWrapper?
    var imageWrapper: Flux.FluxWrapper?
    var jobs: map<string, Job>

    /** The state at start-up: nothing loaded, no jobs. */
    constructor (videoImported: bool, imageImported: bool)
      ensures hasVideo == videoImported && hasImage == imageImported
      ensures videoWrapper == null && imageWrapper == null && jobs == map[]
    {
      hasVideo, hasImage := videoImported, imageImported;
      videoWrapper, imageWrapper := null, null;
      jobs := map[];
    }

    /** health_check: always healthy; which capabilities were imported and which are loaded. */
    function HealthCheck(): (h: HealthResponse)
      reads this
      ensures h.status == "healthy"
      ensures h.videoAvailable == hasVideo && h.imageAvailable == hasImage
      ensures h.videoLoaded <==> videoWrapper != null
      ensures h.imageLoaded <==> imageWrapper != null
    {
      HealthResponse("healthy", hasVideo, hasImage, videoWrapper != null, imageWrapper != null)
    }

    /** get_job_status: 404 for an unknown id, otherwise the stored entry. */
    function GetJobStatus(jobId: string): (r: Result<JobResponse, Rejection>)
      reads this
      ensures r.Failure? <==> jobId !in jobs
      ensures r.Failure? ==> r.error == HttpError(404, "Job not found")
      ensures r.Success? ==>
                r.value.jobId == jobId && r.value.status == jobs[jobId].status &&
                r.value.result == jobs[jobId].result && r.value.error == jobs[jobId].error
    {
      if jobId !in jobs then Failure(HttpError(404, "Job not found"))
      else
        var job := jobs[jobId];
        Success(JobResponse(jobId, job.status, job.result, job.error))
    }

    /** download_result: 404 for an unknown job, 400 for a job not completed, 500 when
        a completed entry has no result, 404 when the file is gone; otherwise the
        file under its own name, typed by its suffix. `existing` is the set of
        paths that exist. */
    function DownloadResult(jobId: string, existing: set<string>): (r: Result<FileResponse, Rejection>)
      reads this
      ensures jobId !in jobs ==> r == Failure(HttpError(404, "Job not found"))
      ensures jobId in jobs && jobs[jobId].status != Completed ==>
                r == Failure(HttpError(400, "Job status: " + StatusName(jobs[jobId].status)))
      ensures jobId in jobs && jobs[jobId].status == Completed && jobs[jobId].result.None? ==>
                r == Failure(HttpError(500, "Internal Server Error"))
      ensures r.Success? <==>
                jobId in jobs && jobs[jobId].status == Completed && jobs[jobId].result.Some? &&
                jobs[jobId].result.value in existing
      ensures r.Success? ==>
                r.value.path == jobs[jobId].result.value && r.value.filename == Name(r.value.path) &&
                r.value.mediaType == MediaType(r.value.path)
      ensures r.Failure? && jobId in jobs && jobs[jobId].status == Completed && jobs[jobId].result.Some? ==>
                r.error == HttpError(404, "Generated file not found")
    {
      if jobId !in jobs then Failure(HttpError(404, "Job not found"))
      else
        var job := jobs[jobId];
        if job.status != Completed then Failure(HttpError(400, "Job status: " + StatusName(job.status)))
        else if job.result.None? then Failure(HttpError(500, "Internal Server Error"))
        else if job.result.value !in existing then Failure(HttpError(404, "Generated file not found"))
        else Success(FileResponse(job.result.value, Name(job.result.value), MediaType(job.result.value)))
    }

    /** A finished image job whose pipeline produced images, once its file exists, is
        downloaded as a PNG named after the job. */
    lemma ImageJobServed(jobId: string, request: ImageRequest, n: nat, existing: set<string>)
      requires JobIdShape(jobId) && n > 0
      requires jobId in jobs && jobs[jobId] == ImageJob(Flux.ImageOutcome(ImageJobConfig(jobId, request), Flux.Produced(n)))
      requires jobs[jobId].result.Some? && jobs[jobId].result.value in existing
      ensures var stem := if request.numImages == 1 then jobId else jobId + "_0";
              DownloadResult(jobId, existing) ==
              Success(FileResponse(Join(OutputDir, stem + ".png"), stem + ".png", "image/png"))
    {
      ImageJobResult(jobId, request, n);
    }

    /** A finished video job, once its file exists, is downloaded as an MP4 named
        after the job. */
    lemma VideoJobServed(jobId: string, request: VideoRequest, existing: set<string>)
      requires JobIdShape(jobId)
      requires jobId in jobs && jobs[jobId] == VideoJob(Success(Ltx.TextVideoPath(VideoJobConfig(jobId, request))))
      requires Join(OutputDir, jobId + ".mp4") in existing
      ensures DownloadResult(jobId, existing) ==
              Success(FileResponse(Join(OutputDir, jobId + ".mp4"), jobId + ".mp4", "video/mp4"))
    {
      VideoJobResult(jobId, request);
    }

    /** generate_image: 422 for a body outside the constraints, 503 without the image
        dependencies; otherwise a pending job under the new id, whose status
        endpoint answers exactly what was returned. `jobId` is the fresh uuid4. */
    method GenerateImage(request: ImageRequest, jobId: string) returns (r: Result<JobResponse, Rejection>)
      modifies this
      ensures !ValidImageRequest(request) ==> r == Failure(ValidationError) && jobs == old(jobs)
      ensures ValidImageRequest(request) && !hasImage ==> r == Failure(HttpError(503, ImageUnavailable)) && jobs == old(jobs)
      ensures ValidImageRequest(request) && hasImage ==>
                r == Success(JobResponse(jobId, Pending, None, None)) && jobs == old(jobs)[jobId := Job(Pending, None, None)]
      ensures r.Success? ==> GetJobStatus(jobId) == r
      ensures videoWrapper == old(videoWrapper) && imageWrapper == old(imageWrapper)
    {
      if !ValidImageRequest(request) {
        return Failure(ValidationError);
      }
      if !hasImage {
        return Failure(HttpError(503, ImageUnavailable));
      }
      jobs := jobs[jobId := Job(Pending, None, None)];
      r := Success(JobResponse(jobId, Pending, None, None));
    }

    /** generate_video: as generate_image, for the video request and dependencies. */
    method GenerateVideo(request: VideoRequest, jobId: string) returns (r: Result<JobResponse, Rejection>)
      modifies this
      ensures !ValidVideoRequest(request) ==> r == Failure(ValidationError) && jobs == old(jobs)
      ensures ValidVideoRequest(request) && !hasVideo ==> r == Failure(HttpError(503, VideoUnavailable)) && jobs == old(jobs)
      ensures ValidVideoRequest(request) && hasVideo ==>
                r == Success(JobResponse(jobId, Pending, None, None)) && jobs == old(jobs)[jobId := Job(Pending, None, None)]
      ensures r.Success? ==> GetJobStatus(jobId) == r
      ensures videoWrapper == old(videoWrapper) && imageWrapper == old(imageWrapper)
    {
      if !ValidVideoRequest(request) {
        return Failure(ValidationError);
      }
      if !hasVideo {
        return Failure(HttpError(503, VideoUnavailable));
      }
      jobs := jobs[jobId := Job(Pending, None, None)];
      r := Success(JobResponse(jobId, Pending, None, None));
    }

    /** process_image_generation. A missing job is recorded as failed with the
        KeyError. Otherwise the job is marked processing; the loaded wrapper is
        reused when it has the requested variant, else it is unloaded and replaced
        (a variant the wrapper refuses fails the job and leaves the old, unloaded
        wrapper in place); then the generation's outcome is recorded. */
    method ProcessImageGeneration(jobId: string, request: ImageRequest, hw: Hardware,
                                  pipe: (Pipeline, Flux.ImageCall) -> Flux.ImageRun)
      modifies this, imageWrapper
      ensures videoWrapper == old(videoWrapper)
      ensures jobId in jobs && (jobs[jobId].status == Completed || jobs[jobId].status == Failed)
      ensures jobs.Keys == old(jobs).Keys + {jobId}
      ensures jobId !in old(jobs) ==>
                jobs == old(jobs)[jobId := Job(Failed, None, Some(KeyErrorMessage(jobId)))] &&
                imageWrapper == old(imageWrapper) &&
                (imageWrapper != null ==> imageWrapper.pipeline == old(imageWrapper.pipeline))
      ensures jobId in old(jobs) && old(imageWrapper) != null && old(imageWrapper).modelVariant == request.model ==>
                imageWrapper == old(imageWrapper) &&
                imageWrapper.pipeline == (if old(imageWrapper.pipeline).Some? then old(imageWrapper.pipeline)
                                          else Some(imageWrapper.FreshPipeline())) &&
                jobs == old(jobs)[jobId := ImageJob(Flux.ImageOutcome(ImageJobConfig(jobId, request),
                          pipe(imageWrapper.pipeline.value, Flux.CallFor(request.model, ImageJobConfig(jobId, request)))))]
      ensures jobId in old(jobs) && (old(imageWrapper) == null || old(imageWrapper).modelVariant != request.model) ==>
                (old(imageWrapper) != null ==> old(imageWrapper).pipeline == None) &&
                (Flux.ResolveVariant(request.model).Failure? ==>
                   imageWrapper == old(imageWrapper) &&
                   jobs == old(jobs)[jobId := Job(Failed, None, Some(Flux.UnknownVariantMessage(request.model)))]) &&
                (Flux.ResolveVariant(request.model).Success? ==>
                   imageWrapper != null && fresh(imageWrapper) && imageWrapper.modelVariant == request.model &&
                   imageWrapper.device == ResolveDevice(None, hw) && imageWrapper.enableCpuOffload &&
                   imageWrapper.builds == 1 && imageWrapper.pipeline == Some(imageWrapper.FreshPipeline()) &&
                   jobs == old(jobs)[jobId := ImageJob(Flux.ImageOutcome(ImageJobConfig(jobId, request),
                             pipe(imageWrapper.FreshPipeline(), Flux.CallFor(request.model, ImageJobConfig(jobId, request)))))])
    {
      if jobId !in jobs {
        jobs := jobs[jobId := Job(Failed, None, Some(KeyErrorMessage(jobId)))];
        return;
      }
      var processing := jobs[jobId].(status := Processing);
      jobs := jobs[jobId := processing];
      if imageWrapper != null && imageWrapper.modelVariant == request.model {
        RunImageJob(jobId, request, pipe);
      } else {
        SwitchAndRunImageJob(jobId, request, hw, pipe);
      }
      Overwritten(old(jobs), jobId, processing, jobs[jobId]);
    }

    /** process_image_generation when no wrapper holds the requested model: the
        wrapper is switched, and the job fails with the wrapper's message if the
        variant is unknown, or records the generation on the new wrapper. */
    method SwitchAndRunImageJob(jobId: string, request: ImageRequest, hw: Hardware,
                                pipe: (Pipeline, Flux.ImageCall) -> Flux.ImageRun)
      requires imageWrapper == null || imageWrapper.modelVariant != request.model
      modifies this, imageWrapper
      ensures videoWrapper == old(videoWrapper)
      ensures old(imageWrapper) != null ==> old(imageWrapper).pipeline == None
      ensures Flux.ResolveVariant(request.model).Failure? ==>
                imageWrapper == old(imageWrapper) &&
                jobs == old(jobs)[jobId := Job(Failed, None, Some(Flux.UnknownVariantMessage(request.model)))]
      ensures Flux.ResolveVariant(request.model).Success? ==>
                imageWrapper != null && fresh(imageWrapper) && imageWrapper.modelVariant == request.model &&
                imageWrapper.device == ResolveDevice(None, hw) && imageWrapper.enableCpuOffload &&
                imageWrapper.builds == 1 && imageWrapper.pipeline == Some(imageWrapper.FreshPipeline()) &&
                jobs == old(jobs)[jobId := ImageJob(Flux.ImageOutcome(ImageJobConfig(jobId, request),
                          pipe(imageWrapper.FreshPipeline(), Flux.CallFor(request.model, ImageJobConfig(jobId, request)))))]
    {
      var loaded := SwapImageWrapper(request.model, hw);
      if !loaded {
        jobs := jobs[jobId := Job(Failed, None, Some(Flux.UnknownVariantMessage(request.model)))];
        return;
      }
      RunImageJob(jobId, request, pipe);
    }

    /** The generation step of process_image_generation, on a wrapper already
        holding the requested model: the job records the outcome of generating
        from the job's configuration. */
    method RunImageJob(jobId: string, request: ImageRequest, pipe: (Pipeline, Flux.ImageCall) -> Flux.ImageRun)
      requires imageWrapper != null && imageWrapper.modelVariant == request.model
      modifies this, imageWrapper
      ensures imageWrapper == old(imageWrapper) && videoWrapper == old(videoWrapper)
      ensures imageWrapper.pipeline == (if old(imageWrapper.pipeline).Some? then old(imageWrapper.pipeline)
                                        else Some(imageWrapper.FreshPipeline()))
      ensures imageWrapper.builds == old(imageWrapper.builds) + (if old(imageWrapper.pipeline).None? then 1 else 0)
      ensures jobs == old(jobs)[jobId := ImageJob(Flux.ImageOutcome(ImageJobConfig(jobId, request),
                        pipe(imageWrapper.pipeline.value, Flux.CallFor(request.model, ImageJobConfig(jobId, request)))))]
    {
      var config := ImageJobConfig(jobId, request);
      var result := imageWrapper.GenerateImage(config, pipe);
      jobs := jobs[jobId := ImageJob(result)];
    }

    /** The model switch of process_image_generation: the old wrapper, if any, is
        unloaded, and a wrapper for `model` with CPU offload replaces it unless the
        variant is unknown, in which case the old one stays. */
    method SwapImageWrapper(model: string, hw: Hardware) returns (loaded: bool)
      requires imageWrapper == null || imageWrapper.modelVariant != model
      modifies this, imageWrapper
      ensures jobs == old(jobs) && videoWrapper == old(videoWrapper)
      ensures old(imageWrapper) != null ==> old(imageWrapper).pipeline == None
      ensures loaded <==> Flux.ResolveVariant(model).Success?
      ensures !loaded ==> imageWrapper == old(imageWrapper)
      ensures loaded ==>
                imageWrapper != null && fresh(imageWrapper) && imageWrapper.modelVariant == model &&
                imageWrapper.device == ResolveDevice(None, hw) && imageWrapper.enableCpuOffload &&
                imageWrapper.pipeline == None && imageWrapper.builds == 0
    {
      if imageWrapper != null {
        imageWrapper.Unload();
      }
      var created := Flux.FluxWrapper.Create(model, None, None, true, hw);
      loaded := created.Success?;
      if loaded {
        imageWrapper := created.value;
      }
    }

    /** process_video_generation. A missing job is recorded as failed with the
        KeyError. Otherwise the job is marked processing; a wrapper on the distilled
        model is created only when none exists (the loaded one is reused whatever
        its model); then the text-to-video outcome is recorded. The request's
        image path plays no part. */
    method ProcessVideoGeneration(jobId: string, request: VideoRequest, hw: Hardware,
                                  pipe: (Pipeline, Ltx.VideoCall) -> Ltx.VideoRun)
      modifies this, videoWrapper
      ensures imageWrapper == old(imageWrapper)
      ensures jobId in jobs && (jobs[jobId].status == Completed || jobs[jobId].status == Failed)
      ensures jobs.Keys == old(jobs).Keys + {jobId}
      ensures jobId !in old(jobs) ==>
                jobs == old(jobs)[jobId := Job(Failed, None, Some(KeyErrorMessage(jobId)))] &&
                videoWrapper == old(videoWrapper) &&
                (videoWrapper != null ==> videoWrapper.text2video == old(videoWrapper.text2video))
      ensures jobId in old(jobs) ==>
                videoWrapper != null &&
                (old(videoWrapper) != null ==> videoWrapper == old(videoWrapper)) &&
                (old(videoWrapper) == null ==>
                   fresh(videoWrapper) && videoWrapper.modelId == Ltx.DistilledModel &&
                   videoWrapper.device == ResolveDevice(None, hw) && videoWrapper.enableCpuOffload) &&
                videoWrapper.text2video ==
                  (if old(videoWrapper) != null && old(videoWrapper.text2video).Some? then old(videoWrapper.text2video)
                   else Some(videoWrapper.FreshPipeline(LtxText2Video))) &&
                videoWrapper.text2videoBuilds ==
                  (if old(videoWrapper) != null then old(videoWrapper.text2videoBuilds) else 0) +
                  (if old(videoWrapper) != null && old(videoWrapper.text2video).Some? then 0 else 1) &&
                videoWrapper.img2video == old(if videoWrapper != null then videoWrapper.img2video else None) &&
                var run := pipe(videoWrapper.text2video.value, Ltx.VideoCallFor(VideoJobConfig(jobId, request), None));
                jobs == old(jobs)[jobId := VideoJob(if run.Raised? then Failure(run.message)
                                                    else Success(Ltx.TextVideoPath(VideoJobConfig(jobId, request))))]
    {
      if jobId !in jobs {
        jobs := jobs[jobId := Job(Failed, None, Some(KeyErrorMessage(jobId)))];
        return;
      }
      var processing := jobs[jobId].(status := Processing);
      jobs := jobs[jobId := processing];
      if videoWrapper == null {
        videoWrapper := new Ltx.LTXVideoWrapper(Ltx.DistilledModel, None, None, true, hw);
      }
      var config := VideoJobConfig(jobId, request);
      var result := videoWrapper.GenerateVideo(config, pipe);
      jobs := jobs[jobId := VideoJob(result)];
      Overwritten(old(jobs), jobId, processing, jobs[jobId]);
    }

    /** unload_models: each loaded wrapper is unloaded and dropped; jobs are kept. */
    method UnloadModels() returns (message: string)
      modifies this, videoWrapper, imageWrapper
      ensures message == UnloadedMessage
      ensures videoWrapper == null && imageWrapper == null && jobs == old(jobs)
      ensures old(videoWrapper) != null ==> old(videoWrapper).text2video == None && old(videoWrapper).img2video == None
      ensures old(imageWrapper) != null ==> old(imageWrapper).pipeline == None
    {
      if videoWrapper != null {
        videoWrapper.Unload();
        videoWrapper := null;
      }
      if imageWrapper != null {
        imageWrapper.Unload();
        imageWrapper := null;
      }
      message := UnloadedMessage;
    }

    /** The shutdown half of the lifespan: loaded wrappers are unloaded but kept. */
    method Shutdown()
      modifies videoWrapper, imageWrapper
      ensures videoWrapper != null ==> videoWrapper.text2video == None && videoWrapper.img2video == None
      ensures imageWrapper != null ==> imageWrapper.pipeline == None
    {
      if videoWrapper != null {
        videoWrapper.Unload();
      }
      if imageWrapper != null {
        imageWrapper.Unload();
      }
    }

    /** get_models_info: each wrapper's own report, or None when it is not loaded. */
    function GetModelsInfo(): (info: ModelsInfo)
      reads this, videoWrapper, imageWrapper
      ensures info.video.Some? <==> videoWrapper != null
      ensures info.image.Some? <==> imageWrapper != null
      ensures info.video == (if videoWrapper != null then Some(videoWrapper.GetModelInfo()) else None)
      ensures info.image == (if imageWrapper != null then Some(imageWrapper.GetModelInfo()) else None)
      ensures info.video.Some? ==>
                info.video.value.modelId == videoWrapper.modelId &&
                (info.video.value.text2videoLoaded <==> videoWrapper.text2video.Some?) &&
                (info.video.value.img2videoLoaded <==> videoWrapper.img2video.Some?)
      ensures info.image.Some? ==>
                info.image.value.modelVariant == imageWrapper.modelVariant &&
                (info.image.value.pipelineLoaded <==> imageWrapper.pipeline.Some?)
    {
      ModelsInfo(if videoWrapper != null then Some(videoWrapper.GetModelInfo()) else None,
                 if imageWrapper != null then Some(imageWrapper.GetModelInfo()) else None)
    }
  }
}
