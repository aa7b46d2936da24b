/** The LTX-Video wrapper: two independently and lazily loaded pipelines (text to
    video, image to video), default output names, and the download directory name. */
module Ltx {
  import opened Wrappers
  import opened PyStr
  import opened Runtime

  const DistilledModel: string := "Lightricks/LTX-Video-0.9.8-distilled"
  /** MODELS_DIR at its default, `./models/ltx-video`. */
  const ModelsDir: string := "models/ltx-video"

  /** VideoGenerationConfig. */
  datatype VideoConfig = VideoConfig(
    prompt: string,
    negativePrompt: string,
    width: int,
    height: int,
    numFrames: int,
    numInferenceSteps: int,
    guidanceScale: real,
    seed: Option<int>,
    fps: int,
    outputPath: Option<string>)

  /** VideoGenerationConfig(prompt=...) with every other field at its default. */
  function DefaultVideoConfig(prompt: string): VideoConfig {
    VideoConfig(prompt, "", 768, 512, 97, 50, 7.5, None, 24, None)
  }

  /** Image2VideoConfig: the video fields plus the input image. The conditioning
      strength is carried but never passed to the pipeline. */
  datatype Image2VideoConfig = Image2VideoConfig(video: VideoConfig, imagePath: string, conditioningStrength: real)

  /** The arguments a generation passes to a pipeline; `image` is the input image
      (resized to width x height) for image-to-video, None for text-to-video. */
  datatype VideoCall = VideoCall(
    prompt: string,
    negativePrompt: string,
    image: Option<string>,
    width: int,
    height: int,
    numFrames: int,
    steps: int,
    guidance: real,
    generatorSeed: Option<int>)

  /** A generation either renders and saves its frames or raises (opening the input
      image, the pipeline and the video export can all raise). */
  datatype VideoRun = Rendered | Raised(message: string)

  /** The pipeline call of a generation: every sampling field is passed unchanged,
      and a generator is seeded whenever a seed is given, 0 included. */
  function VideoCallFor(config: VideoConfig, image: Option<string>): (c: VideoCall)
    ensures c.prompt == config.prompt && c.negativePrompt == config.negativePrompt
    ensures c.steps == config.numInferenceSteps && c.guidance == config.guidanceScale
    ensures c.generatorSeed == config.seed && c.image == image
    ensures c.width == config.width && c.height == config.height && c.numFrames == config.numFrames
  {
    VideoCall(config.prompt, config.negativePrompt, image, config.width, config.height,
              config.numFrames, config.numInferenceSteps, config.guidanceScale, config.seed)
  }

  /** generate_video's path: `output_path or f"output_{seed or 'random'}.mp4"`. */
  function TextVideoPath(config: VideoConfig): (p: string)
    ensures p != ""
    ensures config.outputPath.Some? && config.outputPath.value != "" ==> p == config.outputPath.value
    ensures config.outputPath.None? || config.outputPath.value == "" ==> p == "output_" + SeedLabel(config.seed) + ".mp4"
  {
    OrDefault(config.outputPath, "output_" + SeedLabel(config.seed) + ".mp4")
  }

  /** generate_from_image's path: `output_path or f"output_img2vid_{seed or 'random'}.mp4"`. */
  function ImageVideoPath(config: VideoConfig): (p: string)
    ensures p != ""
    ensures config.outputPath.Some? && config.outputPath.value != "" ==> p == config.outputPath.value
    ensures config.outputPath.None? || config.outputPath.value == "" ==> p == "output_img2vid_" + SeedLabel(config.seed) + ".mp4"
  {
    OrDefault(config.outputPath, "output_img2vid_" + SeedLabel(config.seed) + ".mp4")
  }

  /** The seed label never starts with 'i': it is "random", a '-' or a digit. */
  lemma SeedLabelStart(seed: Option<int>)
    ensures SeedLabel(seed)[0] != 'i'
  {
    if seed.Some? && seed.value > 0 {
      assert SeedLabel(seed) == NatToString(seed.value);
      assert IsDigit(NatToString(seed.value)[0]);
    }
  }

  /** The two default names never collide: a text-to-video default and an
      image-to-video default differ whatever the seeds; and seed 0 names the file
      like no seed at all. */
  lemma DefaultVideoPaths(a: VideoConfig, b: VideoConfig)
    requires a.outputPath.None? || a.outputPath.value == ""
    requires b.outputPath.None? || b.outputPath.value == ""
    ensures TextVideoPath(a) != ImageVideoPath(b)
    ensures TextVideoPath(a.(seed := Some(0))) == TextVideoPath(a.(seed := None)) == "output_random.mp4"
    ensures ImageVideoPath(b.(seed := Some(0))) == ImageVideoPath(b.(seed := None)) == "output_img2vid_random.mp4"
  {
    DefaultNamesDiffer(a.seed, b.seed);
    assert TextVideoPath(a) == "output_" + SeedLabel(a.seed) + ".mp4";
    assert ImageVideoPath(b) == "output_img2vid_" + SeedLabel(b.seed) + ".mp4";
    assert SeedLabel(Some(0)) == SeedLabel(None) == "random";
  }

  /** The default names for any two seeds differ at their eighth character. */
  lemma DefaultNamesDiffer(s: Option<int>, t: Option<int>)
    ensures "output_" + SeedLabel(s) + ".mp4" != "output_img2vid_" + SeedLabel(t) + ".mp4"
  {
    SeedLabelStart(s);
    assert ("output_" + SeedLabel(s) + ".mp4")[7] == SeedLabel(s)[0];
    assert ("output_img2vid_" + SeedLabel(t) + ".mp4")[7] == 'i';
  }

  /** The directory name ensure_model_downloaded uses: the model id with every '/'
      turned into '_', under MODELS_DIR. */
  function ModelDirName(modelId: string): (name: string)
    ensures |name| == |modelId| && '/' !in name
    ensures forall k :: 0 <= k < |modelId| && modelId[k] != '/' ==> name[k] == modelId[k]
    ensures forall k :: 0 <= k < |modelId| && modelId[k] == '/' ==> name[k] == '_'
  {
    ReplaceChar(modelId, '/', '_')
  }

  /** What get_model_info reports. */
  datatype LtxInfo = LtxInfo(modelId: string, device: string, dtype: string, text2videoLoaded: bool, img2videoLoaded: bool)

  class LTXVideoWrapper {
    const modelId: string
    const device: string
    const dtype: Dtype
    const enableCpuOffload: bool
    /** `_text2video_pipeline` and `_img2video_pipeline`, each None until first use. */
    var text2video: Option<Pipeline>
    var img2video: Option<Pipeline>
    /** How many times each pipeline has been built from the weights. */
    ghost var text2videoBuilds: nat
    ghost var img2videoBuilds: nat

    /** __init__: the device and precision follow the same rules as the Flux wrapper. */
    constructor (id: string, requestedDevice: Option<string>, requestedDtype: Option<Dtype>,
                 enableModelCpuOffload: bool, hw: Hardware)
      ensures modelId == id
      ensures device == ResolveDevice(requestedDevice, hw)
      ensures dtype == ResolveDtype(requestedDtype, device, hw)
      ensures enableCpuOffload == enableModelCpuOffload
      ensures text2video == None && img2video == None
      ensures text2videoBuilds == 0 && img2videoBuilds == 0
    {
      modelId := id;
      var d := ResolveDevice(requestedDevice, hw);
      device := d;
      dtype := ResolveDtype(requestedDtype, d, hw);
      enableCpuOffload := enableModelCpuOffload;
      text2video, img2video := None, None;
      text2videoBuilds, img2videoBuilds := 0, 0;
    }

    /** A pipeline as the loaders build it: offloaded exactly when offload is enabled
        and the device is "cuda", otherwise moved to the device. */
    function FreshPipeline(kind: PipelineKind): (p: Pipeline)
      ensures p.kind == kind && p.repoId == modelId && p.dtype == dtype
      ensures p.placement == CpuOffload <==> enableCpuOffload && device == "cuda"
      ensures p.placement.OnDevice? ==> p.placement.device == device
    {
      Pipeline(kind, modelId, dtype, ChoosePlacement(enableCpuOffload, device))
    }

    /** _load_text2video_pipeline: built once, reused after; the other pipeline is untouched. */
    method LoadText2Video() returns (p: Pipeline)
      modifies this
      ensures text2video == Some(p)
      ensures old(text2video).Some? ==> p == old(text2video).value && text2videoBuilds == old(text2videoBuilds)
      ensures old(text2video).None? ==> p == FreshPipeline(LtxText2Video) && text2videoBuilds == old(text2videoBuilds) + 1
      ensures img2video == old(img2video) && img2videoBuilds == old(img2videoBuilds)
    {
      if text2video.None? {
        text2video := Some(FreshPipeline(LtxText2Video));
        text2videoBuilds := text2videoBuilds + 1;
      }
      p := text2video.value;
    }

    /** _load_img2video_pipeline: built once, reused after; the other pipeline is untouched. */
    method LoadImg2Video() returns (p: Pipeline)
      modifies this
      ensures img2video == Some(p)
      ensures old(img2video).Some? ==> p == old(img2video).value && img2videoBuilds == old(img2videoBuilds)
      ensures old(img2video).None? ==> p == FreshPipeline(LtxImage2Video) && img2videoBuilds == old(img2videoBuilds) + 1
      ensures text2video == old(text2video) && text2videoBuilds == old(text2videoBuilds)
    {
      if img2video.None? {
        img2video := Some(FreshPipeline(LtxImage2Video));
        img2videoBuilds := img2videoBuilds + 1;
      }
      p := img2video.value;
    }

    /** generate_video: text-to-video; returns the output path, or the exception. */
    method GenerateVideo(config: VideoConfig, pipe: (Pipeline, VideoCall) -> VideoRun) returns (r: Result<string, string>)
      modifies this
      ensures text2video == (if old(text2video).Some? then old(text2video) else Some(FreshPipeline(LtxText2Video)))
      ensures text2videoBuilds == old(text2videoBuilds) + (if old(text2video).None? then 1 else 0)
      ensures img2video == old(img2video) && img2videoBuilds == old(img2videoBuilds)
      ensures var run := pipe(text2video.value, VideoCallFor(config, None));
              (run.Raised? ==> r == Failure(run.message)) && (run.Rendered? ==> r == Success(TextVideoPath(config)))
    {
      var p := LoadText2Video();
      var run := pipe(p, VideoCallFor(config, None));
      if run.Raised? {
        return Failure(run.message);
      }
      var outputPath := OrDefault(config.outputPath, "output_" + SeedLabel(config.seed) + ".mp4");
      r := Success(outputPath);
    }

    /** generate_from_image: image-to-video; returns the output path, or the exception. */
    method GenerateFromImage(config: Image2VideoConfig, pipe: (Pipeline, VideoCall) -> VideoRun) returns (r: Result<string, string>)
      modifies this
      ensures img2video == (if old(img2video).Some? then old(img2video) else Some(FreshPipeline(LtxImage2Video)))
      ensures img2videoBuilds == old(img2videoBuilds) + (if old(img2video).None? then 1 else 0)
      ensures text2video == old(text2video) && text2videoBuilds == old(text2videoBuilds)
      ensures var run := pipe(img2video.value, VideoCallFor(config.video, Some(config.imagePath)));
              (run.Raised? ==> r == Failure(run.message)) && (run.Rendered? ==> r == Success(ImageVideoPath(config.video)))
    {
      var p := LoadImg2Video();
      var run := pipe(p, VideoCallFor(config.video, Some(config.imagePath)));
      if run.Raised? {
        return Failure(run.message);
      }
      var outputPath := OrDefault(config.video.outputPath, "output_img2vid_" + SeedLabel(config.video.seed) + ".mp4");
      r := Success(outputPath);
    }

    /** unload: drops both pipelines. */
    method Unload()
      modifies this
      ensures text2video == None && img2video == None
      ensures text2videoBuilds == old(text2videoBuilds) && img2videoBuilds == old(img2videoBuilds)
    {
      text2video, img2video := None, None;
    }

    /** get_model_info: the constant settings and which pipelines are loaded. */
    function GetModelInfo(): (info: LtxInfo)
      reads this
      ensures info.text2videoLoaded <==> text2video.Some?
      ensures info.img2videoLoaded <==> img2video.Some?
      ensures info.modelId == modelId && info.device == device && info.dtype == DtypeName(dtype)
    {
      LtxInfo(modelId, device, DtypeName(dtype), text2video.Some?, img2video.Some?)
    }

    /** ensure_model_downloaded: the weights live in MODELS_DIR/<id with '/' as '_'>;
        the download runs only when that directory is absent, and its failure
        propagates. The result is the directory and whether a download ran. */
    function EnsureModelDownloaded(existing: set<string>, fetch: FetchOutcome): (r: Result<(string, bool), string>)
      ensures r.Success? ==> r.value.0 == ModelsDir + "/" + ModelDirName(modelId)
      ensures r.Success? ==> (r.value.1 <==> ModelsDir + "/" + ModelDirName(modelId) !in existing)
      ensures r.Failure? <==> ModelsDir + "/" + ModelDirName(modelId) !in existing && fetch.FetchFailed?
    {
      var dir := Join(ModelsDir, ReplaceChar(modelId, '/', '_'));
      if dir in existing then Success((dir, false))
      else if fetch.Fetched? then Success((dir, true))
      else Failure(fetch.message)
    }
  }

  /** The module-level generate_video: a fresh wrapper on the distilled model, one
      text-to-video generation, then unload. An exception skips the unload and leaves
      the text-to-video pipeline loaded. */
  method QuickGenerateVideo(prompt: string, outputPath: Option<string>, width: int, height: int,
                            numFrames: int, seed: Option<int>, hw: Hardware,
                            pipe: (Pipeline, VideoCall) -> VideoRun)
    returns (r: Result<string, string>, ghost w: LTXVideoWrapper)
    ensures fresh(w) && w.modelId == DistilledModel && w.text2videoBuilds == 1 && w.img2video == None
    ensures var config := VideoConfig(prompt, "", width, height, numFrames, 50, 7.5, seed, 24, outputPath);
            var run := pipe(w.FreshPipeline(LtxText2Video), VideoCallFor(config, None));
            (run.Rendered? ==> r == Success(TextVideoPath(config)) && w.text2video == None) &&
            (run.Raised? ==> r == Failure(run.message) && w.text2video == Some(w.FreshPipeline(LtxText2Video)))
  {
    var wrapper := new LTXVideoWrapper(DistilledModel, None, None, true, hw);
    w := wrapper;
    var config := VideoConfig(prompt, "", width, height, numFrames, 50, 7.5, seed, 24, outputPath);
    r := wrapper.GenerateVideo(config, pipe);
    if r.Failure? {
      return;
    }
    wrapper.Unload();
  }
}
