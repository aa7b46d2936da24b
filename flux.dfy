/** The Flux.1 image wrapper: variant check, per-variant sampling rules, output
    file naming, the lazily loaded pipeline, and variations over consecutive seeds. */
module Flux {
  import opened Wrappers
  import opened PyStr
  import opened Runtime

  /** FLUX_MODELS: the two variants and the repositories they load. */
  const FluxModels: map<string, string> :=
    map["schnell" := "black-forest-labs/FLUX.1-schnell", "dev" := "black-forest-labs/FLUX.1-dev"]
  /** MODELS_DIR at its default, `./models/flux`. */
  const ModelsDir: string := "models/flux"
  /** The message of the IndexError raised by `output_paths[0]` on an empty list. */
  const IndexErrorMessage: string := "list index out of range"

  /** ImageGenerationConfig. */
  datatype ImageConfig = ImageConfig(
    prompt: string,
    negativePrompt: string,
    width: int,
    height: int,
    numInferenceSteps: int,
    guidanceScale: real,
    seed: Option<int>,
    outputPath: Option<string>,
    numImages: int)

  /** ImageGenerationConfig(prompt=...) with every other field at its default. */
  function DefaultConfig(prompt: string): ImageConfig {
    ImageConfig(prompt, "", 1024, 1024, 4, 0.0, None, None, 1)
  }

  /** The keyword arguments generate_variations forwards: every config field except
      the prompt, the seed and the output path, which it sets itself. */
  datatype ImageOptions = ImageOptions(
    negativePrompt: string,
    width: int,
    height: int,
    numInferenceSteps: int,
    guidanceScale: real,
    numImages: int)

  function UnknownVariantMessage(variant: string): string {
    "Unknown model variant: " + variant + ". Choose from: ['schnell', 'dev']"
  }

  /** The constructor's check: exactly the two known variants are accepted, each
      mapped to its repository; anything else raises ValueError. */
  function ResolveVariant(variant: string): (r: Result<string, string>)
    ensures r.Success? <==> variant == "schnell" || variant == "dev"
    ensures r.Success? ==> r.value == "black-forest-labs/FLUX.1-" + variant
    ensures r.Failure? ==> r.error == UnknownVariantMessage(variant)
  {
    if variant in FluxModels then Success(FluxModels[variant]) else Failure(UnknownVariantMessage(variant))
  }

  datatype Sampling = Sampling(steps: int, guidance: real)

  /** The per-variant adjustment in generate_image: schnell runs at most 4 steps and
      without guidance; dev runs at least 20 steps with guidance at least 3.5, and
      neither of dev's values is ever lowered. */
  function AdjustSampling(variant: string, steps: int, guidance: real): (s: Sampling)
    ensures variant == "schnell" ==>
              s.steps <= 4 && s.steps <= steps && (s.steps == steps || s.steps == 4) && s.guidance == 0.0
    ensures variant == "dev" ==>
              s.steps >= 20 && s.steps >= steps && (s.steps == steps || s.steps == 20) &&
              s.guidance >= 3.5 && s.guidance >= guidance && (s.guidance == guidance || s.guidance == 3.5)
    ensures variant != "schnell" && variant != "dev" ==> s == Sampling(steps, guidance)
  {
    if variant == "schnell" then
      Sampling(if steps < 4 then steps else 4, 0.0)
    else if variant == "dev" then
      Sampling(if steps > 20 then steps else 20, if guidance > 3.5 then guidance else 3.5)
    else
      Sampling(steps, guidance)
  }

  /** The arguments generate_image passes to the pipeline. The negative prompt is not
      among them: the Flux call drops it. A generator is seeded whenever a seed is
      given, 0 included. */
  datatype ImageCall = ImageCall(
    prompt: string,
    width: int,
    height: int,
    steps: int,
    guidance: real,
    generatorSeed: Option<int>,
    numImagesPerPrompt: int)

  /** What a pipeline call gives back: a number of images, or an exception. */
  datatype ImageRun = Produced(count: nat) | Raised(message: string)

  /** The shape generate_image returns: one path when one image was asked for, a list otherwise. */
  datatype ImageOutput = Single(path: string) | Many(paths: seq<string>)

  function CallFor(variant: string, config: ImageConfig): (c: ImageCall)
    ensures c.prompt == config.prompt && c.width == config.width && c.height == config.height
    ensures c.generatorSeed == config.seed && c.numImagesPerPrompt == config.numImages
    ensures Sampling(c.steps, c.guidance) == AdjustSampling(variant, config.numInferenceSteps, config.guidanceScale)
  {
    var s := AdjustSampling(variant, config.numInferenceSteps, config.guidanceScale);
    ImageCall(config.prompt, config.width, config.height, s.steps, s.guidance, config.seed, config.numImages)
  }

  /** The path of the only image: `output_path or f"output_{seed or 'random'}.png"`. */
  function SinglePath(config: ImageConfig): (p: string)
    ensures p != ""
    ensures config.outputPath.Some? && config.outputPath.value != "" ==> p == config.outputPath.value
    ensures config.outputPath.None? || config.outputPath.value == "" ==> p == "output_" + SeedLabel(config.seed) + ".png"
  {
    OrDefault(config.outputPath, "output_" + SeedLabel(config.seed) + ".png")
  }

  /** The base the numbered paths are made from: `output_path or f"output_{seed or 'random'}"`. */
  function MultiBase(config: ImageConfig): (b: string)
    ensures b != ""
    ensures config.outputPath.Some? && config.outputPath.value != "" ==> b == config.outputPath.value
    ensures config.outputPath.None? || config.outputPath.value == "" ==> b == "output_" + SeedLabel(config.seed)
  {
    OrDefault(config.outputPath, "output_" + SeedLabel(config.seed))
  }

  /** The i-th numbered path: the base's root, "_", the index, then the base's
      extension, or ".png" when it has none. */
  function IndexedPath(base: string, i: nat): (p: string)
    ensures var (root, ext) := SplitExt(base);
            HasPrefix(p, root + "_") &&
            p[|root| + 1..] == NatToString(i) + (if ext == "" then ".png" else ext)
  {
    var (root, ext) := SplitExt(base);
    var tail := NatToString(i) + (if ext == "" then ".png" else ext);
    var p := root + "_" + tail;
    assert p[..|root| + 1] == root + "_";
    assert p[|root| + 1..] == tail;
    p
  }

  /** The numbered path of a base whose extension is known. */
  lemma IndexedPathOfSplit(base: string, root: string, ext: string, i: nat)
    requires SplitExt(base) == (root, ext) && ext != ""
    ensures IndexedPath(base, i) == root + "_" + NatToString(i) + ext
  { }

  /** Two different indices never give the same numbered path. */
  lemma IndexedPathsDistinct(base: string, i: nat, j: nat)
    requires i != j
    ensures IndexedPath(base, i) != IndexedPath(base, j)
  {
    var (root, ext) := SplitExt(base);
    var e := if ext == "" then ".png" else ext;
    if IndexedPath(base, i) == IndexedPath(base, j) {
      var ti, tj := NatToString(i) + e, NatToString(j) + e;
      assert ti == tj;
      assert |NatToString(i)| == |NatToString(j)|;
      assert NatToString(i) == ti[..|NatToString(i)|];
      assert NatToString(j) == tj[..|NatToString(j)|];
      NatToStringInjective(i, j);
    }
  }

  /** The path saved for the i-th image of a call. */
  function ImagePath(config: ImageConfig, i: nat): (p: string)
    ensures config.numImages == 1 ==> p == SinglePath(config)
    ensures config.numImages != 1 ==> HasPrefix(p, SplitExt(MultiBase(config)).0 + "_")
  {
    if config.numImages == 1 then SinglePath(config) else IndexedPath(MultiBase(config), i)
  }

  /** The list `output_paths` after n images: one path per image, in index order. */
  function ImagePaths(config: ImageConfig, n: nat): (r: seq<string>)
    ensures |r| == n
    ensures forall k :: 0 <= k < n ==> r[k] == ImagePath(config, k)
  {
    if n == 0 then [] else ImagePaths(config, n - 1) + [ImagePath(config, n - 1)]
  }

  /** What generate_image returns for a pipeline run: the exception of the run, the
      single path (an IndexError when the run produced no image), or the list. */
  function ImageOutcome(config: ImageConfig, run: ImageRun): (r: Result<ImageOutput, string>)
    ensures run.Raised? ==> r == Failure(run.message)
    ensures run.Produced? && config.numImages == 1 ==>
              (r.Success? <==> run.count > 0) &&
              (r.Success? ==> r.value == Single(SinglePath(config))) &&
              (r.Failure? ==> r.error == IndexErrorMessage)
    ensures run.Produced? && config.numImages != 1 ==>
              r.Success? && r.value.Many? && |r.value.paths| == run.count &&
              forall k :: 0 <= k < run.count ==> r.value.paths[k] == IndexedPath(MultiBase(config), k)
  {
    if run.Raised? then Failure(run.message)
    else
      var paths := ImagePaths(config, run.count);
      if config.numImages == 1 then
        if |paths| == 0 then Failure(IndexErrorMessage) else Success(Single(paths[0]))
      else Success(Many(paths))
  }

  /** When several images are asked for, the returned paths are pairwise distinct. */
  lemma ManyPathsDistinct(config: ImageConfig, n: nat, i: nat, j: nat)
    requires config.numImages != 1
    requires i < n && j < n && i != j
    ensures var r := ImageOutcome(config, Produced(n));
            r.Success? && r.value.Many? && r.value.paths[i] != r.value.paths[j]
  {
    IndexedPathsDistinct(MultiBase(config), i, j);
  }

  /** Python truthiness in the default name: seed 0 names the file like no seed at
      all, while two different non-zero seeds never share a default name. */
  lemma DefaultNameBySeed(config: ImageConfig, s: int, t: int)
    requires config.outputPath.None? || config.outputPath.value == ""
    ensures SinglePath(config.(seed := Some(0))) == SinglePath(config.(seed := None)) == "output_random.png"
    ensures s != 0 && t != 0 && s != t ==>
              SinglePath(config.(seed := Some(s))) != SinglePath(config.(seed := Some(t)))
  {
    if s != 0 && t != 0 && s != t && SinglePath(config.(seed := Some(s))) == SinglePath(config.(seed := Some(t))) {
      var a, b := IntToString(s), IntToString(t);
      assert SeedLabel(Some(s)) == a && SeedLabel(Some(t)) == b;
      DefaultNameCancel(a, b);
      IntToStringInjective(s, t);
    }
  }

  /** output_<a>.png and output_<b>.png coincide only for a == b. */
  lemma DefaultNameCancel(a: string, b: string)
    requires "output_" + a + ".png" == "output_" + b + ".png"
    ensures a == b
  {
    assert a == ("output_" + a + ".png")[7..|a| + 7];
    assert b == ("output_" + b + ".png")[7..|b| + 7];
  }

  /** The config of the i-th variation: seed base_seed + i and path variation_<i>.png. */
  function VariationConfig(prompt: string, baseSeed: int, i: nat, opts: ImageOptions): (c: ImageConfig)
    ensures c.prompt == prompt && c.seed == Some(baseSeed + i)
    ensures c.negativePrompt == opts.negativePrompt && c.width == opts.width && c.height == opts.height
    ensures c.numInferenceSteps == opts.numInferenceSteps && c.guidanceScale == opts.guidanceScale
    ensures c.numImages == opts.numImages
    ensures SinglePath(c) == "variation_" + NatToString(i) + ".png"
  {
    ImageConfig(prompt, opts.negativePrompt, opts.width, opts.height, opts.numInferenceSteps,
                opts.guidanceScale, Some(baseSeed + i), Some("variation_" + NatToString(i) + ".png"), opts.numImages)
  }

  /** What the i-th generate_image call of generate_variations returns. */
  function VariationOutcome(variant: string, p: Pipeline, pipe: (Pipeline, ImageCall) -> ImageRun,
                            prompt: string, baseSeed: int, i: nat, opts: ImageOptions): Result<ImageOutput, string>
  {
    var config := VariationConfig(prompt, baseSeed, i, opts);
    ImageOutcome(config, pipe(p, CallFor(variant, config)))
  }

  /** Each of outs is what the variation of its index returns. */
  ghost predicate VariationsGive(variant: string, p: Pipeline, pipe: (Pipeline, ImageCall) -> ImageRun,
                                 prompt: string, baseSeed: int, opts: ImageOptions, outs: seq<ImageOutput>)
  {
    forall k :: 0 <= k < |outs| ==> VariationOutcome(variant, p, pipe, prompt, baseSeed, k, opts) == Success(outs[k])
  }

  /** The i-th variation fails with the message and every earlier one succeeds. */
  ghost predicate FailsFirstAt(variant: string, p: Pipeline, pipe: (Pipeline, ImageCall) -> ImageRun,
                         prompt: string, baseSeed: int, opts: ImageOptions, i: nat, message: string)
  {
    VariationOutcome(variant, p, pipe, prompt, baseSeed, i, opts) == Failure(message) &&
    forall j :: 0 <= j < i ==> VariationOutcome(variant, p, pipe, prompt, baseSeed, j, opts).Success?
  }

  /** call gives, for every index, what the variation of that index returns. */
  ghost predicate Tabulates(call: nat -> Result<ImageOutput, string>, variant: string, p: Pipeline,
                      pipe: (Pipeline, ImageCall) -> ImageRun, prompt: string, baseSeed: int, opts: ImageOptions)
  {
    forall k: nat {:trigger VariationOutcome(variant, p, pipe, prompt, baseSeed, k, opts)} ::
      call(k) == VariationOutcome(variant, p, pipe, prompt, baseSeed, k, opts)
  }

  /** The variation outcomes, as a function on indices. */
  lemma VariationCalls(variant: string, p: Pipeline, pipe: (Pipeline, ImageCall) -> ImageRun,
                       prompt: string, baseSeed: int, opts: ImageOptions)
    returns (call: nat -> Result<ImageOutput, string>)
    ensures Tabulates(call, variant, p, pipe, prompt, baseSeed, opts)
  {
    call := (k: nat) => VariationOutcome(variant, p, pipe, prompt, baseSeed, k, opts);
  }

  /** When the calls all succeeded, their outputs are the variations' outputs. */
  lemma SuccessesOfCalls(call: nat -> Result<ImageOutput, string>, variant: string, p: Pipeline,
                         pipe: (Pipeline, ImageCall) -> ImageRun, prompt: string, baseSeed: int,
                         opts: ImageOptions, outs: seq<ImageOutput>)
    requires Tabulates(call, variant, p, pipe, prompt, baseSeed, opts)
    requires forall k :: 0 <= k < |outs| ==> call(k) == Success(outs[k])
    ensures VariationsGive(variant, p, pipe, prompt, baseSeed, opts, outs)
  {
    forall k | 0 <= k < |outs|
      ensures VariationOutcome(variant, p, pipe, prompt, baseSeed, k, opts) == Success(outs[k])
    {
      assert VariationOutcome(variant, p, pipe, prompt, baseSeed, k, opts) == call(k);
    }
  }

  /** When the calls before i all succeeded and call i failed, variation i is the
      first to fail. */
  lemma FirstFailureOfCalls(call: nat -> Result<ImageOutput, string>, variant: string, p: Pipeline,
                            pipe: (Pipeline, ImageCall) -> ImageRun, prompt: string, baseSeed: int,
                            opts: ImageOptions, outs: seq<ImageOutput>, message: string)
    requires Tabulates(call, variant, p, pipe, prompt, baseSeed, opts)
    requires forall k :: 0 <= k < |outs| ==> call(k) == Success(outs[k])
    requires call(|outs|) == Failure(message)
    ensures FailsFirstAt(variant, p, pipe, prompt, baseSeed, opts, |outs|, message)
  {
    assert VariationOutcome(variant, p, pipe, prompt, baseSeed, |outs|, opts) == call(|outs|);
    forall j | 0 <= j < |outs|
      ensures VariationOutcome(variant, p, pipe, prompt, baseSeed, j, opts).Success?
    {
      assert VariationOutcome(variant, p, pipe, prompt, baseSeed, j, opts) == call(j);
    }
  }

  /** With one image per call, the i-th variation is seeded with base_seed + i and
      saved as variation_<i>.png, and no two variations share a file. */
  lemma VariationPaths(prompt: string, baseSeed: int, i: nat, j: nat, opts: ImageOptions, n: nat)
    requires opts.numImages == 1 && n > 0
    ensures VariationConfig(prompt, baseSeed, i, opts).seed == Some(baseSeed + i)
    ensures ImageOutcome(VariationConfig(prompt, baseSeed, i, opts), Produced(n)) ==
            Success(Single("variation_" + NatToString(i) + ".png"))
    ensures i != j ==> "variation_" + NatToString(i) + ".png" != "variation_" + NatToString(j) + ".png"
  {
    if i != j && "variation_" + NatToString(i) + ".png" == "variation_" + NatToString(j) + ".png" {
      var a, b := NatToString(i), NatToString(j);
      assert a == ("variation_" + a + ".png")[10..|a| + 10];
      assert b == ("variation_" + b + ".png")[10..|b| + 10];
      NatToStringInjective(i, j);
    }
  }

  /** What get_model_info reports. */
  datatype FluxInfo = FluxInfo(modelVariant: string, modelId: string, device: string, dtype: string, pipelineLoaded: bool)

  class FluxWrapper {
    const modelVariant: string
    const modelId: string
    const device: string
    const dtype: Dtype
    const enableCpuOffload: bool
    /** `_pipeline`: None until first use, None again after unload. */
    var pipeline: Option<Pipeline>
    /** How many times a pipeline has been built from the weights. */
    ghost var builds: nat

    /** The body of __init__ once the variant check has passed. */
    constructor (variant: string, requestedDevice: Option<string>, requestedDtype: Option<Dtype>,
                 enableModelCpuOffload: bool, hw: Hardware)
      requires variant in FluxModels
      ensures modelVariant == variant && modelId == FluxModels[variant]
      ensures device == ResolveDevice(requestedDevice, hw)
      ensures dtype == ResolveDtype(requestedDtype, device, hw)
      ensures enableCpuOffload == enableModelCpuOffload
      ensures pipeline == None && builds == 0
    {
      modelVariant := variant;
      modelId := FluxModels[variant];
      var d := ResolveDevice(requestedDevice, hw);
      device := d;
      dtype := ResolveDtype(requestedDtype, d, hw);
      enableCpuOffload := enableModelCpuOffload;
      pipeline := None;
      builds := 0;
    }

    /** FluxWrapper(...): raises for an unknown variant, otherwise a wrapper with nothing loaded. */
    static method Create(variant: string, requestedDevice: Option<string>, requestedDtype: Option<Dtype>,
                         enableModelCpuOffload: bool, hw: Hardware) returns (r: Result<FluxWrapper, string>)
      ensures r.Failure? <==> ResolveVariant(variant).Failure?
      ensures r.Failure? ==> r.error == UnknownVariantMessage(variant)
      ensures r.Success? ==>
                fresh(r.value) && r.value.modelVariant == variant && r.value.modelId == ResolveVariant(variant).value &&
                r.value.device == ResolveDevice(requestedDevice, hw) &&
                r.value.dtype == ResolveDtype(requestedDtype, r.value.device, hw) &&
                r.value.enableCpuOffload == enableModelCpuOffload &&
                r.value.pipeline == None && r.value.builds == 0
    {
      if variant !in FluxModels {
        return Failure(UnknownVariantMessage(variant));
      }
      var w := new FluxWrapper(variant, requestedDevice, requestedDtype, enableModelCpuOffload, hw);
      r := Success(w);
    }

    /** The pipeline _load_pipeline builds: the repository at the wrapper's precision,
        offloaded or moved to the device. */
    function FreshPipeline(): (p: Pipeline)
      ensures p.repoId == modelId && p.dtype == dtype
      ensures p.placement == CpuOffload <==> enableCpuOffload && device == "cuda"
    {
      Pipeline(FluxText2Image, modelId, dtype, ChoosePlacement(enableCpuOffload, device))
    }

    /** _load_pipeline: builds the pipeline only when none is loaded, else reuses it. */
    method LoadPipeline() returns (p: Pipeline)
      modifies this
      ensures pipeline == Some(p)
      ensures old(pipeline).Some? ==> p == old(pipeline).value && builds == old(builds)
      ensures old(pipeline).None? ==> p == FreshPipeline() && builds == old(builds) + 1
    {
      if pipeline.None? {
        pipeline := Some(FreshPipeline());
        builds := builds + 1;
      }
      p := pipeline.value;
    }

    /** The loop of generate_image that names the produced images, one path per index. */
    static method CollectPaths(config: ImageConfig, count: nat) returns (outputPaths: seq<string>)
      ensures outputPaths == ImagePaths(config, count)
    {
      outputPaths := [];
      var i := 0;
      while i < count
        invariant 0 <= i <= count
        invariant outputPaths == ImagePaths(config, i)
      {
        var path;
        if config.numImages == 1 {
          path := SinglePath(config);
        } else {
          var base := MultiBase(config);
          path := IndexedPath(base, i);
        }
        assert path == ImagePath(config, i);
        outputPaths := outputPaths + [path];
        i := i + 1;
      }
    }

    /** generate_image: loads the pipeline, runs it with the adjusted sampling, and
        names one output path per produced image. */
    method GenerateImage(config: ImageConfig, pipe: (Pipeline, ImageCall) -> ImageRun)
      returns (r: Result<ImageOutput, string>)
      modifies this
      ensures pipeline == (if old(pipeline).Some? then old(pipeline) else Some(FreshPipeline()))
      ensures builds == old(builds) + (if old(pipeline).None? then 1 else 0)
      ensures r == ImageOutcome(config, pipe(pipeline.value, CallFor(modelVariant, config)))
    {
      var p := LoadPipeline();
      var s := AdjustSampling(modelVariant, config.numInferenceSteps, config.guidanceScale);
      var call := ImageCall(config.prompt, config.width, config.height, s.steps, s.guidance,
                            config.seed, config.numImages);
      var run := pipe(p, call);
      if run.Raised? {
        return Failure(run.message);
      }
      var outputPaths := CollectPaths(config, run.count);
      if config.numImages == 1 {
        if |outputPaths| == 0 {
          r := Failure(IndexErrorMessage);
        } else {
          r := Success(Single(outputPaths[0]));
        }
      } else {
        r := Success(Many(outputPaths));
      }
    }

    /** The i-th generate_image call of generate_variations: seed base_seed + i,
        output path variation_<i>.png. */
    method GenerateVariation(prompt: string, baseSeed: int, i: nat, opts: ImageOptions,
                             pipe: (Pipeline, ImageCall) -> ImageRun, ghost call: nat -> Result<ImageOutput, string>)
      returns (r: Result<ImageOutput, string>)
      requires Tabulates(call, modelVariant, if pipeline.Some? then pipeline.value else FreshPipeline(),
                         pipe, prompt, baseSeed, opts)
      modifies this
      ensures pipeline == (if old(pipeline).Some? then old(pipeline) else Some(FreshPipeline()))
      ensures builds == old(builds) + (if old(pipeline).None? then 1 else 0)
      ensures r == call(i)
    {
      r := GenerateImage(VariationConfig(prompt, baseSeed, i, opts), pipe);
      assert r == VariationOutcome(modelVariant, pipeline.value, pipe, prompt, baseSeed, i, opts);
    }

    /** generate_variations: one generate_image call per index, in order; the first
        exception ends the loop and propagates. */
    method GenerateVariations(prompt: string, numVariations: int, baseSeed: int, opts: ImageOptions,
                              pipe: (Pipeline, ImageCall) -> ImageRun)
      returns (r: Result<seq<ImageOutput>, string>)
      modifies this
      ensures numVariations <= 0 ==> r == Success([]) && pipeline == old(pipeline) && builds == old(builds)
      ensures numVariations > 0 ==>
                pipeline == (if old(pipeline).Some? then old(pipeline) else Some(FreshPipeline())) &&
                builds == old(builds) + (if old(pipeline).None? then 1 else 0)
      ensures r.Success? ==>
                |r.value| == (if numVariations < 0 then 0 else numVariations) &&
                (numVariations > 0 ==> VariationsGive(modelVariant, pipeline.value, pipe, prompt, baseSeed, opts, r.value))
      ensures r.Failure? ==>
                exists i :: 0 <= i < numVariations &&
                  FailsFirstAt(modelVariant, pipeline.value, pipe, prompt, baseSeed, opts, i, r.error)
    {
      ghost var loaded := if pipeline.Some? then pipeline.value else FreshPipeline();
      ghost var call := VariationCalls(modelVariant, loaded, pipe, prompt, baseSeed, opts);
      var outputPaths: seq<ImageOutput> := [];
      var i := 0;
      while i < numVariations
        invariant 0 <= i
        invariant numVariations > 0 ==> i <= numVariations
        invariant numVariations <= 0 ==> i == 0
        invariant i == 0 ==> pipeline == old(pipeline) && builds == old(builds)
        invariant i > 0 ==>
                    pipeline == (if old(pipeline).Some? then old(pipeline) else Some(FreshPipeline())) &&
                    builds == old(builds) + (if old(pipeline).None? then 1 else 0)
        invariant i > 0 ==> pipeline == Some(loaded)
        invariant |outputPaths| == i
        invariant forall k :: 0 <= k < i ==> call(k) == Success(outputPaths[k])
      {
        var out := GenerateVariation(prompt, baseSeed, i, opts, pipe, call);
        if out.Failure? {
          FirstFailureOfCalls(call, modelVariant, loaded, pipe, prompt, baseSeed, opts, outputPaths, out.error);
          return Failure(out.error);
        }
        outputPaths := outputPaths + [out.value];
        i := i + 1;
      }
      SuccessesOfCalls(call, modelVariant, loaded, pipe, prompt, baseSeed, opts, outputPaths);
      r := Success(outputPaths);
    }

    /** unload: drops the pipeline, so the next use builds it again. */
    method Unload()
      modifies this
      ensures pipeline == None && builds == old(builds)
    {
      pipeline := None;
    }

    /** get_model_info: the constant settings and whether a pipeline is loaded. */
    function GetModelInfo(): (info: FluxInfo)
      reads this
      ensures info.pipelineLoaded <==> pipeline.Some?
      ensures info.modelVariant == modelVariant && info.modelId == modelId && info.device == device
      ensures info.dtype == DtypeName(dtype)
    {
      FluxInfo(modelVariant, modelId, device, DtypeName(dtype), pipeline.Some?)
    }

    /** ensure_model_downloaded: the weights live in MODELS_DIR/<variant>; the download
        runs only when that directory is absent, and its failure propagates. The
        result is the directory and whether a download ran. */
    function EnsureModelDownloaded(existing: set<string>, fetch: FetchOutcome): (r: Result<(string, bool), string>)
      ensures r.Success? ==> r.value.0 == ModelsDir + "/" + modelVariant
      ensures r.Success? ==> (r.value.1 <==> ModelsDir + "/" + modelVariant !in existing)
      ensures r.Failure? <==> ModelsDir + "/" + modelVariant !in existing && fetch.FetchFailed?
    {
      var dir := Join(ModelsDir, modelVariant);
      if dir in existing then Success((dir, false))
      else if fetch.Fetched? then Success((dir, true))
      else Failure(fetch.message)
    }
  }

  /** The module-level generate_image: a fresh wrapper, one image, then unload. An
      exception from the call skips the unload and leaves the pipeline loaded. */
  method QuickGenerateImage(prompt: string, outputPath: Option<string>, width: int, height: int,
                            model: string, seed: Option<int>, hw: Hardware,
                            pipe: (Pipeline, ImageCall) -> ImageRun)
    returns (r: Result<ImageOutput, string>, ghost w: FluxWrapper?)
    ensures ResolveVariant(model).Failure? ==> r == Failure(UnknownVariantMessage(model)) && w == null
    ensures ResolveVariant(model).Success? ==>
              w != null && fresh(w) && w.modelVariant == model && w.builds == 1 &&
              r == ImageOutcome(ImageConfig(prompt, "", width, height, 4, 0.0, seed, outputPath, 1),
                                pipe(w.FreshPipeline(), CallFor(model, ImageConfig(prompt, "", width, height, 4, 0.0, seed, outputPath, 1)))) &&
              (r.Success? <==> w.pipeline.None?)
  {
    var created := FluxWrapper.Create(model, None, None, true, hw);
    if created.Failure? {
      return Failure(created.error), null;
    }
    var wrapper := created.value;
    w := wrapper;
    var config := ImageConfig(prompt, "", width, height, 4, 0.0, seed, outputPath, 1);
    r := wrapper.GenerateImage(config, pipe);
    if r.Failure? {
      return;
    }
    wrapper.Unload();
  }
}
