/** What the wrappers see of torch and diffusers: the hardware probes, the tensor
    precision, where a loaded pipeline lives, and the pipeline handle itself. Both
    wrappers carry the same device and precision rules; they are stated once here. */
module Runtime {
  import opened Wrappers

  /** The answers of torch.cuda.is_available(), torch.backends.mps.is_available()
      and torch.cuda.is_bf16_supported(). */
  datatype Hardware = Hardware(cudaAvailable: bool, mpsAvailable: bool, bf16Supported: bool)

  datatype Dtype = BFloat16 | Float16 | Float32

  /** str() of the torch dtype, as get_model_info reports it. */
  function DtypeName(t: Dtype): string {
    match t
    case BFloat16 => "torch.bfloat16"
    case Float16 => "torch.float16"
    case Float32 => "torch.float32"
  }

  /** A pipeline either keeps its weights on the CPU and moves them to the GPU per
      use (enable_model_cpu_offload) or is moved to one device with `.to`. */
  datatype Placement = CpuOffload | OnDevice(device: string)

  datatype PipelineKind = FluxText2Image | LtxText2Video | LtxImage2Video

  /** An opaque pipeline handle: what it was loaded from, at which precision, and where it lives. */
  datatype Pipeline = Pipeline(kind: PipelineKind, repoId: string, dtype: Dtype, placement: Placement)

  /** The outcome of a snapshot_download call: it succeeds or raises with a message. */
  datatype FetchOutcome = Fetched | FetchFailed(message: string)

  /** _detect_device: CUDA before Apple MPS before the CPU. */
  function DetectDevice(hw: Hardware): (d: string)
    ensures d == "cuda" <==> hw.cudaAvailable
    ensures d == "mps" <==> !hw.cudaAvailable && hw.mpsAvailable
    ensures d == "cpu" <==> !hw.cudaAvailable && !hw.mpsAvailable
  {
    if hw.cudaAvailable then "cuda"
    else if hw.mpsAvailable then "mps"
    else "cpu"
  }

  /** _get_optimal_dtype: bfloat16 on CUDA that supports it, float16 on other CUDA and
      on MPS, float32 on anything else (including device strings such as "cuda:1"). */
  function OptimalDtype(device: string, hw: Hardware): (t: Dtype)
    ensures t == BFloat16 <==> device == "cuda" && hw.bf16Supported
    ensures t == Float16 <==> (device == "cuda" && !hw.bf16Supported) || device == "mps"
    ensures t == Float32 <==> device != "cuda" && device != "mps"
  {
    if device == "cuda" then (if hw.bf16Supported then BFloat16 else Float16)
    else if device == "mps" then Float16
    else Float32
  }

  /** `device or self._detect_device()`: a missing or empty device string means "detect". */
  function ResolveDevice(requested: Option<string>, hw: Hardware): (d: string)
    ensures requested.Some? && requested.value != "" ==> d == requested.value
    ensures requested.None? || requested.value == "" ==> d == DetectDevice(hw)
    ensures d != ""
  {
    if requested.Some? && requested.value != "" then requested.value else DetectDevice(hw)
  }

  /** `dtype or self._get_optimal_dtype()`: every torch dtype is truthy, so only None falls back. */
  function ResolveDtype(requested: Option<Dtype>, device: string, hw: Hardware): (t: Dtype)
    ensures requested.Some? ==> t == requested.value
    ensures requested.None? ==> t == OptimalDtype(device, hw)
  {
    if requested.Some? then requested.value else OptimalDtype(device, hw)
  }

  /** The offload test of the loaders: offload exactly when it is enabled and the
      device is the string "cuda"; otherwise the pipeline moves to the device. */
  function ChoosePlacement(enableCpuOffload: bool, device: string): (p: Placement)
    ensures p == CpuOffload <==> enableCpuOffload && device == "cuda"
    ensures p.OnDevice? ==> p.device == device
  {
    if enableCpuOffload && device == "cuda" then CpuOffload else OnDevice(device)
  }

  /** A detected device always gets a precision the device supports: never float32
      on a GPU, never bfloat16 without hardware support. */
  lemma DetectedPrecision(hw: Hardware)
    ensures var t := OptimalDtype(DetectDevice(hw), hw);
            (t == Float32 <==> !hw.cudaAvailable && !hw.mpsAvailable) &&
            (t == BFloat16 ==> hw.cudaAvailable && hw.bf16Supported)
  {
  }
}
