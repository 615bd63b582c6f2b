/** The generation settings record, the path joining it relies on, and the
    choice and description of the compute device (config.py). */
module Config {
  import opened Strings

  /** The settings of one run. The guidance scale and the tensor precision
      are floating-point and framework values and are not modelled. */
  datatype GenerationConfig = GenerationConfig(
    modelName: string,
    numInferenceSteps: int,
    enableAttentionSlicing: bool,
    inputDir: string,
    outputDir: string,
    resourcesDir: string,
    originalImageName: string,
    mainCoverOutput: string,
    generatedCoverOutput: string,
    pipelineScreenshotOutput: string,
    reportOutput: string)

  /** The dataclass defaults. */
  function DefaultConfig(): (c: GenerationConfig)
    ensures c.modelName == "runwayml/stable-diffusion-v1-5"
    ensures c.numInferenceSteps == 30
    ensures c.enableAttentionSlicing
    ensures InputPath(c) == "input/main.jpg"
    ensures OutputNamesDistinct(c)
  {
    GenerationConfig(
      "runwayml/stable-diffusion-v1-5", 30, true,
      "input", "output", "resources", "main.jpg",
      "main_cover.jpg", "generated_album_cover.jpg",
      "pipeline_screenshot.jpg", "report.md")
  }

  /** No two of the four output files share a name, so no output
      overwrites another. */
  predicate OutputNamesDistinct(c: GenerationConfig)
  {
    var names := OutputNames(c);
    forall i, j :: 0 <= i < j < |names| ==> names[i] != names[j]
  }

  /** The four output file names: original copy, generated cover,
      screenshot, report. */
  function OutputNames(c: GenerationConfig): seq<string>
  {
    [c.mainCoverOutput, c.generatedCoverOutput,
     c.pipelineScreenshotOutput, c.reportOutput]
  }

  /** POSIX `os.path.join(a, b)` for two components: an absolute `b`
      discards `a`; otherwise one `/` is inserted unless `a` is empty or
      already ends in `/`. */
  function PathJoin(a: string, b: string): (p: string)
    ensures (b != [] && b[0] == '/') ==> p == b
    ensures (b == [] || b[0] != '/') ==> |a| + |b| <= |p| <= |a| + 1 + |b|
  {
    if b != [] && b[0] == '/' then b
    else if a == [] || a[|a| - 1] == '/' then a + b
    else a + "/" + b
  }

  /** The joined path ends with `b`; a relative `b` keeps `a` in front, an
      absolute one replaces it. */
  lemma PathJoinShape(a: string, b: string)
    ensures |PathJoin(a, b)| >= |b| && PathJoin(a, b)[|PathJoin(a, b)| - |b|..] == b
    ensures (b == [] || b[0] != '/') ==> |PathJoin(a, b)| >= |a| && PathJoin(a, b)[..|a|] == a
    ensures (b != [] && b[0] == '/') ==> PathJoin(a, b) == b
  {
  }

  /** For a relative `b` the joined path is one character longer than its
      parts exactly when `a` is non-empty and does not end in `/`, and that
      character, between the two, is `/`. */
  lemma PathJoinSeparator(a: string, b: string)
    requires b == [] || b[0] != '/'
    ensures |PathJoin(a, b)| == |a| + 1 + |b| <==> a != [] && a[|a| - 1] != '/'
    ensures |PathJoin(a, b)| == |a| + 1 + |b| ==> PathJoin(a, b)[|a|] == '/'
  {
  }

  /** Where the original cover is read from. */
  function InputPath(c: GenerationConfig): (path: string)
    ensures EndsWith(path, c.originalImageName)
  {
    PathJoin(c.inputDir, c.originalImageName)
  }

  /** The paths the original copy, the generated cover, the screenshot
      and the report are written to, in that order. */
  function OutputPaths(c: GenerationConfig): (paths: seq<string>)
    ensures |paths| == |OutputNames(c)|
  {
    var names := OutputNames(c);
    seq(|names|, i requires 0 <= i < |names| => PathJoin(c.outputDir, names[i]))
  }

  /** Relative output names that differ give output paths that differ:
      with the defaults the four files land in four distinct places. */
  lemma DistinctRelativeNamesGiveDistinctPaths(c: GenerationConfig)
    requires OutputNamesDistinct(c)
    requires forall i :: 0 <= i < |OutputNames(c)| ==> IsRelative(OutputNames(c)[i])
    ensures forall i, j :: 0 <= i < j < |OutputPaths(c)| ==> OutputPaths(c)[i] != OutputPaths(c)[j]
  {
    var names := OutputNames(c);
    var paths := OutputPaths(c);
    forall i, j | 0 <= i < j < |paths|
      ensures paths[i] != paths[j]
    {
      if paths[i] == paths[j] {
        RelativeJoinInjective(c.outputDir, names[i], names[j]);
      }
    }
  }

  /** Where the defaults put the four outputs: each file under `output/`. */
  lemma DefaultOutputPaths()
    ensures OutputPaths(DefaultConfig()) == ["output" + "/" + "main_cover.jpg",
                                             "output" + "/" + "generated_album_cover.jpg",
                                             "output" + "/" + "pipeline_screenshot.jpg",
                                             "output" + "/" + "report.md"]
  {
    var paths := OutputPaths(DefaultConfig());
    assert paths[0] == "output" + "/" + "main_cover.jpg";
    assert paths[1] == "output" + "/" + "generated_album_cover.jpg";
    assert paths[2] == "output" + "/" + "pipeline_screenshot.jpg";
    assert paths[3] == "output" + "/" + "report.md";
  }

  /** Every output path ends with its configured file name. */
  lemma OutputPathsEndWithNames(c: GenerationConfig)
    ensures forall i :: 0 <= i < |OutputPaths(c)| ==> EndsWith(OutputPaths(c)[i], OutputNames(c)[i])
  {
    forall i | 0 <= i < |OutputPaths(c)|
      ensures EndsWith(OutputPaths(c)[i], OutputNames(c)[i])
    {
      PathJoinShape(c.outputDir, OutputNames(c)[i]);
    }
  }

  /** With the defaults the four outputs go to four different files. */
  lemma DefaultOutputPathsDistinct()
    ensures forall i, j :: 0 <= i < j < 4 ==> OutputPaths(DefaultConfig())[i] != OutputPaths(DefaultConfig())[j]
  {
    var c := DefaultConfig();
    var names := OutputNames(c);
    forall i | 0 <= i < |names|
      ensures IsRelative(names[i])
    {
      assert names[i][0] != '/';
    }
    DistinctRelativeNamesGiveDistinctPaths(c);
  }

  /** A non-empty path component that does not start at the root. */
  predicate IsRelative(name: string)
  {
    name != [] && name[0] != '/'
  }

  /** Under one directory, distinct relative names give distinct paths. */
  lemma RelativeJoinInjective(dir: string, a: string, b: string)
    requires IsRelative(a) && IsRelative(b)
    requires PathJoin(dir, a) == PathJoin(dir, b)
    ensures a == b
  {
    var prefix := if dir == [] || dir[|dir| - 1] == '/' then dir else dir + "/";
    assert PathJoin(dir, a) == prefix + a;
    assert PathJoin(dir, b) == prefix + b;
    assert a == (prefix + a)[|prefix|..];
  }

  // ---------------------------------------------------------------------
  // Device selection

  /** The three compute backends: the Apple unified-memory accelerator,
      a discrete GPU, and the always-present CPU. */
  datatype DeviceType = Mps | Cuda | Cpu

  /** `torch.device(...).type`. */
  function TypeName(d: DeviceType): string
  {
    match d
    case Mps => "mps"
    case Cuda => "cuda"
    case Cpu => "cpu"
  }

  /** The fixed preference order, best first. */
  const PriorityOrder: seq<DeviceType> := [Mps, Cuda, Cpu]

  /** Position of a device in the preference order. */
  function Rank(d: DeviceType): (r: nat)
    ensures r < |PriorityOrder| && PriorityOrder[r] == d
  {
    match d
    case Mps => 0
    case Cuda => 1
    case Cpu => 2
  }

  /** Whether the runtime offers `d`, given its two capability flags. */
  predicate Available(d: DeviceType, mpsAvailable: bool, cudaAvailable: bool)
  {
    match d
    case Mps => mpsAvailable
    case Cuda => cudaAvailable
    case Cpu => true
  }

  /** `DeviceManager.get_optimal_device`: the most preferred available
      device. It never fails, since the CPU is always available. */
  function OptimalDevice(mpsAvailable: bool, cudaAvailable: bool): (d: DeviceType)
    ensures Available(d, mpsAvailable, cudaAvailable)
    ensures forall e :: Available(e, mpsAvailable, cudaAvailable) ==> Rank(d) <= Rank(e)
  {
    if mpsAvailable then Mps
    else if cudaAvailable then Cuda
    else Cpu
  }

  /** The descriptive record of the selected device. */
  datatype DeviceInfo = DeviceInfo(kind: string, name: string, memory: string)

  /** What the GPU runtime reports about a discrete GPU: its name and its
      formatted memory size (both produced outside this program). */
  datatype CudaProperties = CudaProperties(name: string, memory: string)

  /** `DeviceManager.get_device_info`. */
  function GetDeviceInfo(d: DeviceType, cuda: CudaProperties): (info: DeviceInfo)
    ensures info.kind == TypeName(d)
    ensures d == Mps ==> info.name == "Apple Silicon" && info.memory == "Shared system memory"
    ensures d == Cpu ==> info.name == "CPU" && info.memory == "System RAM"
    ensures d == Cuda ==> info.name == cuda.name && info.memory == cuda.memory
  {
    var kind := TypeName(d);
    if kind == "cuda" then DeviceInfo(kind, cuda.name, cuda.memory)
    else if kind == "mps" then DeviceInfo(kind, "Apple Silicon", "Shared system memory")
    else DeviceInfo(kind, "CPU", "System RAM")
  }

  /** The info record names the device it describes: distinct devices
      never share an info record. */
  lemma InfoIdentifiesDevice(d1: DeviceType, d2: DeviceType, c1: CudaProperties, c2: CudaProperties)
    requires GetDeviceInfo(d1, c1) == GetDeviceInfo(d2, c2)
    ensures d1 == d2
  {
    assert TypeName(d1) == GetDeviceInfo(d1, c1).kind;
  }

  /** The device record a generator computes once at construction. */
  function SelectDevice(mpsAvailable: bool, cudaAvailable: bool, cuda: CudaProperties): (info: DeviceInfo)
    ensures info.kind == "mps" <==> mpsAvailable
    ensures info.kind == "cuda" <==> !mpsAvailable && cudaAvailable
    ensures info.kind == "cpu" <==> !mpsAvailable && !cudaAvailable
  {
    GetDeviceInfo(OptimalDevice(mpsAvailable, cudaAvailable), cuda)
  }
}
