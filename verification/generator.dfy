/** The orchestrator (main.py, `VinylCoverGenerator.generate_cover`): which
    prompt is used, the fixed order of the steps, and the success and
    failure records. File and model calls are abstract outcomes supplied by
    an `Environment`; wall-clock timing is not modelled. */
module Generator {
  import opened Wrappers
  import opened Config
  import opened Strings
  import opened Prompts
  import opened Images

  /** The arguments of one `generate_cover` call. */
  datatype Request = Request(prompt: Option<string>, style: Style, customElements: Option<seq<string>>)

  /** `generate_cover()` with every argument left at its default. */
  const DefaultRequest: Request := Request(None, Fantasy, None)

  /** The subject used when only a style and extra elements are given. */
  const DesignSubject: string := "an album cover design"

  /** The prompt handed to the model: an explicit prompt verbatim (even an
      empty one, as only `None` counts as absent); otherwise, when extra
      elements are given and non-empty, a prompt in the requested style;
      otherwise the default prompt, whatever the style. */
  function ResolvePrompt(req: Request): (prompt: string)
    ensures req.prompt.Some? ==> prompt == req.prompt.value
    ensures req.prompt.None? && Extras(req.customElements) != [] ==>
              prompt == CreatePrompt(DesignSubject, req.style, req.customElements) &&
              StyleOf(prompt) == Some(req.style)
    ensures req.prompt.None? && Extras(req.customElements) == [] ==>
              prompt == DefaultPrompt() && StyleOf(prompt) == Some(Fantasy)
  {
    match req.prompt
    case Some(p) => p
    case None =>
      if req.customElements.Some? && |req.customElements.value| > 0 then
        StyleOfCreatePrompt(DesignSubject, req.style, req.customElements);
        CreatePrompt(DesignSubject, req.style, req.customElements)
      else
        DefaultPrompt()
  }

  /** An explicit prompt is used verbatim, even an empty one. */
  lemma ExplicitPromptVerbatim(req: Request)
    requires req.prompt.Some?
    ensures ResolvePrompt(req) == req.prompt.value
  {
  }

  /** Without an explicit prompt but with extra elements, the prompt is the
      design prompt built in the requested style, and reads back as it. */
  lemma DesignPromptInStyle(req: Request)
    requires req.prompt.None? && Extras(req.customElements) != []
    ensures StyleOf(ResolvePrompt(req)) == Some(req.style)
    ensures ResolvePrompt(req) ==
              Join([Header(DesignSubject, req.style)]
                           + (TemplateOf(req.style).elements + Extras(req.customElements))
                           + [TemplateOf(req.style).lighting, TemplateOf(req.style).quality], ", ")
  {
    StyleOfCreatePrompt(DesignSubject, req.style, req.customElements);
  }

  /** Without an explicit prompt and without extra elements, the default
      prompt is used; it is in the fantasy style whatever style was asked. */
  lemma DefaultPromptUsed(req: Request)
    requires req.prompt.None? && Extras(req.customElements) == []
    ensures ResolvePrompt(req) == DefaultPrompt()
    ensures StyleOf(ResolvePrompt(req)) == Some(Fantasy)
  {
  }

  /** The steps of one run, in the order they are attempted. */
  datatype Step =
    | Load            // read the original cover
    | Normalise       // round its size down to multiples of 8
    | SaveOriginal    // write the copy of the original
    | Resolve         // choose the prompt
    | InitPipeline    // load and warm up the model
    | Generate        // run the model once
    | SaveGenerated   // write the generated cover
    | Screenshot      // draw the configuration summary
    | Report          // write the markdown report

  const StepOrder: seq<Step> :=
    [Load, Normalise, SaveOriginal, Resolve, InitPipeline, Generate, SaveGenerated, Screenshot, Report]

  /** What the outside world does when asked: the files on disk, whether
      loading the model fails (and with what message), whether the model
      call fails for a given prompt and size, and which output paths cannot
      be written. */
  datatype Environment = Environment(
    disk: Disk,
    pipelineError: Option<string>,
    generateError: (string, nat, nat) -> Option<string>,
    unwritable: map<string, string>)

  /** The record `generate_cover` returns. A failure carries only the
      error text: no output paths, prompt or device. */
  datatype GenerationResult =
    | Generated(originalPath: string, generatedPath: string, screenshotPath: string,
                reportPath: string, prompt: string, deviceInfo: DeviceInfo)
    | Failed(error: string)

  /** A result together with the steps that were attempted. */
  datatype Run = Run(result: GenerationResult, trace: seq<Step>)

  /** Writing to `path` raises, or not. */
  function WriteError(env: Environment, path: string): Option<string>
  {
    if path in env.unwritable then Some(env.unwritable[path]) else None
  }

  /** Reference semantics of the steps: the error each one raises when it
      is reached, in step order, given the outcome of loading the original
      and of the model call. Normalising and choosing the prompt never
      raise. */
  function StepErrorsWith(config: GenerationConfig, env: Environment,
                          load: Option<string>, generate: Option<string>): (errors: seq<Option<string>>)
    ensures |errors| == |StepOrder|
  {
    var paths := OutputPaths(config);
    [load, None, WriteError(env, paths[0]), None, env.pipelineError, generate,
     WriteError(env, paths[1]), WriteError(env, paths[2]), WriteError(env, paths[3])]
  }

  /** The step errors of one request, computed from the request and the
      environment alone; without a loaded image the model call has no
      input and is listed as not raising. */
  function StepErrors(config: GenerationConfig, env: Environment, req: Request): (errors: seq<Option<string>>)
    ensures |errors| == |StepOrder|
  {
    match LoadOriginalImage(config, env.disk)
    case Failure(e) => StepErrorsWith(config, env, Some(e.message), None)
    case Success(image) =>
      var dims := PrepareDimensions(image);
      StepErrorsWith(config, env, None, env.generateError(ResolvePrompt(req), dims.0, dims.1))
  }

  /** Entry `k` is the first present error of the list. */
  predicate FirstErrorAt(errors: seq<Option<string>>, k: nat)
  {
    k < |errors| && errors[k].Some? && forall j :: 0 <= j < k ==> errors[j].None?
  }

  /** No entry of the list is an error. */
  predicate NoError(errors: seq<Option<string>>)
  {
    forall j :: 0 <= j < |errors| ==> errors[j].None?
  }

  /** `run` ended at the first error of `errors`, carrying its message,
      and succeeded exactly when there was none. */
  predicate StopsAtFirstError(run: Run, errors: seq<Option<string>>)
  {
    1 <= |run.trace| <= |errors| &&
    match run.result
    case Failed(error) =>
      FirstErrorAt(errors, |run.trace| - 1) && errors[|run.trace| - 1] == Some(error)
    case Generated(_, _, _, _, _, _) => NoError(errors)
  }

  /** A run that stopped at the `k`-th step with `error`. */
  function Stop(k: nat, error: string): (run: Run)
    requires 0 < k <= |StepOrder|
    ensures run.result.Failed? && |run.trace| == k && run.trace == StepOrder[..k]
  {
    Run(Failed(error), StepOrder[..k])
  }

  /** `VinylCoverGenerator.generate_cover`. A success record names the four
      configured output paths, the prompt used and the device; a failure
      record carries only the error text. */
  function GenerateCover(config: GenerationConfig, device: DeviceInfo, env: Environment, req: Request): (run: Run)
    ensures 0 < |run.trace| <= |StepOrder| && run.trace == StepOrder[..|run.trace|]
    ensures run.result.Generated? ==>
              run.trace == StepOrder &&
              [run.result.originalPath, run.result.generatedPath,
               run.result.screenshotPath, run.result.reportPath] == OutputPaths(config) &&
              run.result.prompt == ResolvePrompt(req) && run.result.deviceInfo == device
  {
    match LoadOriginalImage(config, env.disk)
    case Failure(e) => Stop(1, e.message)
    case Success(image) =>
      var (width, height) := PrepareDimensions(image);
      AfterLoad(config, device, env, width, height, ResolvePrompt(req))
  }

  /** The steps after a successful load of an image normalised to
      `width` x `height`, with `prompt` the prompt the request resolves to. */
  function AfterLoad(config: GenerationConfig, device: DeviceInfo, env: Environment,
                     width: nat, height: nat, prompt: string): (run: Run)
    ensures 2 < |run.trace| <= |StepOrder| && run.trace == StepOrder[..|run.trace|]
    ensures run.result.Generated? ==>
              run.trace == StepOrder &&
              [run.result.originalPath, run.result.generatedPath,
               run.result.screenshotPath, run.result.reportPath] == OutputPaths(config) &&
              run.result.prompt == prompt && run.result.deviceInfo == device
  {
    var paths := OutputPaths(config);
    if paths[0] in env.unwritable then Stop(3, env.unwritable[paths[0]])
    else if env.pipelineError.Some? then Stop(5, env.pipelineError.value)
    else if env.generateError(prompt, width, height).Some? then
      Stop(6, env.generateError(prompt, width, height).value)
    else if paths[1] in env.unwritable then Stop(7, env.unwritable[paths[1]])
    else if paths[2] in env.unwritable then Stop(8, env.unwritable[paths[2]])
    else if paths[3] in env.unwritable then Stop(9, env.unwritable[paths[3]])
    else Run(Generated(paths[0], paths[1], paths[2], paths[3], prompt, device), StepOrder)
  }

  /** Every run ends at the first step whose reference error is present,
      with that error's text, and succeeds exactly when no step fails. */
  lemma {:induction false} RunStopsAtFirstFailure(config: GenerationConfig, device: DeviceInfo, env: Environment, req: Request)
    ensures StopsAtFirstError(GenerateCover(config, device, env, req), StepErrors(config, env, req))
  {
    match LoadOriginalImage(config, env.disk)
    case Failure(e) =>
      StopIsFirstError(StepErrors(config, env, req), 1, e.message);
    case Success(image) =>
      var (width, height) := PrepareDimensions(image);
      AfterLoadStopsAtFirstFailure(config, device, env, width, height, ResolvePrompt(req));
  }

  /** `RunStopsAtFirstFailure` for the steps after a successful load, for
      any prompt. */
  lemma AfterLoadStopsAtFirstFailure(config: GenerationConfig, device: DeviceInfo, env: Environment,
                                      width: nat, height: nat, prompt: string)
    ensures StopsAtFirstError(AfterLoad(config, device, env, width, height, prompt),
                              StepErrorsWith(config, env, None, env.generateError(prompt, width, height)))
  {
  }

  /** A run stopped at the `k`-th step by that step's error, all earlier
      steps having passed, stops at the first error of the list. */
  lemma StopIsFirstError(errors: seq<Option<string>>, k: nat, error: string)
    requires |errors| == |StepOrder| && 0 < k <= |StepOrder|
    requires errors[k - 1] == Some(error)
    requires NoneBefore(errors, k - 1)
    ensures StopsAtFirstError(Stop(k, error), errors)
  {
    NoneBeforeAll(errors, k - 1);
  }

  /** The first `k` entries are all absent, checked one by one. */
  predicate NoneBefore(errors: seq<Option<string>>, k: nat)
    requires k <= |errors|
  {
    k == 0 || (errors[k - 1].None? && NoneBefore(errors, k - 1))
  }

  /** `NoneBefore` checks exactly the first `k` entries. */
  lemma {:induction false} NoneBeforeAll(errors: seq<Option<string>>, k: nat)
    requires k <= |errors| && NoneBefore(errors, k)
    ensures forall j :: 0 <= j < k ==> errors[j].None?
  {
    if k > 0 {
      NoneBeforeAll(errors, k - 1);
    }
  }

  // ---------------------------------------------------------------------
  // Consequences for callers

  /** With the default configuration and no original cover on disk, the
      run stops at the first step with the message naming `input/main.jpg`. */
  lemma MissingDefaultInput(device: DeviceInfo, env: Environment, req: Request)
    requires "input/main.jpg" !in env.disk
    ensures GenerateCover(DefaultConfig(), device, env, req)
              == Run(Failed("Please place the original album cover at input/main.jpg"), [Load])
  {
    var config := DefaultConfig();
    assert InputPath(config) == "input/main.jpg";
    assert StepOrder[..1] == [Load];
  }

  /** `main()` calls `generate_cover()` with every argument at its default,
      which selects the default prompt. */
  lemma DefaultRequestUsesDefaultPrompt()
    ensures ResolvePrompt(DefaultRequest) == DefaultPrompt()
    ensures StyleOf(ResolvePrompt(DefaultRequest)) == Some(Fantasy)
  {
    DefaultPromptUsed(DefaultRequest);
  }

  /** An explicit prompt makes the style irrelevant. */
  lemma StyleIgnoredWithExplicitPrompt(config: GenerationConfig, device: DeviceInfo, env: Environment,
                                       req: Request, style: Style)
    requires req.prompt.Some?
    ensures GenerateCover(config, device, env, req) == GenerateCover(config, device, env, req.(style := style))
  {
    assert ResolvePrompt(req) == ResolvePrompt(req.(style := style));
  }

  /** Without an explicit prompt and without extra elements the default
      prompt is used, so the style is irrelevant too. */
  lemma StyleIgnoredWithoutExtras(config: GenerationConfig, device: DeviceInfo, env: Environment,
                                  req: Request, style: Style)
    requires req.prompt.None? && Extras(req.customElements) == []
    ensures GenerateCover(config, device, env, req) == GenerateCover(config, device, env, req.(style := style))
  {
    assert ResolvePrompt(req) == DefaultPrompt() == ResolvePrompt(req.(style := style));
  }

  /** With extra elements and no explicit prompt, different styles give
      different prompts: the style is read back from the prompt. */
  lemma StyleDecidesDesignPrompt(req: Request, style: Style)
    requires req.prompt.None? && Extras(req.customElements) != [] && style != req.style
    ensures ResolvePrompt(req) != ResolvePrompt(req.(style := style))
  {
    DesignPromptInStyle(req);
    DesignPromptInStyle(req.(style := style));
  }
}
