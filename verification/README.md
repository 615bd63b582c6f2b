# Vinyl cover generator — a Dafny model of its core

The generator takes an existing album cover, normalises its size for a
Stable Diffusion model, builds a text prompt from a style template,
generates one image with the model and writes the new cover next to a
copy of the original, a configuration screenshot and a markdown report. This project models the
deterministic logic around the model call and proves what it guarantees:

- `wrappers.dfy` — `Option` and `Result`.
- `strings.dfy` — `", ".join`, Python's `str.split()` with no separator
  (whitespace is the exact `str.isspace` code-point set) and the round trip
  `' '.join(ws).split() == ws`.
- `config.dfy` — `GenerationConfig` and its defaults, POSIX `os.path.join`
  for two components, the input and output paths, and the `DeviceManager`:
  backend priority (Apple MPS, then CUDA, then CPU) and the device record.
- `prompts.dfy` — the five styles and their templates, `create_prompt`,
  `get_default_prompt`, and a reader `StyleOf` that recovers the style from
  a prompt's header, so that a prompt determines the style it was built for.
- `images.dfy` — loading the original cover from an abstract disk (missing
  file versus undecodable file) and rounding the size down to multiples of 8.
- `reports.dfy` — `_wrap_text`, the loop and its counter as written, next
  to a declarative greedy layout (the first line may hold one character
  less than later lines; a single over-long word gets a line of its own);
  the loop is proved to produce that layout and the layout is proved
  unique. Also the prompt caption of the screenshot.
- `generator.dfy` — `generate_cover`: which prompt is used, the order of the
  nine steps, the first failing step ending the run, and the shapes of the
  success and failure records. The file system, the model and the writes
  are an `Environment` of outcomes given as parameters.

## Model

| member | source | states |
|---|---|---|
| Config.DefaultConfig | config.py:6-25 | the default model is `runwayml/stable-diffusion-v1-5` with 30 inference steps and attention slicing on, the original is read from `input/main.jpg`, and the four output file names differ |
| Config.DefaultOutputPaths | config.py:17-25 | with the defaults the four outputs are written to `output/main_cover.jpg`, `output/generated_album_cover.jpg`, `output/pipeline_screenshot.jpg` and `output/report.md` |
| Config.DefaultOutputPathsDistinct | config.py:16-25 | with the defaults the original copy, generated cover, screenshot and report are written to four different paths, so no output overwrites another |
| Config.DistinctRelativeNamesGiveDistinctPaths | config.py:17-25 | for any configuration whose output names are distinct and relative, the four joined output paths are pairwise distinct |
| Config.PathJoin | image_processor.py:17-53 | POSIX `os.path.join(a, b)`: an absolute `b` replaces `a`; otherwise the result is as long as `a` and `b` together, or one character longer (`PathJoinShape` and `PathJoinSeparator` say which characters) |
| Config.PathJoinSeparator | image_processor.py:17-53 | for a relative `b`, a character is inserted between `a` and `b` exactly when `a` is non-empty and does not end in `/`, and that character is `/` |
| Config.InputPath | image_processor.py:17 | the path the original is read from ends with the configured image name |
| Config.OutputPaths | image_processor.py:44-56 | one output path per output name, in the order original copy, generated cover, screenshot, report |
| Config.OutputPathsEndWithNames | image_processor.py:44-56 | every output path ends with its configured file name |
| Config.RelativeJoinInjective | image_processor.py:46 | joining one directory with two relative names gives the same path only when the names are equal |
| Config.PathJoinShape | image_processor.py:17 | `os.path.join(a, b)` ends with `b`; keeps `a` in front when `b` is relative; is exactly `b` when `b` is absolute |
| Config.OptimalDevice | config.py:31-38 | the chosen backend is available (CPU always is) and no available backend ranks higher in the order MPS, CUDA, CPU |
| Config.GetDeviceInfo | config.py:41-55 | the record's type is the device type; MPS is "Apple Silicon" with "Shared system memory", CPU is "CPU" with "System RAM", CUDA reports the GPU's own name and memory |
| Config.InfoIdentifiesDevice | config.py:41-55 | two equal device records come from the same backend |
| Config.SelectDevice | config.py:31-55 | the reported type is "mps" exactly when MPS is available, "cuda" exactly when only CUDA is, and "cpu" exactly when neither is |
| Prompts.TemplateOf | prompt_manager.py:14-40 | every style has a template, and each template carries three base elements |
| Prompts.CreatePrompt | prompt_manager.py:42-61 | the prompt is the header, the template elements followed by the extra elements, the lighting and the quality, all joined by ", "; it starts with the header and ends with lighting and quality |
| Prompts.AbsentExtrasAsEmpty | prompt_manager.py:51-52 | passing no extra elements and passing an empty list give the same prompt |
| Prompts.PromptShape | prompt_manager.py:54-61 | joining the header, the joined elements, lighting and quality is the same as joining the flat list of all of them |
| Prompts.StyleOf | prompt_manager.py:55 | a style read back from a prompt is one whose header the prompt starts with |
| Prompts.StyleOfCreatePrompt | prompt_manager.py:54-61 | every prompt built for a style reads back as that style, whatever the subject and extras |
| Prompts.StyleOfHeaderPrefix | prompt_manager.py:55 | any text starting with a style's header reads back as that style |
| Prompts.DefaultPrompt | prompt_manager.py:63-70 | the default prompt is the fantasy prompt for the girl-with-a-sword subject with the fireflies, misty background and hopeful-atmosphere extras, and it reads back as fantasy |
| Images.LoadOriginalImage | image_processor.py:15-29 | a missing input file fails with a not-found error whose message ends with the input path; an undecodable one fails with a decode error ending with the decoder's message; otherwise the decoded image is returned |
| Images.RoundDownTo8 | image_processor.py:35-37 | the result is a multiple of 8 no greater than the side and within 8 of it |
| Images.PrepareDimensions | image_processor.py:31-42 | both sides become multiples of 8, each reduced by less than 8 |
| Images.RoundDownIsLargest | image_processor.py:35-37 | no multiple of 8 that fits the side is larger than the rounded side |
| Images.PrepareDimensionsIdempotent | image_processor.py:31-42 | preparing already prepared dimensions changes nothing |
| Images.MultipleOf8Unchanged | image_processor.py:36-37 | a side that is already a multiple of 8 is kept |
| Images.AxesIndependent | image_processor.py:36-37 | each normalised side depends only on the same side of the original |
| Images.SmallSideBecomesZero | image_processor.py:36-37 | a width or a height under 8 pixels becomes 0, with no error |
| Strings.Words | report_generator.py:124 | splitting yields only non-empty whitespace-free words, never more words than characters |
| Strings.WordsEmpty | report_generator.py:124 | the text splits into no words exactly when every character is whitespace |
| Strings.WordsContent | report_generator.py:124 | gluing the words together gives the text's non-whitespace characters in order: nothing is dropped, duplicated or moved |
| Strings.WordsOfJoin | report_generator.py:124-135 | splitting words joined by single spaces gives back the same words |
| Strings.JoinAppend | prompt_manager.py:56-61 | joining a concatenation is joining each part and joining the two results with the separator |
| Reports.WrapLoop | report_generator.py:124-140 | the loop as written, counter included; it never emits an empty line |
| Reports.Render | report_generator.py:135-140 | one rendered line per word group |
| Reports.SplitRender | report_generator.py:135-140 | splitting the rendered lines gives back the word groups, so `' '.join` then `.split()` loses nothing |
| Reports.WrapText | report_generator.py:122-142 | no lines exactly when the text has no words; the lines, split again, are a greedy layout of the text's words; each line is its words joined by single spaces; a line holding two or more words fits its budget (width-1 for the first line, width after) |
| Reports.BlankTextHasNoLines | report_generator.py:124-142 | empty or whitespace-only text, and only such text, wraps to no lines |
| Reports.WrapLoopIsGreedy | report_generator.py:124-140 | the loop with its running counter emits every word once, in order, and packs greedily: each line ends only where the next word would overflow it |
| Reports.PackedUnique | report_generator.py:129-137 | two greedy layouts of the same words with the same budgets are identical |
| Reports.GreedyLayoutIsWrapText | report_generator.py:122-142 | any greedy layout of a text's words, rendered, is exactly what `_wrap_text` returns |
| Reports.FirstLineIsLongest | report_generator.py:129-137 | in a greedy layout no longer prefix of the words fits the first line's budget |
| Reports.JoinRender | report_generator.py:135-140 | joining the rendered lines with spaces is joining all the words with spaces |
| Reports.RewrapIsStable | report_generator.py:122-142 | wrapping the space-joined lines of a wrapped text again gives the same lines |
| Reports.FirstLineIsOneShorter | report_generator.py:127-137 | at width 3, "a b a b" wraps to "a", "b a", "b": the first line takes one word where the later lines take two |
| Reports.PromptCaption | report_generator.py:37 | the screenshot caption wraps "Prompt: " and the prompt at 80 columns; its words are the label followed by the prompt's words, in order, laid out greedily |
| Generator.ResolvePrompt | main.py:62-69 | an explicit prompt is used verbatim; with no prompt and non-empty extras it is `create_prompt("an album cover design", style, extras)` and reads back as that style; otherwise it is the default prompt, which reads back as fantasy |
| Generator.ExplicitPromptVerbatim | main.py:63 | an explicit prompt, even an empty one, is used verbatim |
| Generator.DesignPromptInStyle | main.py:64-67 | with no prompt and non-empty extras the prompt is the "an album cover design" prompt of the requested style with the extras after the template elements, and it reads back as that style |
| Generator.DefaultPromptUsed | main.py:68-69 | with no prompt and no or empty extras the default prompt is used, and it reads back as fantasy whatever style was requested |
| Generator.GenerateCover | main.py:46-114 | the attempted steps are always a non-empty prefix of the fixed step order; a success ran every step and names the four configured output paths, the prompt used and the device |
| Generator.AfterLoad | main.py:59-103 | after a successful load at least three steps ran; a success names the configured output paths, the given prompt and the device |
| Generator.RunStopsAtFirstFailure | main.py:53-114 | a run fails at exactly the first step whose error is present, carrying that error's text, and succeeds exactly when no step raises |
| Generator.AfterLoadStopsAtFirstFailure | main.py:59-92 | the same, for the steps after loading, for every prompt |
| Generator.StopIsFirstError | main.py:108-114 | a run stopped by a step's error after all earlier steps passed stops at the first error |
| Generator.MissingDefaultInput | main.py:56 | with the default configuration and no `input/main.jpg`, the run attempts only the load and fails with "Please place the original album cover at input/main.jpg" |
| Generator.DefaultRequestUsesDefaultPrompt | main.py:127 | the call with every argument at its default uses the default prompt, which is in the fantasy style |
| Generator.StyleIgnoredWithExplicitPrompt | main.py:63 | with an explicit prompt the style does not change the run |
| Generator.StyleIgnoredWithoutExtras | main.py:64-69 | with no prompt and no (or empty) extras the style does not change the run |
| Generator.StyleDecidesDesignPrompt | main.py:64-67 | with no prompt and non-empty extras, different styles give different prompts |

## Left out

- Loading, warming up and calling the diffusion model (pipeline_manager.py): the model call is an outcome the environment supplies for a prompt and a size. The pipeline's not-initialised guard is not modelled, since `generate_cover` initialises the pipeline right before every generation; the code does so on every call, without first checking whether it is already loaded.
- generate_cover.py, the command-line entry point and `main()`: argument handling, printing and logging.
- Drawing the configuration screenshot (matplotlib) and writing the markdown report: only their output paths, the prompt caption and the chance that writing fails are modelled.
- Config.GetDeviceInfo: the CUDA device name and the memory text (total bytes divided by 1e9, formatted to one decimal) are runtime queries and are taken as parameters.
- `guidance_scale` and `torch_dtype` are floating-point or library values and are not part of `GenerationConfig` here.
- Generator.GenerateCover: the `generation_time` field of both records is a clock difference and is left out of the records.
- Creating the input, output and resources directories, and reading and writing image bytes: the disk is a map from path to decode outcome, and a write fails exactly for paths the environment lists.
- Images.LoadOriginalImage: Python's existence check and decoder are one map lookup; the decode error text is supplied by the disk.
- Config.PathJoin: only POSIX `os.path.join` is modelled; on Windows the separator is a backslash and drive letters count as absolute, so the paths and the missing-file message would differ.
- Strings.Words: whitespace is decided per code point by the `str.isspace` set; no other Unicode processing is modelled.
- Range checks on configuration values: the source validates none (a zero or negative `num_inference_steps`, an empty directory name), and the model adds none.
