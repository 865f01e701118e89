/**
  The engine build script: `build_qwen3_8b` turns a build intent into the
  argument vector of the `trtllm-build` compiler, joins it into one command,
  aborts with status 1 when the compiler exits nonzero, and otherwise checks
  the expected artifacts one by one, warning about (never failing on) a
  missing one. `main` maps the command line onto the intent.

  The compiler run, its exit code and the files it leaves behind are inputs
  of the model: `exitCode` and `present` (the names found in the output
  directory).
 */
module BuildEngine {
  import opened Wrappers
  import Decimal
  import Words
  import PosixPath

  /** The arguments of `build_qwen3_8b`. None of them is validated. */
  datatype BuildIntent = BuildIntent(
    modelPath: string,
    outputDir: string,
    dtype: string,
    useFp8: bool,
    maxBatchSize: int,
    maxInputLen: int,
    maxOutputLen: int)

  /** The coupled FP8 switches: weights and KV cache, both or neither. */
  const FP8_FLAGS: seq<string> := ["--enable_fp8", "--fp8_kv_cache"]

  /** The Qwen-specific pairs that always close the vector. */
  const QWEN_FLAGS: seq<string> := ["--remove_input_padding", "enable", "--enable_context_fmha_fp32_acc", "disable"]

  /** Where the FP8 switches go: right after `--builder_opt 0`. */
  const FP8_POSITION: nat := 23

  const EXPECTED_FILES: seq<string> := ["config.json", "engine"]

  const DTYPE_CHOICES: seq<string> := ["bfloat16", "float16"]

  /** The list the script starts from: paths, plugins, fixed policy and capacities. */
  function BaseArgs(i: BuildIntent): (args: seq<string>)
    ensures |args| == FP8_POSITION
  {
    [ "trtllm-build",
      "--checkpoint_dir", i.modelPath,
      "--output_dir", PosixPath.Normalize(i.outputDir),
      "--gemm_plugin", i.dtype,
      "--gpt_attention_plugin", i.dtype,
      "--context_fmha", "enable",
      "--paged_kv_cache", "enable",
      "--max_batch_size", Decimal.FromInt(i.maxBatchSize),
      "--max_input_len", Decimal.FromInt(i.maxInputLen),
      "--max_output_len", Decimal.FromInt(i.maxOutputLen),
      "--max_beam_width", "1",
      "--builder_opt", "0" ]
  }

  /** The complete argument vector handed to the compiler. */
  function BuildArgs(i: BuildIntent): seq<string> {
    BaseArgs(i) + (if i.useFp8 then FP8_FLAGS else []) + QWEN_FLAGS
  }

  /** The shell command: the vector joined by single spaces. */
  function Command(i: BuildIntent): string {
    Words.Join(BuildArgs(i), ' ')
  }

  /** `flag` is immediately followed by `value` somewhere in `args`. */
  predicate HasOption(args: seq<string>, flag: string, value: string) {
    exists k :: 0 <= k < |args| - 1 && args[k] == flag && args[k + 1] == value
  }

  // ---------------------------------------------------------------------------
  // Properties of the argument vector

  /** The vector opens with the program name, the checkpoint and the normalised output directory. */
  lemma ArgsStartWithPaths(i: BuildIntent)
    ensures |BuildArgs(i)| >= 5
    ensures BuildArgs(i)[..5] == ["trtllm-build", "--checkpoint_dir", i.modelPath, "--output_dir", PosixPath.Normalize(i.outputDir)]
  {
  }

  /** The `--output_dir` value is already normal: passing it back in builds the same vector. */
  lemma OutputDirIsNormalForm(i: BuildIntent)
    ensures BuildArgs(i.(outputDir := BuildArgs(i)[4])) == BuildArgs(i)
  {
    var n := PosixPath.Normalize(i.outputDir);
    assert BuildArgs(i)[4] == BaseArgs(i)[4] == n;
    PosixPath.NormalizeIdempotent(i.outputDir);
    assert BaseArgs(i.(outputDir := n)) == BaseArgs(i);
  }

  /** Both plugins are selected with the same base dtype. */
  lemma PluginsShareDtype(i: BuildIntent)
    ensures BuildArgs(i)[5..9] == ["--gemm_plugin", i.dtype, "--gpt_attention_plugin", i.dtype]
    ensures HasOption(BuildArgs(i), "--gemm_plugin", i.dtype)
    ensures HasOption(BuildArgs(i), "--gpt_attention_plugin", i.dtype)
  {
    var args := BuildArgs(i);
    assert args[5] == "--gemm_plugin" && args[6] == i.dtype;
    assert args[7] == "--gpt_attention_plugin" && args[8] == i.dtype;
  }

  /** The fixed policy pairs are present whatever the inputs. */
  lemma FixedPolicyPresent(i: BuildIntent)
    ensures HasOption(BuildArgs(i), "--context_fmha", "enable")
    ensures HasOption(BuildArgs(i), "--paged_kv_cache", "enable")
    ensures HasOption(BuildArgs(i), "--max_beam_width", "1")
    ensures HasOption(BuildArgs(i), "--builder_opt", "0")
    ensures HasOption(BuildArgs(i), "--remove_input_padding", "enable")
    ensures HasOption(BuildArgs(i), "--enable_context_fmha_fp32_acc", "disable")
    ensures BuildArgs(i)[|BuildArgs(i)| - 4..] == QWEN_FLAGS
  {
    var args := BuildArgs(i);
    var n := |args|;
    assert args[9] == "--context_fmha" && args[10] == "enable";
    assert args[11] == "--paged_kv_cache" && args[12] == "enable";
    assert args[19] == "--max_beam_width" && args[20] == "1";
    assert args[21] == "--builder_opt" && args[22] == "0";
    assert args[n - 4] == "--remove_input_padding" && args[n - 3] == "enable";
    assert args[n - 2] == "--enable_context_fmha_fp32_acc" && args[n - 1] == "disable";
  }

  /** Each capacity flag is followed by the decimal form of its input, which reads back unchanged. */
  lemma CapacitiesPassThrough(i: BuildIntent)
    ensures HasOption(BuildArgs(i), "--max_batch_size", Decimal.FromInt(i.maxBatchSize))
    ensures HasOption(BuildArgs(i), "--max_input_len", Decimal.FromInt(i.maxInputLen))
    ensures HasOption(BuildArgs(i), "--max_output_len", Decimal.FromInt(i.maxOutputLen))
    ensures Decimal.ToInt(BuildArgs(i)[14]) == Some(i.maxBatchSize)
    ensures Decimal.ToInt(BuildArgs(i)[16]) == Some(i.maxInputLen)
    ensures Decimal.ToInt(BuildArgs(i)[18]) == Some(i.maxOutputLen)
  {
    var args := BuildArgs(i);
    assert args[13] == "--max_batch_size" && args[14] == Decimal.FromInt(i.maxBatchSize);
    assert args[15] == "--max_input_len" && args[16] == Decimal.FromInt(i.maxInputLen);
    assert args[17] == "--max_output_len" && args[18] == Decimal.FromInt(i.maxOutputLen);
    Decimal.FromIntToInt(i.maxBatchSize);
    Decimal.FromIntToInt(i.maxInputLen);
    Decimal.FromIntToInt(i.maxOutputLen);
  }

  /** With FP8 the pair sits between `--builder_opt 0` and `--remove_input_padding`; without it nothing does. */
  lemma Fp8Placement(i: BuildIntent)
    ensures |BuildArgs(i)| == (if i.useFp8 then 29 else 27)
    ensures BuildArgs(i)[FP8_POSITION - 2..FP8_POSITION] == ["--builder_opt", "0"]
    ensures i.useFp8 ==> BuildArgs(i)[FP8_POSITION..FP8_POSITION + 3] == FP8_FLAGS + ["--remove_input_padding"]
    ensures !i.useFp8 ==> BuildArgs(i)[FP8_POSITION] == "--remove_input_padding"
  {
  }

  /** The vectors with and without FP8 differ only by the inserted pair. */
  lemma Fp8OnlyDifference(i: BuildIntent)
    ensures BuildArgs(i.(useFp8 := true))
         == BuildArgs(i.(useFp8 := false))[..FP8_POSITION] + FP8_FLAGS + BuildArgs(i.(useFp8 := false))[FP8_POSITION..]
    ensures |BuildArgs(i.(useFp8 := true))| == |BuildArgs(i.(useFp8 := false))| + 2
  {
    var on, off := i.(useFp8 := true), i.(useFp8 := false);
    assert BaseArgs(on) == BaseArgs(off);
    assert BuildArgs(off)[..FP8_POSITION] == BaseArgs(off);
    assert BuildArgs(off)[FP8_POSITION..] == QWEN_FLAGS;
  }

  /** A decimal string never spells a flag: it starts with a digit, or with '-' and a digit. */
  lemma DecimalIsNotFlag(n: int, flag: string)
    requires |flag| >= 2 && flag[1] == '-'
    ensures Decimal.FromInt(n) != flag
  {
    var s := Decimal.FromInt(n);
    if |s| >= 2 {
      assert Decimal.IsDigit(s[1]);
    }
  }

  /**
    The FP8 switches appear exactly when `useFp8` holds, both or neither,
    provided that no user-supplied string is itself an FP8 switch.
   */
  lemma Fp8FlagsCoupled(i: BuildIntent)
    requires i.modelPath !in FP8_FLAGS && PosixPath.Normalize(i.outputDir) !in FP8_FLAGS && i.dtype !in FP8_FLAGS
    ensures ("--enable_fp8" in BuildArgs(i)) == i.useFp8
    ensures ("--fp8_kv_cache" in BuildArgs(i)) == i.useFp8
  {
    var args := BuildArgs(i);
    forall flag | flag in FP8_FLAGS
      ensures flag in args <==> i.useFp8
    {
      DecimalIsNotFlag(i.maxBatchSize, flag);
      DecimalIsNotFlag(i.maxInputLen, flag);
      DecimalIsNotFlag(i.maxOutputLen, flag);
      assert flag !in BaseArgs(i);
      assert flag !in QWEN_FLAGS;
      if i.useFp8 {
        assert flag in FP8_FLAGS;
      } else {
        assert args == BaseArgs(i) + QWEN_FLAGS;
      }
    }
  }

  lemma DecimalFreeOfSpace(n: int)
    ensures Words.FreeOf(Decimal.FromInt(n), ' ')
  {
  }

  /** Every word of the base list that does not come from the intent. */
  const FIXED_WORDS: set<string> := {
    "trtllm-build", "--checkpoint_dir", "--output_dir", "--gemm_plugin", "--gpt_attention_plugin",
    "--context_fmha", "--paged_kv_cache", "enable", "--max_batch_size", "--max_input_len",
    "--max_output_len", "--max_beam_width", "1", "--builder_opt", "0" }

  lemma FixedWordsFreeOfSpace()
    ensures forall w :: w in FIXED_WORDS ==> Words.FreeOf(w, ' ')
  {
  }

  lemma BaseArgsFreeOfSpace(i: BuildIntent)
    requires Words.FreeOf(i.modelPath, ' ') && Words.FreeOf(PosixPath.Normalize(i.outputDir), ' ')
    requires Words.FreeOf(i.dtype, ' ')
    ensures Words.AllFreeOf(BaseArgs(i), ' ')
  {
    var base := BaseArgs(i);
    FixedWordsFreeOfSpace();
    DecimalFreeOfSpace(i.maxBatchSize);
    DecimalFreeOfSpace(i.maxInputLen);
    DecimalFreeOfSpace(i.maxOutputLen);
    forall k | 0 <= k < |base| ensures Words.FreeOf(base[k], ' ') {
      if k == 2 || k == 4 || k == 6 || k == 8 {
      } else if k == 14 || k == 16 || k == 18 {
      } else {
        assert base[k] in FIXED_WORDS;
      }
    }
  }

  lemma ArgsFreeOfSpace(i: BuildIntent)
    requires Words.FreeOf(i.modelPath, ' ') && Words.FreeOf(PosixPath.Normalize(i.outputDir), ' ')
    requires Words.FreeOf(i.dtype, ' ')
    ensures Words.AllFreeOf(BuildArgs(i), ' ')
  {
    var base := BaseArgs(i);
    var fp8: seq<string> := if i.useFp8 then FP8_FLAGS else [];
    BaseArgsFreeOfSpace(i);
    assert Words.AllFreeOf(fp8, ' ');
    assert Words.AllFreeOf(QWEN_FLAGS, ' ');
    Words.AllFreeOfConcat(base, fp8, ' ');
    Words.AllFreeOfConcat(base + fp8, QWEN_FLAGS, ' ');
  }

  /**
    The command string determines the vector: splitting it at spaces gives
    the vector back, provided that no user-supplied string contains a space.
   */
  lemma CommandSplitsIntoArgs(i: BuildIntent)
    requires Words.FreeOf(i.modelPath, ' ') && Words.FreeOf(PosixPath.Normalize(i.outputDir), ' ')
    requires Words.FreeOf(i.dtype, ' ')
    ensures Words.Split(Command(i), ' ') == BuildArgs(i)
  {
    ArgsFreeOfSpace(i);
    Words.SplitJoin(BuildArgs(i), ' ');
  }

  // ---------------------------------------------------------------------------
  // Running the build and checking the artifacts

  /** One line of the artifact check: the file and whether it was found. */
  datatype ArtifactCheck = ArtifactCheck(name: string, found: bool)

  datatype Level = Info | Warning

  /** A found file is logged as information, a missing one as a warning. */
  function LogLevel(c: ArtifactCheck): Level {
    if c.found then Info else Warning
  }

  /** The compiler failed (the script exits), or it succeeded and the artifacts were checked. */
  datatype BuildOutcome = BuildFailed(exitCode: int) | BuildCompleted(artifacts: seq<ArtifactCheck>)

  /** The script's own exit status: `sys.exit(1)` after a failed build, 0 otherwise. */
  function ExitStatus(o: BuildOutcome): int {
    if o.BuildFailed? then 1 else 0
  }

  /** The result of checking `expected` in order against the files present. */
  function ArtifactReport(expected: seq<string>, present: set<string>): (report: seq<ArtifactCheck>)
    ensures |report| == |expected|
    ensures forall k :: 0 <= k < |report| ==> report[k].name == expected[k] && (report[k].found <==> expected[k] in present)
  {
    if expected == [] then []
    else
      var last := expected[|expected| - 1];
      ArtifactReport(expected[..|expected| - 1], present) + [ArtifactCheck(last, last in present)]
  }

  /** What happens once the compiler has exited with `exitCode`. */
  function Outcome(exitCode: int, present: set<string>): BuildOutcome {
    if exitCode != 0 then BuildFailed(exitCode) else BuildCompleted(ArtifactReport(EXPECTED_FILES, present))
  }

  /** A nonzero compiler exit ends the script with status 1 and checks no artifact. */
  lemma FailedBuildChecksNothing(exitCode: int, present: set<string>)
    requires exitCode != 0
    ensures Outcome(exitCode, present) == BuildFailed(exitCode)
    ensures ExitStatus(Outcome(exitCode, present)) == 1
  {
  }

  /**
    After a successful compiler run `config.json` and then `engine` are
    checked; a missing file is only a warning and the script still ends
    with status 0.
   */
  lemma SuccessfulBuildChecksArtifacts(present: set<string>)
    ensures Outcome(0, present).BuildCompleted?
    ensures ExitStatus(Outcome(0, present)) == 0
    ensures |Outcome(0, present).artifacts| == 2
    ensures Outcome(0, present).artifacts[0] == ArtifactCheck("config.json", "config.json" in present)
    ensures Outcome(0, present).artifacts[1] == ArtifactCheck("engine", "engine" in present)
    ensures forall c :: c in Outcome(0, present).artifacts && !c.found ==> LogLevel(c) == Warning
  {
    var report := Outcome(0, present).artifacts;
    assert report[0].name == EXPECTED_FILES[0] && report[1].name == EXPECTED_FILES[1];
  }

  /** The script's exit status depends on the compiler's exit code alone, never on the artifacts. */
  lemma ExitStatusIgnoresArtifacts(exitCode: int, present: set<string>, present': set<string>)
    ensures ExitStatus(Outcome(exitCode, present)) == ExitStatus(Outcome(exitCode, present'))
    ensures ExitStatus(Outcome(exitCode, present)) == (if exitCode == 0 then 0 else 1)
  {
  }

  /** The expected-file loop: one check per file, in order. */
  method CheckArtifacts(expected: seq<string>, present: set<string>) returns (report: seq<ArtifactCheck>)
    ensures report == ArtifactReport(expected, present)
  {
    report := [];
    for k := 0 to |expected|
      invariant report == ArtifactReport(expected[..k], present)
    {
      var file := expected[k];
      var found := file in present;
      report := report + [ArtifactCheck(file, found)];
      assert expected[..k + 1][..k] == expected[..k];
    }
    assert expected[..|expected|] == expected;
  }

  /**
    `build_qwen3_8b`: build the list, extend it with the FP8 pair when asked
    and with the Qwen pairs, join it, and react to the compiler's exit code.
   */
  method Build(i: BuildIntent, exitCode: int, present: set<string>) returns (cmd: string, outcome: BuildOutcome)
    ensures cmd == Command(i)
    ensures outcome == Outcome(exitCode, present)
  {
    var outputPath := PosixPath.Normalize(i.outputDir);
    var cmdParts := [
      "trtllm-build",
      "--checkpoint_dir", i.modelPath,
      "--output_dir", outputPath,
      "--gemm_plugin", i.dtype,
      "--gpt_attention_plugin", i.dtype,
      "--context_fmha", "enable",
      "--paged_kv_cache", "enable",
      "--max_batch_size", Decimal.FromInt(i.maxBatchSize),
      "--max_input_len", Decimal.FromInt(i.maxInputLen),
      "--max_output_len", Decimal.FromInt(i.maxOutputLen),
      "--max_beam_width", "1",
      "--builder_opt", "0"
    ];
    if i.useFp8 {
      cmdParts := cmdParts + ["--enable_fp8", "--fp8_kv_cache"];
    }
    cmdParts := cmdParts + ["--remove_input_padding", "enable", "--enable_context_fmha_fp32_acc", "disable"];
    assert cmdParts == BuildArgs(i);
    cmd := Words.Join(cmdParts, ' ');

    if exitCode != 0 {
      outcome := BuildFailed(exitCode);
      return;
    }
    var report := CheckArtifacts(EXPECTED_FILES, present);
    outcome := BuildCompleted(report);
  }

  // ---------------------------------------------------------------------------
  // The command line

  /** The options as given; `None` where the option was not supplied. */
  datatype CommandLine = CommandLine(
    modelPath: Option<string>,
    outputDir: Option<string>,
    dtype: Option<string>,
    noFp8: bool,
    maxBatchSize: Option<int>,
    maxInputLen: Option<int>,
    maxOutputLen: Option<int>)

  /** The argument parser's refusals; each ends the script with status 2. */
  datatype UsageError = InvalidDtype(given: string) | MissingModelPath

  function OrElse<T>(o: Option<T>, default: T): T {
    if o.Some? then o.value else default
  }

  /**
    `main`: apply the defaults, refuse a dtype outside the choices (checked
    while parsing) or a missing model path (checked after parsing), and
    turn `--no-fp8` into `use_fp8`.
   */
  function IntentOf(cl: CommandLine): Result<BuildIntent, UsageError> {
    if cl.dtype.Some? && cl.dtype.value !in DTYPE_CHOICES then Failure(InvalidDtype(cl.dtype.value))
    else if cl.modelPath.None? then Failure(MissingModelPath)
    else Success(BuildIntent(
      cl.modelPath.value,
      OrElse(cl.outputDir, "./qwen3_8b_trtllm"),
      OrElse(cl.dtype, "bfloat16"),
      !cl.noFp8,
      OrElse(cl.maxBatchSize, 8),
      OrElse(cl.maxInputLen, 2048),
      OrElse(cl.maxOutputLen, 2048)))
  }

  /**
    A build is only started with a supported dtype; an unsupported dtype is
    refused before a missing model path; every given option reaches the
    intent unchanged, every absent one takes its default, and FP8 is on
    unless `--no-fp8` is given.
   */
  lemma IntentOfCommandLine(cl: CommandLine)
    ensures IntentOf(cl).Success? <==> cl.modelPath.Some? && (cl.dtype.None? || cl.dtype.value in DTYPE_CHOICES)
    ensures cl.dtype.Some? && cl.dtype.value !in DTYPE_CHOICES ==> IntentOf(cl) == Failure(InvalidDtype(cl.dtype.value))
    ensures (cl.dtype.None? || cl.dtype.value in DTYPE_CHOICES) && cl.modelPath.None? ==> IntentOf(cl) == Failure(MissingModelPath)
    ensures IntentOf(cl).Success? ==>
      var i := IntentOf(cl).value;
      && i.dtype in DTYPE_CHOICES
      && i.useFp8 == !cl.noFp8
      && i.modelPath == cl.modelPath.value
      && (cl.dtype.Some? ==> i.dtype == cl.dtype.value)
      && (cl.dtype.None? ==> i.dtype == "bfloat16")
      && (cl.outputDir.Some? ==> i.outputDir == cl.outputDir.value)
      && (cl.outputDir.None? ==> i.outputDir == "./qwen3_8b_trtllm")
      && (cl.maxBatchSize.Some? ==> i.maxBatchSize == cl.maxBatchSize.value)
      && (cl.maxBatchSize.None? ==> i.maxBatchSize == 8)
      && (cl.maxInputLen.Some? ==> i.maxInputLen == cl.maxInputLen.value)
      && (cl.maxInputLen.None? ==> i.maxInputLen == 2048)
      && (cl.maxOutputLen.Some? ==> i.maxOutputLen == cl.maxOutputLen.value)
      && (cl.maxOutputLen.None? ==> i.maxOutputLen == 2048)
  {
  }

  /** With every option left at its default the script builds a bfloat16 FP8 engine for batch 8 and 2048-token sequences. */
  lemma DefaultCommandLine(modelPath: string)
    ensures IntentOf(CommandLine(Some(modelPath), None, None, false, None, None, None))
         == Success(BuildIntent(modelPath, "./qwen3_8b_trtllm", "bfloat16", true, 8, 2048, 2048))
  {
  }

  /** The default capacities are written as 8, 2048 and 2048. */
  lemma DefaultCapacityArgs(i: BuildIntent)
    requires i.maxBatchSize == 8 && i.maxInputLen == 2048 && i.maxOutputLen == 2048
    ensures HasOption(BuildArgs(i), "--max_batch_size", "8")
    ensures HasOption(BuildArgs(i), "--max_input_len", "2048")
    ensures HasOption(BuildArgs(i), "--max_output_len", "2048")
  {
    CapacitiesPassThrough(i);
    DefaultCapacitiesWritten();
  }

  /** The default output directory reaches the compiler without its leading "./". */
  lemma DefaultOutputDirNormalized()
    ensures PosixPath.Normalize("./qwen3_8b_trtllm") == "qwen3_8b_trtllm"
  {
    var name := "qwen3_8b_trtllm";
    PosixPath.DotSlashDropped(name);
    assert "./" + name == "./qwen3_8b_trtllm";
  }

  lemma DefaultCapacitiesWritten()
    ensures Decimal.FromInt(8) == "8" && Decimal.FromInt(2048) == "2048"
  {
    assert Decimal.NatDigits(2) == "2";
    assert Decimal.NatDigits(20) == "20";
    assert Decimal.NatDigits(204) == "204";
    assert Decimal.NatDigits(2048) == "2048";
  }
}
