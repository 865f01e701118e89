# Qwen 3 8B engine build and inference validation — a Dafny model

This project models the two scripts that build and validate a Qwen 3 8B
TensorRT-LLM deployment:

- **The engine build script** (`trt-llm/build_qwen3_8b.py`). `build_qwen3_8b`
  turns a build intent (model path, output directory, base dtype, FP8 switch,
  three capacity limits) into the argument vector of the `trtllm-build`
  compiler. It builds a fixed list, extends it with the coupled FP8 pair when
  FP8 is on, and closes it with the Qwen-specific pairs. It then joins the
  list into one command. A nonzero compiler exit ends the script with status
  1. Otherwise `config.json` and then `engine` are checked in the output
  directory, and a missing file is only a warning. `main` maps the command
  line onto the intent: `use_fp8 = not no_fp8`, and `dtype` is one of
  `bfloat16`/`float16`.
- **The inference validation script** (`sh/test_inference.py`). `test_health`
  and `test_model_ready` probe a Triton server and return true exactly on
  HTTP 200. `generate_text` posts one generation request and returns the
  decoded body on 200 and `{"error": ...}` otherwise. `main` runs health,
  then readiness, then generation, stopping at the first failed probe, and
  reports success exactly when the result has no `"error"` key.

Modules:

| file | module | models |
|---|---|---|
| `wrappers.dfy` | `Wrappers` | `Option` and `Result` |
| `decimal.dfy` | `Decimal` | Python's `str(int)` and the reading back of its output |
| `words.dfy` | `Words` | `sep.join(parts)` and `s.split(sep)` |
| `posix_path.dfy` | `PosixPath` | `str(Path(s))` on a POSIX system |
| `build_engine.dfy` | `BuildEngine` | `build_qwen3_8b` and `main` of the build script |
| `inference_test.dfy` | `InferenceTest` | the probes, `generate_text` and `main` of the validation script |

The build script changes things step by step. `BuildEngine.Build` is a
method that appends to a local list and runs the expected-file loop
(`BuildEngine.CheckArtifacts`). Both are proved equal to the specification
functions `BuildArgs`, `Command` and `Outcome`, and the lemmas state the
script's promises about those functions. The validation script is
straight-line branching, so it is modelled with functions. The server is a
parameter `server: Request -> Response`. A response is either a reply
(status, body text, and the body decoded as a JSON object or the decoding
error's message) or a transport error. Every function of the model is
deterministic, so the same intent always yields the same vector and the same
command.

Facts about the scripts that the model keeps:

- The `--output_dir` value is `str(Path(output_dir))`, the normalised path.
  For example, the default `./qwen3_8b_trtllm` reaches the compiler as
  `qwen3_8b_trtllm`.
- `build_qwen3_8b` validates none of its arguments. It accepts zero or
  negative capacities, an empty model path and any dtype string. Only the
  argument parser in `main` restricts dtype.
- `generate_text` returns the decoded body itself on success.
- The validation script's `main` returns normally on every path, including
  a failed probe and a failed generation. Its process exit status is
  therefore 0 whatever the outcome. The model records where the run stopped
  (`RunResult`) and the logged verdict (`Verdict`).

## Model

| member | source | states |
|---|---|---|
| `Decimal.FromInt` | trt-llm/build_qwen3_8b.py:71-73 | `str(n)` starts with '-' exactly when n is negative, and consists only of digits and '-', with a digit right after the sign |
| `Decimal.FromIntToInt` | trt-llm/build_qwen3_8b.py:71-73 | reading back the decimal string of any integer gives that integer, and the string is canonical (no leading zero, no "-0") |
| `Decimal.ToIntFromInt` | trt-llm/build_qwen3_8b.py:71-73 | every canonical decimal string is exactly what `str` writes for the integer it denotes (the other direction of the round trip) |
| `Decimal.FromIntInjective` | trt-llm/build_qwen3_8b.py:71-73 | distinct capacity values are written as distinct strings |
| `Words.SplitJoin` | trt-llm/build_qwen3_8b.py:93 | splitting `" ".join(parts)` at the separator gives `parts` back whenever `parts` is non-empty and no part contains the separator |
| `Words.JoinSplit` | trt-llm/build_qwen3_8b.py:93 | joining the pieces of any split string restores the string |
| `Words.SplitPiecesFree` | trt-llm/build_qwen3_8b.py:93 | the pieces of a split never contain the separator |
| `PosixPath.Normalize` | trt-llm/build_qwen3_8b.py:58-66 | `str(Path(s))` is never empty (an empty path reads ".") |
| `PosixPath.NormalizeIdempotent` | trt-llm/build_qwen3_8b.py:58-66 | normalising an already normalised path changes nothing |
| `PosixPath.DotSlashDropped` | trt-llm/build_qwen3_8b.py:58-66 | a leading "./" before a plain name is dropped |
| `Words.Join` | trt-llm/build_qwen3_8b.py:93 | `sep.join(parts)`: the parts in order with one separator between neighbours; a single part is returned as it is |
| `BuildEngine.BaseArgs` | trt-llm/build_qwen3_8b.py:63-76 | the initial 23-element list: program name, checkpoint and normalised output paths, both plugins with the dtype, the fixed attention and cache pairs, the three capacities in decimal, beam width 1 and builder opt 0 |
| `BuildEngine.BuildArgs` | trt-llm/build_qwen3_8b.py:63-90 | the complete vector: the initial list, then the FP8 pair when `use_fp8` holds, then the two Qwen pairs |
| `BuildEngine.Command` | trt-llm/build_qwen3_8b.py:93 | the shell command: the vector joined by single spaces |
| `BuildEngine.LogLevel` | trt-llm/build_qwen3_8b.py:115-118 | a found artifact is logged as information, a missing one as a warning |
| `BuildEngine.ExitStatus` | trt-llm/build_qwen3_8b.py:102-104 | the script's exit status: 1 after a failed build, 0 otherwise |
| `BuildEngine.Outcome` | trt-llm/build_qwen3_8b.py:100-118 | a failed build carrying the exit code when it is nonzero, otherwise the artifact report for `config.json` and `engine` |
| `BuildEngine.IntentOf` | trt-llm/build_qwen3_8b.py:121-178 | the build intent from the command line: an invalid dtype is refused first, then a missing model path; otherwise the defaults are applied and `use_fp8` is `not no_fp8` |
| `BuildEngine.ArgsStartWithPaths` | trt-llm/build_qwen3_8b.py:63-66 | the vector starts with `trtllm-build`, `--checkpoint_dir`, the model path, `--output_dir` and the normalised output directory, in that order |
| `BuildEngine.OutputDirIsNormalForm` | trt-llm/build_qwen3_8b.py:58-66 | feeding the emitted `--output_dir` value back as the output directory builds the identical vector |
| `BuildEngine.PluginsShareDtype` | trt-llm/build_qwen3_8b.py:67-68 | `--gemm_plugin` and `--gpt_attention_plugin` are each immediately followed by the same dtype |
| `BuildEngine.FixedPolicyPresent` | trt-llm/build_qwen3_8b.py:69-90 | for every input, the vector pairs `--context_fmha enable`, `--paged_kv_cache enable`, `--max_beam_width 1`, `--builder_opt 0`, `--remove_input_padding enable` and `--enable_context_fmha_fp32_acc disable`, and ends with the last two pairs |
| `BuildEngine.CapacitiesPassThrough` | trt-llm/build_qwen3_8b.py:71-73 | each capacity flag is followed by the decimal string of its input, which reads back as that same integer |
| `BuildEngine.Fp8Placement` | trt-llm/build_qwen3_8b.py:74-90 | the vector has 29 elements with FP8 and 27 without; with FP8 the pair sits right after `--builder_opt 0` and right before `--remove_input_padding`, and without FP8 `--remove_input_padding` follows `--builder_opt 0` directly |
| `BuildEngine.Fp8OnlyDifference` | trt-llm/build_qwen3_8b.py:79-84 | the FP8 vector is the non-FP8 vector with `--enable_fp8 --fp8_kv_cache` inserted after `--builder_opt 0`, so the lengths differ by exactly 2 |
| `BuildEngine.Fp8FlagsCoupled` | trt-llm/build_qwen3_8b.py:79-84 | `--enable_fp8` and `--fp8_kv_cache` both occur when `use_fp8` holds and neither occurs otherwise |
| `BuildEngine.CommandSplitsIntoArgs` | trt-llm/build_qwen3_8b.py:93 | the command string is the vector joined by single spaces, and splitting it at spaces recovers the vector when no user-supplied string contains a space |
| `BuildEngine.ArtifactReport` | trt-llm/build_qwen3_8b.py:112-118 | one check per expected file, in order, each found exactly when the file is present |
| `BuildEngine.CheckArtifacts` | trt-llm/build_qwen3_8b.py:112-118 | the expected-file loop produces exactly the artifact report |
| `BuildEngine.Build` | trt-llm/build_qwen3_8b.py:58-118 | the list built by the appends and joined is the command of the intent, and the outcome is the one determined by the compiler's exit code and the files present |
| `BuildEngine.FailedBuildChecksNothing` | trt-llm/build_qwen3_8b.py:100-104 | a nonzero exit code gives a failed build carrying that code, script status 1, and no artifact check |
| `BuildEngine.SuccessfulBuildChecksArtifacts` | trt-llm/build_qwen3_8b.py:106-118 | on exit 0 the script ends with status 0 after checking `config.json` then `engine`, each found exactly when present, and a missing file is logged as a warning |
| `BuildEngine.ExitStatusIgnoresArtifacts` | trt-llm/build_qwen3_8b.py:100-118 | the script's exit status is 0 for compiler exit 0 and 1 otherwise, whatever files are present |
| `BuildEngine.IntentOfCommandLine` | trt-llm/build_qwen3_8b.py:121-178 | a build starts exactly when a model path is given and the dtype is absent or one of the choices; an unsupported dtype is refused before a missing model path; on success the dtype is a choice, `use_fp8` is the negation of `--no-fp8`, every given option (the dtype included) is passed on unchanged, and each absent option takes its default (`./qwen3_8b_trtllm`, `bfloat16`, 8, 2048, 2048) |
| `BuildEngine.DefaultCommandLine` | trt-llm/build_qwen3_8b.py:125-178 | with only the model path given, the intent is `./qwen3_8b_trtllm`, `bfloat16`, FP8 on, batch 8, input and output length 2048 |
| `BuildEngine.DefaultOutputDirNormalized` | trt-llm/build_qwen3_8b.py:131-135 | the default output directory reaches the compiler as `qwen3_8b_trtllm` |
| `BuildEngine.DefaultCapacityArgs` | trt-llm/build_qwen3_8b.py:149-165 | the default capacities are written as `8`, `2048` and `2048` after their flags |
| `InferenceTest.HealthUrl` | sh/test_inference.py:28 | the health URL: the endpoint followed by `/v2/health/ready` |
| `InferenceTest.ModelUrl` | sh/test_inference.py:39-69 | a per-model URL: the endpoint, `/v2/models/`, the model name and the suffix (`/ready` at line 39, `/generate` at line 69) |
| `InferenceTest.Payload` | sh/test_inference.py:71-79 | the generate body: `text_input` is the prompt; `parameters` holds `max_tokens`, `temperature`, `top_p` and the two stop sequences |
| `InferenceTest.Classify` | sh/test_inference.py:99-113 | the result of `generate_text` for one response: the decoded body on 200, otherwise an `error` entry with the body text, the decoding error or the transport error |
| `InferenceTest.GenerateText` | sh/test_inference.py:86-113 | one POST of the payload to the model's generate URL, with its response classified |
| `InferenceTest.Report` | sh/test_inference.py:186-192 | the logged verdict: failed with the `error` value when the result has that key, passed otherwise |
| `InferenceTest.Main` | sh/test_inference.py:163-192 | the run: the health probe, then the readiness probe, then one generation, each only after the previous step succeeded, with the requests issued in order and where the run stopped |
| `InferenceTest.ModelUrlInjective` | sh/test_inference.py:39-69 | two per-model URLs of one endpoint with the same suffix are equal only for the same model name |
| `InferenceTest.HealthIsNotReady` | sh/test_inference.py:28-39 | the health URL differs from every model-readiness URL of the same endpoint |
| `InferenceTest.TestHealth` | sh/test_inference.py:25-33 | true exactly when `GET endpoint + "/v2/health/ready"` returns a reply with status 200; false on any other status and on a transport error |
| `InferenceTest.TestModelReady` | sh/test_inference.py:36-48 | true exactly when `GET endpoint + "/v2/models/" + model + "/ready"` returns a reply with status 200; false otherwise |
| `InferenceTest.PayloadRoundTrip` | sh/test_inference.py:71-79 | reading the generate body gives back the prompt, `max_tokens`, `temperature` and `top_p` unchanged, and the stop list `STOP_SEQUENCES`: the end-of-text marker, then the end-of-turn marker |
| `InferenceTest.ClassifyCases` | sh/test_inference.py:99-113 | a 200 reply yields its decoded body; any other status yields `{"error": text}`; an undecodable 200 body or a transport error yields `{"error": message}` |
| `InferenceTest.ClassifyError` | sh/test_inference.py:99-113 | the result has an `"error"` key exactly when the request did not yield a decoded 200 body, or that body itself has an `"error"` key |
| `InferenceTest.UnhealthyStopsBeforeReadiness` | sh/test_inference.py:163-167 | if the health probe fails, the run issues only the health request and ends unhealthy; readiness is never checked |
| `InferenceTest.NotReadyStopsBeforeGeneration` | sh/test_inference.py:169-173 | if readiness fails, the run issues only the two probe GETs and ends not-ready; generation is never attempted |
| `InferenceTest.ReadyRunGeneratesOnce` | sh/test_inference.py:175-184 | when both probes succeed, exactly one POST is issued, to the generate URL with the body built from the arguments, and its classified result is reported |
| `InferenceTest.RunPassesIff` | sh/test_inference.py:186-192 | the run is reported successful exactly when both probes return 200 and generation returns a 200 whose decoded body has no `"error"` key |
| `InferenceTest.RunDependsOnIssuedRequestsOnly` | sh/test_inference.py:163-192 | two servers that agree on the requests a run issued give the same run |

## Left out

- Creating the output directory (`mkdir`), running the command through the shell, and the compiler itself. The compiler's exit code and the set of file names present afterwards are parameters of `BuildEngine.Build`. Only the exit code being zero or nonzero matters, so the encoding of `os.system`'s return value is not modelled.
- The shell's reading of the command string (quoting, expansion, collapsing of repeated spaces). The model proves the join loses nothing when no user-supplied string contains a space. It does not say what the shell does with a path that contains a space or shell metacharacters.
- BuildEngine.Fp8FlagsCoupled: states flag membership only when the model path, the normalised output directory and the dtype are not themselves FP8 flag names, because such a string would appear in the vector whatever `use_fp8` is. `BuildEngine.Fp8Placement` and `BuildEngine.Fp8OnlyDifference` state the placement for every input.
- BuildEngine.CommandSplitsIntoArgs: assumes the model path, the normalised output directory and the dtype contain no space, because otherwise splitting at spaces yields more words than the vector has.
- Decimal.ToInt: reads back only an optional '-' followed by digits. This covers everything `str` writes. Leading zeros are read as well. Python's `int()` also accepts surrounding whitespace, '+' and underscores, which are not modelled.
- Decimal.FromInt: ignores the interpreter's digit limit for integer-to-string conversion. Since Python 3.11, `str()` raises `ValueError` for an integer of more than 4300 digits, so `build_qwen3_8b` would raise before any command exists for such a capacity. The script's own command line cannot pass one, because `int()` has the same limit there.
- The argument parser's string-to-integer conversion, `--help`, and its messages. `CommandLine` holds the already converted values. A refusal is `UsageError`, which ends the script with status 2.
- Logging (its configuration at import time and every message). Two logged distinctions are kept: the level of an artifact check (`LogLevel`) and the pass or fail verdict of the validation run (`Verdict`).
- HTTP transport, the 5 s, 10 s and 300 s timeouts, and JSON encoding and decoding. A response carries its body already decoded, or the decoding error's message. A 200 body that decodes to JSON other than an object is not modelled.
- Wall-clock timing (`elapsed_time`). `temperature` and `top_p` are carried as opaque 64-bit values and never interpreted.
- The validation script's command-line parsing and defaults. `TestArgs` holds the parsed values.
