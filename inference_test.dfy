/**
  The inference validation script: a health probe and a model-readiness
  probe of a running Triton server, one generation request, and the
  workflow in `main` that runs them in that order, stops at the first
  probe that fails, and reports the generation result.

  The HTTP layer is an input. `server` gives the response to each request:
  a reply (status code, body text, and the body read as a JSON object or
  the message of the decoding error) or a transport error (connection
  refused, timeout, ...). Every failure becomes a value; nothing raises.
 */
module InferenceTest {
  import opened Wrappers

  /** A Python float: carried through unchanged, never computed with. */
  datatype Float = Float(bits: bv64)

  datatype Json =
    | JNull
    | JBool(b: bool)
    | JInt(i: int)
    | JFloat(f: Float)
    | JString(s: string)
    | JArray(items: seq<Json>)
    | JObject(fields: map<string, Json>)

  /** A Python dict read from or written as a JSON object. */
  type Dict = map<string, Json>

  datatype Request = Get(url: string) | Post(url: string, body: Json)

  datatype Response =
    | Reply(status: int, text: string, json: Result<Dict, string>)
    | TransportError(message: string)

  /** The response the server gives to each request. */
  type Server = Request -> Response

  predicate IsOk(r: Response) {
    r.Reply? && r.status == 200
  }

  // ---------------------------------------------------------------------------
  // Endpoints

  function HealthUrl(endpoint: string): string {
    endpoint + "/v2/health/ready"
  }

  /** A per-model URL; `suffix` is "/ready" or "/generate". */
  function ModelUrl(endpoint: string, model: string, suffix: string): string {
    endpoint + "/v2/models/" + model + suffix
  }

  function ReadyUrl(endpoint: string, model: string): string {
    ModelUrl(endpoint, model, "/ready")
  }

  function GenerateUrl(endpoint: string, model: string): string {
    ModelUrl(endpoint, model, "/generate")
  }

  /** Distinct model names give distinct model URLs: a request always names the model it was built for. */
  lemma ModelUrlInjective(endpoint: string, m1: string, m2: string, suffix: string)
    requires ModelUrl(endpoint, m1, suffix) == ModelUrl(endpoint, m2, suffix)
    ensures m1 == m2
  {
    var prefix := endpoint + "/v2/models/";
    var u1, u2 := ModelUrl(endpoint, m1, suffix), ModelUrl(endpoint, m2, suffix);
    assert u1 == prefix + m1 + suffix && u2 == prefix + m2 + suffix;
    assert |m1| == |m2|;
    assert u1[|prefix|..|prefix| + |m1|] == m1;
    assert u2[|prefix|..|prefix| + |m2|] == m2;
  }

  /** The health URL is never a model-readiness URL of the same endpoint. */
  lemma HealthIsNotReady(endpoint: string, model: string)
    ensures HealthUrl(endpoint) != ReadyUrl(endpoint, model)
  {
    var n := |endpoint|;
    assert HealthUrl(endpoint)[n + 4] == 'h';
    assert ReadyUrl(endpoint, model)[n + 4] == 'm';
  }

  // ---------------------------------------------------------------------------
  // The probes

  function HealthRequest(endpoint: string): Request {
    Get(HealthUrl(endpoint))
  }

  function ReadyRequest(endpoint: string, model: string): Request {
    Get(ReadyUrl(endpoint, model))
  }

  /** `test_health`: true exactly when the health URL answers 200; false on any other status or transport error. */
  function TestHealth(endpoint: string, server: Server): (ok: bool)
    ensures ok <==> server(Get(endpoint + "/v2/health/ready")).Reply?
                    && server(Get(endpoint + "/v2/health/ready")).status == 200
  {
    IsOk(server(HealthRequest(endpoint)))
  }

  /** `test_model_ready`: true exactly when the model's ready URL answers 200; false otherwise. */
  function TestModelReady(endpoint: string, model: string, server: Server): (ok: bool)
    ensures ok <==> server(Get(endpoint + "/v2/models/" + model + "/ready")).Reply?
                    && server(Get(endpoint + "/v2/models/" + model + "/ready")).status == 200
  {
    IsOk(server(ReadyRequest(endpoint, model)))
  }

  // ---------------------------------------------------------------------------
  // Generation

  /** The sampling inputs of `generate_text`. */
  datatype GenerationRequest = GenerationRequest(prompt: string, maxTokens: int, temperature: Float, topP: Float)

  const STOP_SEQUENCES: seq<string> := ["<|endoftext|>", "<|im_end|>"]

  /** The JSON body of the generate request. */
  function Payload(g: GenerationRequest): Json {
    JObject(map[
      "text_input" := JString(g.prompt),
      "parameters" := JObject(map[
        "max_tokens" := JInt(g.maxTokens),
        "temperature" := JFloat(g.temperature),
        "top_p" := JFloat(g.topP),
        "stop" := JArray(JStrings(STOP_SEQUENCES))
      ])
    ])
  }

  /** A list of strings as JSON strings, in order. */
  function JStrings(ss: seq<string>): seq<Json> {
    if ss == [] then [] else [JString(ss[0])] + JStrings(ss[1..])
  }

  /** The strings of a JSON array of strings, in order. */
  function Strings(items: seq<Json>): Option<seq<string>> {
    if items == [] then Some([])
    else if !items[0].JString? then None
    else
      var rest := Strings(items[1..]);
      if rest.None? then None else Some([items[0].s] + rest.value)
  }

  /** How a receiver reads a generate body: the sampling inputs and the stop sequences. */
  function ReadPayload(body: Json): Option<(GenerationRequest, seq<string>)> {
    if !body.JObject? then None
    else
      var f := body.fields;
      if !("text_input" in f && f["text_input"].JString? && "parameters" in f && f["parameters"].JObject?) then None
      else
        var p := f["parameters"].fields;
        if !("max_tokens" in p && p["max_tokens"].JInt?
             && "temperature" in p && p["temperature"].JFloat?
             && "top_p" in p && p["top_p"].JFloat?
             && "stop" in p && p["stop"].JArray?) then None
        else
          var stop := Strings(p["stop"].items);
          if stop.None? then None
          else Some((GenerationRequest(f["text_input"].s, p["max_tokens"].i, p["temperature"].f, p["top_p"].f), stop.value))
  }

  /** Reading a list of strings written as JSON strings gives the list back. */
  lemma {:induction false} StringsRoundTrip(ss: seq<string>)
    ensures Strings(JStrings(ss)) == Some(ss)
  {
    if ss != [] {
      StringsRoundTrip(ss[1..]);
      var items := JStrings(ss);
      assert items[0] == JString(ss[0]) && items[1..] == JStrings(ss[1..]);
      assert Strings(items) == Some([ss[0]] + ss[1..]);
      assert [ss[0]] + ss[1..] == ss;
    }
  }

  /**
    The body carries the prompt and the three sampling values unchanged,
    and the stop sequences "<|endoftext|>" then "<|im_end|>".
   */
  lemma PayloadRoundTrip(g: GenerationRequest)
    ensures ReadPayload(Payload(g)) == Some((g, STOP_SEQUENCES))
  {
    StringsRoundTrip(STOP_SEQUENCES);
  }

  function GenerateRequest(endpoint: string, model: string, g: GenerationRequest): Request {
    Post(GenerateUrl(endpoint, model), Payload(g))
  }

  /** The result of `generate_text` for a response: the body on 200, otherwise `{"error": ...}`. */
  function Classify(r: Response): Dict {
    match r
    case TransportError(message) => map["error" := JString(message)]
    case Reply(status, text, json) =>
      if status != 200 then map["error" := JString(text)]
      else if json.Failure? then map["error" := JString(json.error)]
      else json.value
  }

  /** `generate_text`: one POST to the generate URL, classified; it never raises. */
  function GenerateText(endpoint: string, model: string, g: GenerationRequest, server: Server): Dict {
    Classify(server(GenerateRequest(endpoint, model, g)))
  }

  /**
    A 200 reply yields its decoded body; any other status yields
    `{"error": text}`; a body that does not decode or a transport error
    yields `{"error": message}`.
   */
  lemma ClassifyCases(r: Response)
    ensures IsOk(r) && r.json.Success? ==> Classify(r) == r.json.value
    ensures r.Reply? && r.status != 200 ==> Classify(r) == map["error" := JString(r.text)]
    ensures IsOk(r) && r.json.Failure? ==> Classify(r) == map["error" := JString(r.json.error)]
    ensures r.TransportError? ==> Classify(r) == map["error" := JString(r.message)]
  {
  }

  /**
    The result carries an "error" key exactly when the request failed or
    the decoded 200 body itself has one.
   */
  lemma ClassifyError(r: Response)
    ensures "error" in Classify(r) <==> !(IsOk(r) && r.json.Success?) || "error" in r.json.value
  {
  }

  // ---------------------------------------------------------------------------
  // The workflow in main

  /** The parsed command line of the script. */
  datatype TestArgs = TestArgs(endpoint: string, model: string, prompt: string, maxTokens: int, temperature: Float, topP: Float)

  /** The verdict logged at the end: success exactly when the result has no "error" key. */
  datatype Verdict = Passed(result: Dict) | Failed(error: Json)

  function Report(result: Dict): Verdict {
    if "error" in result then Failed(result["error"]) else Passed(result)
  }

  /** Where the run stopped: at the health probe, at the readiness probe, or after generating. */
  datatype RunResult = ServerUnhealthy | ModelNotReady | Generated(verdict: Verdict)

  /** A run: the requests issued, in order, and how it ended. */
  datatype Run = Run(requests: seq<Request>, result: RunResult)

  function GenerationOf(args: TestArgs): GenerationRequest {
    GenerationRequest(args.prompt, args.maxTokens, args.temperature, args.topP)
  }

  /** `main`: health, then readiness, then one generation, each step only if the previous one succeeded. */
  function Main(args: TestArgs, server: Server): Run {
    var health := HealthRequest(args.endpoint);
    var ready := ReadyRequest(args.endpoint, args.model);
    var generate := GenerateRequest(args.endpoint, args.model, GenerationOf(args));
    if !TestHealth(args.endpoint, server) then Run([health], ServerUnhealthy)
    else if !TestModelReady(args.endpoint, args.model, server) then Run([health, ready], ModelNotReady)
    else Run([health, ready, generate], Generated(Report(GenerateText(args.endpoint, args.model, GenerationOf(args), server))))
  }

  /** An unhealthy server ends the run after the health probe: readiness is never checked. */
  lemma UnhealthyStopsBeforeReadiness(args: TestArgs, server: Server)
    requires !TestHealth(args.endpoint, server)
    ensures Main(args, server).result == ServerUnhealthy
    ensures Main(args, server).requests == [Get(HealthUrl(args.endpoint))]
    ensures ReadyRequest(args.endpoint, args.model) !in Main(args, server).requests
  {
    HealthIsNotReady(args.endpoint, args.model);
  }

  /** A model that is not ready ends the run after the two probes: generation is never attempted. */
  lemma NotReadyStopsBeforeGeneration(args: TestArgs, server: Server)
    requires TestHealth(args.endpoint, server) && !TestModelReady(args.endpoint, args.model, server)
    ensures Main(args, server).result == ModelNotReady
    ensures Main(args, server).requests == [Get(HealthUrl(args.endpoint)), Get(ReadyUrl(args.endpoint, args.model))]
    ensures forall r :: r in Main(args, server).requests ==> r.Get?
  {
  }

  /**
    When both probes succeed, exactly one generation request is sent, to
    the model's generate URL with the body built from the arguments, and
    its classified result is reported.
   */
  lemma ReadyRunGeneratesOnce(args: TestArgs, server: Server)
    requires TestHealth(args.endpoint, server) && TestModelReady(args.endpoint, args.model, server)
    ensures |Main(args, server).requests| == 3
    ensures forall k :: 0 <= k < 3 ==> (Main(args, server).requests[k].Post? <==> k == 2)
    ensures Main(args, server).requests[2] == Post(GenerateUrl(args.endpoint, args.model), Payload(GenerationOf(args)))
    ensures Main(args, server).result == Generated(Report(Classify(server(Main(args, server).requests[2]))))
  {
  }

  /**
    The run passes exactly when both probes answer 200 and the generate
    reply is a 200 whose decoded body has no "error" key.
   */
  lemma RunPassesIff(args: TestArgs, server: Server)
    ensures Main(args, server).result.Generated? && Main(args, server).result.verdict.Passed?
        <==> TestHealth(args.endpoint, server)
             && TestModelReady(args.endpoint, args.model, server)
             && var r := server(GenerateRequest(args.endpoint, args.model, GenerationOf(args)));
                IsOk(r) && r.json.Success? && "error" !in r.json.value
  {
    ClassifyError(server(GenerateRequest(args.endpoint, args.model, GenerationOf(args))));
  }

  /** A run depends only on the responses to the requests it issued. */
  lemma RunDependsOnIssuedRequestsOnly(args: TestArgs, s1: Server, s2: Server)
    requires forall r :: r in Main(args, s1).requests ==> s1(r) == s2(r)
    ensures Main(args, s2) == Main(args, s1)
  {
    var run := Main(args, s1);
    assert run.requests[0] == HealthRequest(args.endpoint);
    if |run.requests| >= 2 {
      assert run.requests[1] == ReadyRequest(args.endpoint, args.model);
    }
    if |run.requests| == 3 {
      assert run.requests[2] == GenerateRequest(args.endpoint, args.model, GenerationOf(args));
    }
  }
}
