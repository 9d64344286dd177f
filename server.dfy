/**
 * The KServe model `DiffusersModel`: construction from the launch
 * arguments, `load` (weights, device policy, LoRA merge, readiness),
 * `preprocess` (request-shape validation) and the response assembly of
 * `predict`. The torch/diffusers calls are abstract steps that may fail,
 * and image generation with its PNG/base64 encoding is an opaque function.
 */
module Server {
  import opened Wrappers
  import opened Values
  import opened Normalize

  const DEFAULT_MODEL_ID := "/mnt/models"
  const REQUEST_TYPE_HEADER := "request-type"
  const INSTANCES_KEY := "instances"
  const PROMPT_KEY := "prompt"
  const V2_NOT_IMPLEMENTED := "v2 protocol not implemented"
  const INVALID_PAYLOAD := "invalid payload"

  /** The foreign calls `load` makes. */
  datatype Call = FromPretrained | Place(placement: Placement) | LoadLoraWeights

  /** The exceptions these code paths raise. */
  datatype Error =
    | InvalidInput(message: string)   // kserve.errors.InvalidInput
    | ValueError(message: string)
    | TypeError
    | IndexError
    | KeyError(key: Scalar)
    | BackendError(call: Call)        // raised inside torch/diffusers

  /** Which of the foreign calls of `load` succeed. */
  datatype Backend = Backend(weightsLoad: bool, placement: bool, loraMerge: bool)

  /** The launch arguments `--model_id`, `--lora_dir` and `--device`, each possibly absent. */
  datatype Args = Args(modelId: Option<string>, loraDir: Option<string>, device: Option<string>)

  /** The four device policies: pin to cuda or cpu, or one of the two offload modes. */
  datatype Placement = Cuda | Cpu | ModelCpuOffload | SequentialCpuOffload

  /**
   * The pipeline object, abstracted to what `load` does to it: where it was
   * loaded from, how it was placed, and which LoRA directory was merged in.
   */
  datatype Pipeline = Pipeline(source: string, placement: Option<Placement>, lora: Option<string>)

  /** The request a model server hands to `preprocess`: a decoded body, or a v2 InferRequest. */
  datatype Payload = Body(body: Value) | InferRequest(modelName: string)

  /** Python truthiness of an optional string: present and non-empty. */
  predicate Truthy(s: Option<string>)
  {
    s.Some? && s.value != ""
  }

  /** `args.model_id or "/mnt/models"` */
  function ModelIdOf(args: Args): (id: string)
    ensures id != ""
    ensures Truthy(args.modelId) ==> id == args.modelId.value
    ensures !Truthy(args.modelId) ==> id == DEFAULT_MODEL_ID
  {
    if Truthy(args.modelId) then args.modelId.value else DEFAULT_MODEL_ID
  }

  /** `args.lora_dir or None` */
  function LoraDirOf(args: Args): (dir: Option<string>)
    ensures dir.None? || Truthy(dir)
    ensures Truthy(args.loraDir) ==> dir == args.loraDir
    ensures !Truthy(args.loraDir) ==> dir == None
  {
    if Truthy(args.loraDir) then args.loraDir else None
  }

  /** The `--device` string that selects each policy. */
  function DeviceName(p: Placement): string
  {
    match p
    case Cuda => "cuda"
    case Cpu => "cpu"
    case ModelCpuOffload => "enable_model_cpu_offload"
    case SequentialCpuOffload => "enable_sequential_cpu_offload"
  }

  /**
   * The if/elif chain of `load` on `args.device`: a missing or empty device
   * means cuda, one of the four names selects its policy, and any other
   * string raises ValueError.
   */
  function DevicePolicy(device: Option<string>): (r: Result<Placement, Error>)
    ensures !Truthy(device) ==> r == Success(Cuda)
    ensures Truthy(device) && r.Success? ==> DeviceName(r.value) == device.value
    ensures r.Failure? <==> Truthy(device) && forall p: Placement :: DeviceName(p) != device.value
    ensures r.Failure? ==> r.error == ValueError("Invalid device: " + device.value)
  {
    if !Truthy(device) then Success(Cuda)
    else if device.value == "cuda" then Success(Cuda)
    else if device.value == "cpu" then Success(Cpu)
    else if device.value == "enable_model_cpu_offload" then Success(ModelCpuOffload)
    else if device.value == "enable_sequential_cpu_offload" then Success(SequentialCpuOffload)
    else Failure(ValueError("Invalid device: " + device.value))
  }

  /** Each policy's own name selects it. */
  lemma DevicePolicyOfName(p: Placement)
    ensures DevicePolicy(Some(DeviceName(p))) == Success(p)
  {
  }

  /**
   * The exception `load` raises, if any, in the order the code makes its
   * calls: the weights load first, then the device string is checked and
   * the pipeline placed, then LoRA weights are merged when a directory is set.
   */
  function LoadError(device: Option<string>, loraDir: Option<string>, backend: Backend): (e: Option<Error>)
    ensures e.None? <==>
      backend.weightsLoad && DevicePolicy(device).Success? && backend.placement
      && (Truthy(loraDir) ==> backend.loraMerge)
    ensures !backend.weightsLoad ==> e == Some(BackendError(FromPretrained))
    ensures backend.weightsLoad && DevicePolicy(device).Failure? ==> e == Some(DevicePolicy(device).error)
    ensures backend.weightsLoad && DevicePolicy(device).Success? && !backend.placement ==>
      e == Some(BackendError(Place(DevicePolicy(device).value)))
    ensures backend.weightsLoad && DevicePolicy(device).Success? && backend.placement
            && Truthy(loraDir) && !backend.loraMerge ==>
      e == Some(BackendError(LoadLoraWeights))
    ensures e.Some? && e.value == BackendError(LoadLoraWeights) ==> Truthy(loraDir)
  {
    if !backend.weightsLoad then Some(BackendError(FromPretrained))
    else match DevicePolicy(device)
      case Failure(err) => Some(err)
      case Success(p) =>
        if !backend.placement then Some(BackendError(Place(p)))
        else if Truthy(loraDir) && !backend.loraMerge then Some(BackendError(LoadLoraWeights))
        else None
  }

  /** An unknown device string is reported only after the weights have loaded. */
  lemma InvalidDeviceAfterWeights(device: string, loraDir: Option<string>, backend: Backend)
    requires device != "" && forall p: Placement :: DeviceName(p) != device
    ensures backend.weightsLoad ==> LoadError(Some(device), loraDir, backend) == Some(ValueError("Invalid device: " + device))
    ensures !backend.weightsLoad ==> LoadError(Some(device), loraDir, backend) == Some(BackendError(FromPretrained))
  {
  }

  /** A LoRA directory is only ever merged into a placed pipeline. */
  predicate MergedAfterPlacement(p: Pipeline)
  {
    p.lora.Some? ==> p.placement.Some?
  }

  /** `"instances" in payload` for a dict payload. */
  predicate IsV1(payload: Payload)
  {
    payload.Body? && payload.body.Dict? && INSTANCES_KEY in Keys(payload.body.entries)
  }

  /**
   * `instances[0]` with Python's indexing: the first element of a list or
   * tuple, the first character of a string, IndexError when empty,
   * KeyError on a dict (its keys are strings, never 0) and TypeError on
   * any other scalar.
   */
  function FirstInstance(instances: Value): (r: Result<Value, Error>)
    ensures (instances.List? || instances.Tuple?) ==>
      (r.Success? <==> |instances.items| > 0) && (r.Success? ==> r.value == instances.items[0])
    ensures r == Failure(IndexError) <==>
      ((instances.List? || instances.Tuple?) && instances.items == [])
      || instances == Scalar(Str(""))
    ensures instances.Dict? ==> r == Failure(KeyError(Int(0)))
    ensures instances.Scalar? && !instances.scalar.Str? ==> r == Failure(TypeError)
    ensures instances.Scalar? && instances.scalar.Str? && instances.scalar.s != "" ==>
      r == Success(Scalar(Str(instances.scalar.s[..1])))
    ensures r.Success? && instances.Scalar? ==>
      instances.scalar.Str? && r.value == Scalar(Str(instances.scalar.s[..1]))
  {
    match instances
    case List(items) => if items == [] then Failure(IndexError) else Success(items[0])
    case Tuple(items) => if items == [] then Failure(IndexError) else Success(items[0])
    case Dict(_) => Failure(KeyError(Int(0)))
    case Scalar(Str(s)) => if s == "" then Failure(IndexError) else Success(Scalar(Str(s[..1])))
    case Scalar(_) => Failure(TypeError)
  }

  /**
   * What `preprocess` returns or raises, given a headers map to write to.
   * The two InvalidInput errors are raised exactly for the two rejected
   * shapes, and never by the lookup of the first instance.
   */
  function Validate(payload: Payload): (r: Result<Value, Error>)
    ensures (r.Failure? && r.error.InvalidInput?) <==> !IsV1(payload)
    ensures r == Failure(InvalidInput(V2_NOT_IMPLEMENTED)) <==> payload.InferRequest?
    ensures r == Failure(InvalidInput(INVALID_PAYLOAD)) <==> !payload.InferRequest? && !IsV1(payload)
    ensures IsV1(payload) ==>
      Lookup(payload.body.entries, INSTANCES_KEY).Some? &&
      r == FirstInstance(Lookup(payload.body.entries, INSTANCES_KEY).value)
  {
    if IsV1(payload) then FirstInstance(Lookup(payload.body.entries, INSTANCES_KEY).value)
    else if payload.InferRequest? then Failure(InvalidInput(V2_NOT_IMPLEMENTED))
    else Failure(InvalidInput(INVALID_PAYLOAD))
  }

  /** The `"image"` entry of a prediction: {"format": "PNG", "b64": ...}. */
  function Image(b64: string): (r: Value)
    ensures r.Dict? && Keys(r.entries) == ["format", "b64"]
    ensures Get(r, "format") == Some(Scalar(Str("PNG")))
    ensures Get(r, "b64") == Some(Scalar(Str(b64)))
  {
    var r := Dict([Entry("format", Scalar(Str("PNG"))), Entry("b64", Scalar(Str(b64)))]);
    assert Keys(r.entries[1..]) == ["b64"];
    assert Lookup(r.entries[1..], "b64") == Some(Scalar(Str(b64)));
    r
  }

  /** One prediction: {"model_name": ..., "prompt": ..., "image": ...}. */
  function Prediction(modelName: string, prompt: Value, b64: string): (r: Value)
    ensures r.Dict? && Keys(r.entries) == ["model_name", PROMPT_KEY, "image"]
    ensures Get(r, "model_name") == Some(Scalar(Str(modelName)))
    ensures Get(r, PROMPT_KEY) == Some(prompt)
    ensures Get(r, "image") == Some(Image(b64))
  {
    var r := Dict([
      Entry("model_name", Scalar(Str(modelName))),
      Entry(PROMPT_KEY, prompt),
      Entry("image", Image(b64))]);
    assert r.entries[1..][1..] == r.entries[2..];
    assert Keys(r.entries[2..]) == ["image"];
    assert Lookup(r.entries[2..], "image") == Some(Image(b64));
    r
  }

  /**
   * The dict `predict` returns: exactly one prediction, naming the model,
   * echoing the prompt and carrying the PNG image as base64.
   */
  function Response(modelName: string, prompt: Value, b64: string): (r: Value)
    ensures r.Dict? && Keys(r.entries) == ["predictions"]
    ensures Get(r, "predictions") == Some(List([Prediction(modelName, prompt, b64)]))
    ensures var predictions := Get(r, "predictions");
      && predictions.Some? && predictions.value.List? && |predictions.value.items| == 1
      && var prediction := predictions.value.items[0];
      && Get(prediction, "model_name") == Some(Scalar(Str(modelName)))
      && Get(prediction, PROMPT_KEY) == Some(prompt)
      && Get(prediction, "image").Some?
      && Get(Get(prediction, "image").value, "format") == Some(Scalar(Str("PNG")))
      && Get(Get(prediction, "image").value, "b64") == Some(Scalar(Str(b64)))
  {
    var prediction := Prediction(modelName, prompt, b64);
    var r := Dict([Entry("predictions", List([prediction]))]);
    assert Get(r, "predictions") == Some(List([prediction]));
    assert Get(prediction, "image") == Some(Image(b64));
    r
  }

  /** The response holds no repeated key: a faithful Python dict. */
  lemma ResponseWellFormed(modelName: string, prompt: Value, b64: string)
    requires WellFormed(prompt)
    ensures WellFormed(Response(modelName, prompt, b64))
  {
    var prediction := Get(Response(modelName, prompt, b64), "predictions").value.items[0];
    assert WellFormed(Get(prediction, "image").value);
    assert DistinctKeys(prediction.entries);
    assert forall i :: 0 <= i < |prediction.entries| ==> WellFormed(prediction.entries[i].val) by {
      assert prediction.entries[1].val == prompt;
    }
  }

  /** A mutable header map, as the model server passes it by reference. */
  class Headers {
    var entries: map<string, string>

    constructor (entries: map<string, string>)
      ensures this.entries == entries
    {
      this.entries := entries;
    }
  }

  class DiffusersModel {
    const name: string
    /** The launch arguments; `load` consults `args.device` as the source does. */
    const args: Args
    var modelId: string
    var loraDir: Option<string>
    var pipeline: Option<Pipeline>
    var ready: bool

    /** What readiness always guarantees: a pipeline loaded from `modelId` exists. */
    ghost predicate ReadyHasPipeline()
      reads this
    {
      ready ==> pipeline.Some? && pipeline.value.source == modelId
    }

    /** The pipeline is loaded from `modelId`, placed by `args.device`, with `loraDir` merged if set. */
    ghost predicate FullyLoaded()
      reads this
    {
      && pipeline.Some?
      && pipeline.value.source == modelId
      && DevicePolicy(args.device).Success?
      && pipeline.value.placement == Some(DevicePolicy(args.device).value)
      && pipeline.value.lora == (if Truthy(loraDir) then loraDir else None)
    }

    /** The field set-up of `__init__`, before it calls `load`. */
    constructor (name: string, args: Args)
      ensures this.name == name && this.args == args
      ensures modelId == ModelIdOf(args) && loraDir == LoraDirOf(args)
      ensures pipeline == None && !ready
      ensures ReadyHasPipeline()
    {
      this.name := name;
      this.args := args;
      modelId := ModelIdOf(args);
      loraDir := LoraDirOf(args);
      pipeline := None;
      ready := false;
    }

    /**
     * `load`: load the weights, apply the device policy, merge LoRA weights
     * when a directory is set, and only then become ready. `ready` is never
     * reset, so a failing call leaves it as it was.
     */
    method Load(backend: Backend) returns (raised: Option<Error>)
      modifies this
      ensures raised == LoadError(args.device, loraDir, backend)
      ensures modelId == old(modelId) && loraDir == old(loraDir)
      ensures ready == (old(ready) || raised.None?)
      ensures !backend.weightsLoad ==> pipeline == old(pipeline)
      ensures backend.weightsLoad ==>
        && pipeline.Some?
        && pipeline.value.source == modelId
        && pipeline.value.placement ==
             (if DevicePolicy(args.device).Success? && backend.placement
              then Some(DevicePolicy(args.device).value) else None)
        && pipeline.value.lora == (if raised.None? && Truthy(loraDir) then loraDir else None)
      ensures pipeline != old(pipeline) ==> MergedAfterPlacement(pipeline.value)
      ensures raised.None? ==> FullyLoaded()
      ensures old(ReadyHasPipeline()) ==> ReadyHasPipeline()
    {
      if !backend.weightsLoad {
        return Some(BackendError(FromPretrained));
      }
      pipeline := Some(Pipeline(modelId, None, None));
      var policy := DevicePolicy(args.device);
      if policy.Failure? {
        return Some(policy.error);
      }
      if !backend.placement {
        return Some(BackendError(Place(policy.value)));
      }
      pipeline := Some(pipeline.value.(placement := Some(policy.value)));
      if Truthy(loraDir) {
        if !backend.loraMerge {
          return Some(BackendError(LoadLoraWeights));
        }
        pipeline := Some(pipeline.value.(lora := loraDir));
      }
      ready := true;
      return None;
    }

    /**
     * `preprocess`: a dict holding "instances" marks the request as v1 in
     * the headers and yields its first instance; anything else raises
     * InvalidInput and leaves the headers alone. The headers are written
     * before the instance is read, so an empty instance list still marks them.
     */
    method Preprocess(payload: Payload, headers: Headers?) returns (r: Result<Value, Error>)
      modifies headers
      ensures IsV1(payload) && headers == null ==> r == Failure(TypeError)
      ensures IsV1(payload) && headers != null ==>
        r == Validate(payload) && headers.entries == old(headers.entries)[REQUEST_TYPE_HEADER := "v1"]
      ensures !IsV1(payload) ==>
        r == Validate(payload) && (headers != null ==> headers.entries == old(headers.entries))
    {
      if payload.Body? && payload.body.Dict? && INSTANCES_KEY in Keys(payload.body.entries) {
        if headers == null {
          return Failure(TypeError);
        }
        headers.entries := headers.entries[REQUEST_TYPE_HEADER := "v1"];
      } else if payload.InferRequest? {
        return Failure(InvalidInput(V2_NOT_IMPLEMENTED));
      } else {
        return Failure(InvalidInput(INVALID_PAYLOAD));
      }
      r := FirstInstance(Lookup(payload.body.entries, INSTANCES_KEY).value);
    }

    /**
     * `predict`: normalise the payload, call the pipeline with it as keyword
     * arguments (`generate` stands for the pipeline call followed by PNG and
     * base64 encoding), then echo the normalised prompt. Calling a missing
     * pipeline, or expanding a non-dict with `**`, raises TypeError; a
     * payload without "prompt" raises KeyError after the image is made.
     */
    function Predict(payload: Value, generate: (Pipeline, Value) -> Result<string, Error>): (r: Result<Value, Error>)
      reads this
      ensures pipeline.None? || !payload.Dict? ==> r == Failure(TypeError)
      ensures r.Success? <==>
        && pipeline.Some? && payload.Dict?
        && generate(pipeline.value, ConvertListsToTuples(payload)).Success?
        && Get(payload, PROMPT_KEY).Some?
      ensures pipeline.Some? && payload.Dict?
              && generate(pipeline.value, ConvertListsToTuples(payload)).Failure? ==>
        r == Failure(generate(pipeline.value, ConvertListsToTuples(payload)).error)
      ensures pipeline.Some? && payload.Dict?
              && generate(pipeline.value, ConvertListsToTuples(payload)).Success?
              && Get(payload, PROMPT_KEY).None? ==>
        r == Failure(KeyError(Str(PROMPT_KEY)))
      ensures r.Success? ==>
        r.value == Response(modelId,
                            ConvertListsToTuples(Get(payload, PROMPT_KEY).value),
                            generate(pipeline.value, ConvertListsToTuples(payload)).value)
    {
      if pipeline.None? || !payload.Dict? then Failure(TypeError)
      else
        var kwargs := ConvertListsToTuples(payload);
        match generate(pipeline.value, kwargs)
        case Failure(err) => Failure(err)
        case Success(b64) =>
          LookupAfterConvert(payload.entries, PROMPT_KEY);
          match Lookup(kwargs.entries, PROMPT_KEY)
          case None => Failure(KeyError(Str(PROMPT_KEY)))
          case Some(prompt) => Success(Response(modelId, prompt, b64))
    }
  }

  /**
   * `DiffusersModel(name)`: set the fields up, then `load`; an exception in
   * `load` propagates, so no model is produced. A model that is produced
   * is ready and fully loaded.
   */
  method Create(name: string, args: Args, backend: Backend) returns (r: Result<DiffusersModel, Error>)
    ensures r.Failure? <==> LoadError(args.device, LoraDirOf(args), backend).Some?
    ensures r.Failure? ==> r.error == LoadError(args.device, LoraDirOf(args), backend).value
    ensures r.Success? ==>
      && fresh(r.value)
      && r.value.name == name && r.value.args == args
      && r.value.modelId == ModelIdOf(args) && r.value.loraDir == LoraDirOf(args)
      && r.value.ready && r.value.FullyLoaded() && r.value.ReadyHasPipeline()
  {
    var model := new DiffusersModel(name, args);
    var raised := model.Load(backend);
    if raised.Some? {
      return Failure(raised.value);
    }
    return Success(model);
  }

  /**
   * A v1 request whose first instance carries a prompt holding no list (a
   * string, say) comes back from `predict` with that prompt verbatim, the
   * configured model name and the generated image.
   */
  lemma PromptEchoed(model: DiffusersModel, body: Value, prompt: Value,
                     generate: (Pipeline, Value) -> Result<string, Error>)
    requires Validate(Body(body)).Success?
    requires Get(Validate(Body(body)).value, PROMPT_KEY) == Some(prompt)
    requires NoList(prompt)
    requires model.pipeline.Some?
    requires generate(model.pipeline.value, ConvertListsToTuples(Validate(Body(body)).value)).Success?
    ensures model.Predict(Validate(Body(body)).value, generate) ==
      Success(Response(model.modelId, prompt,
        generate(model.pipeline.value, ConvertListsToTuples(Validate(Body(body)).value)).value))
  {
    ListFreeUnchanged(prompt);
  }

  /** A model that is ready never hits the missing-pipeline TypeError of `predict`. */
  lemma ReadyModelHasPipeline(model: DiffusersModel, payload: Value,
                              generate: (Pipeline, Value) -> Result<string, Error>)
    requires model.ReadyHasPipeline() && model.ready
    ensures model.pipeline.Some?
    ensures model.Predict(payload, generate).Success? <==>
      payload.Dict? && generate(model.pipeline.value, ConvertListsToTuples(payload)).Success?
      && Get(payload, PROMPT_KEY).Some?
  {
  }

  /** {"instances": [{"prompt": "a red fox"}]} yields a response echoing "a red fox". */
  lemma RedFoxRequest(model: DiffusersModel, generate: (Pipeline, Value) -> Result<string, Error>)
    requires model.pipeline.Some?
    requires generate(model.pipeline.value, Dict([Entry(PROMPT_KEY, Scalar(Str("a red fox")))])).Success?
    ensures var instance := Dict([Entry(PROMPT_KEY, Scalar(Str("a red fox")))]);
      && Validate(Body(Dict([Entry(INSTANCES_KEY, List([instance]))]))) == Success(instance)
      && model.Predict(instance, generate) ==
           Success(Response(model.modelId, Scalar(Str("a red fox")),
                            generate(model.pipeline.value, instance).value))
  {
    var instance := Dict([Entry(PROMPT_KEY, Scalar(Str("a red fox")))]);
    assert ConvertListsToTuples(instance) == instance by {
      ListFreeUnchanged(instance);
    }
  }
}
