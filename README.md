# DiffusersModel: a verified model of the SDXL KServe adapter

This project models `code/rhoai/igm-repo/server.py`. That file is a KServe model server that wraps a
Stable Diffusion XL pipeline. The model covers the adapter's own logic:

- **Construction and `load`** (`Server.DiffusersModel`). A class holds the fields `modelId`, `loraDir`,
  `pipeline` and `ready`. `load` takes four steps in the source's order: load the weights, apply the
  device policy chosen by `--device`, merge LoRA weights when a directory is set, and only then set
  `ready`. The torch/diffusers calls are abstract steps. A `Backend` value says which of them succeed.
  The pipeline object is reduced to three things: where it was loaded from, how it was placed, and
  which LoRA directory was merged in.
- **Request-shape validation** (`Server.DiffusersModel.Preprocess`, specified by `Server.Validate`).
  - A dict holding `"instances"` sets `headers["request-type"] = "v1"` and yields `instances[0]`.
    The index follows Python's indexing rules for each kind of value.
  - A v2 `InferRequest` raises `InvalidInput("v2 protocol not implemented")`.
  - Anything else raises `InvalidInput("invalid payload")` and leaves the headers alone.
- **List-to-tuple normalisation** (`Normalize.ConvertListsToTuples`). The request payload is a tree of
  scalars, lists, tuples and dicts. A dict is a sequence of entries, which keeps Python's insertion
  order.
- **Response assembly in `predict`** (`Server.DiffusersModel.Predict`, `Server.Response`). The pipeline
  call and the PNG/base64 encoding are one opaque function `generate`. That function receives the
  pipeline and the normalised keyword arguments.

The module-level `args` object becomes an `Args` value given to the constructor. The class keeps it as
a constant, and `Load` reads `args.device` from it, just as the source reads the global inside `load`.

Four behaviours of the code are easy to misread; the model follows the code:

- **Invalid device string.** `from_pretrained` runs (line 30) before the device string is checked
  (line 49). An unknown device therefore raises `ValueError` only after the weights have loaded.
  If the weights fail to load, that failure is what gets reported. See
  `Server.InvalidDeviceAfterWeights`.
- **Lists inside tuples.** `convert_lists_to_tuples` does not look inside tuples, so a list inside a
  tuple survives normalisation. "No list at any depth" holds exactly for inputs whose tuples hold no
  lists (`Normalize.NoListIff`). JSON-decoded bodies contain no tuples, so it holds for every decoded
  request (`Normalize.NoListAfterJsonPayload`).
- **A second `load`.** `load` never resets `ready`. A second call that fails therefore leaves `ready`
  true. Its pipeline may then be left reloaded but unplaced, or placed without its LoRA weights (a
  failing `from_pretrained` keeps the old pipeline). `Load`'s contract states each case, and it keeps
  the invariant that a ready model has a pipeline loaded from its `model_id`. The model produced by `Create` (the whole `DiffusersModel(name)` call) is ready and fully
  loaded.
- **The echoed prompt.** `predict` echoes the prompt after normalisation, so a list-valued prompt comes
  back as a tuple. It is echoed verbatim when it holds no list (`Server.PromptEchoed`).

## Model

| member | source | states |
|---|---|---|
| `Normalize.ConvertListsToTuples` | code/rhoai/igm-repo/server.py:76-82 | a list becomes a tuple of the same length; a dict stays a dict with the same keys in the same order; scalars and tuples come back unchanged |
| `Normalize.ConvertItems` | code/rhoai/igm-repo/server.py:79-80 | the tuple built from a list has the list's length, and element i is the normal form of the list's element i (order kept) |
| `Normalize.ConvertEntries` | code/rhoai/igm-repo/server.py:77-78 | the rebuilt dict has exactly the same keys in the same order, and each value is the normal form of the original value under that key |
| `Normalize.ConvertIdempotent` | code/rhoai/igm-repo/server.py:76-82 | normalising twice gives the same result as normalising once, for every value |
| `Normalize.NoListIff` | code/rhoai/igm-repo/server.py:76-82 | the result holds no list at any depth if and only if every tuple reachable in the input is already list-free |
| `Normalize.ListInsideTupleSurvives` | code/rhoai/igm-repo/server.py:79-82 | a tuple holding a list still holds a list after normalisation, because tuples are not entered |
| `Normalize.TupleFreeIsNormalisable` | code/rhoai/igm-repo/server.py:76-82 | a value without tuples (a JSON-decoded body) meets the condition of NoListIff |
| `Normalize.NoListAfterJsonPayload` | code/rhoai/igm-repo/server.py:76-82 | a JSON-decoded payload holds no list anywhere after normalisation |
| `Normalize.ListFreeUnchanged` | code/rhoai/igm-repo/server.py:76-82 | a value with no list is returned unchanged |
| `Normalize.ConvertKeepsWellFormed` | code/rhoai/igm-repo/server.py:77-78 | if every dict in the input has distinct keys, so does every dict in the result |
| `Normalize.NestedListsBecomeTuples` | code/rhoai/igm-repo/server.py:79-80 | nested lists `[[1,2],[3,4]]` under a key become nested tuples, and the string prompt is untouched |
| `Normalize.LookupAfterConvert` | code/rhoai/igm-repo/server.py:103 | looking a key up in the normalised dict gives the normal form of the original value under that key, and KeyError exactly when the original lacks it |
| `Values.Lookup` | code/rhoai/igm-repo/server.py:74 | `d[key]` is absent exactly when the key is not among the dict's keys, and otherwise is a value stored under that key |
| `Server.ModelIdOf` | code/rhoai/igm-repo/server.py:19 | `model_id` is the argument when it is non-empty and `"/mnt/models"` otherwise, so it is never empty |
| `Server.LoraDirOf` | code/rhoai/igm-repo/server.py:20 | `lora_dir` is the argument when it is non-empty and None otherwise |
| `Server.DevicePolicy` | code/rhoai/igm-repo/server.py:38-52 | a missing or empty device means cuda; a recognised string selects the policy whose name it is; the string is rejected exactly when it names no policy, with `ValueError("Invalid device: …")` |
| `Server.DevicePolicyOfName` | code/rhoai/igm-repo/server.py:40-47 | each of "cuda", "cpu", "enable_model_cpu_offload" and "enable_sequential_cpu_offload" selects its own policy |
| `Server.LoadError` | code/rhoai/igm-repo/server.py:30-61 | `load` succeeds exactly when the weights load, the device is valid and placement succeeds, and the LoRA merge succeeds whenever a directory is set; a weight-loading failure takes precedence over an invalid device, which precedes a placement failure, which precedes a LoRA-merge failure; each step's failure names that step |
| `Server.InvalidDeviceAfterWeights` | code/rhoai/igm-repo/server.py:30-49 | an unknown device string raises ValueError only once the weights have loaded; otherwise the weight-loading failure is raised |
| `Server.DiffusersModel.constructor` | code/rhoai/igm-repo/server.py:15-22 | the fields start from the launch arguments with their defaults, with no pipeline and `ready` false |
| `Server.DiffusersModel.Load` | code/rhoai/igm-repo/server.py:26-61 | the raised error is LoadError's; `ready` becomes true exactly on success and is otherwise unchanged; the pipeline is replaced only once the weights load; it is placed only when the device is valid and placement succeeds; LoRA is merged only after placement, and only on success; on success the pipeline is fully loaded; a ready model keeps a pipeline loaded from `model_id` |
| `Server.Create` | code/rhoai/igm-repo/server.py:15-24 | constructing the model fails exactly when `load` raises, with the same error; a model that is produced is fresh, keeps the caller's arguments, has `model_id` and `lora_dir` with their defaults, is ready, is placed per the caller's `--device` and has the caller's LoRA directory merged |
| `Server.FirstInstance` | code/rhoai/igm-repo/server.py:74 | `instances[0]` is the first element of a non-empty list or tuple, or the first character of a non-empty string; IndexError exactly for an empty list, tuple or string; KeyError for a dict; TypeError for any other scalar |
| `Server.Validate` | code/rhoai/igm-repo/server.py:66-74 | InvalidInput is raised exactly when the payload is not a dict holding "instances"; "v2 protocol not implemented" exactly for an InferRequest; "invalid payload" for everything else; a v1 dict yields its first instance |
| `Server.DiffusersModel.Preprocess` | code/rhoai/igm-repo/server.py:63-74 | for a v1 dict, headers gain `request-type = v1` with every other entry kept, even if the instance lookup then fails; for any other payload the headers are unchanged; with no headers map, a v1 request raises TypeError |
| `Server.Image` | code/rhoai/igm-repo/server.py:104 | the image entry has exactly the keys "format" and "b64", with format "PNG" and the encoded string |
| `Server.Prediction` | code/rhoai/igm-repo/server.py:101-105 | a prediction has exactly the keys "model_name", "prompt" and "image", in that order, holding the model id, the prompt and the image |
| `Server.Response` | code/rhoai/igm-repo/server.py:99-107 | the response holds only "predictions": a list of exactly one prediction, which is exactly the `Prediction` dict (keys "model_name", "prompt", "image") whose image is exactly the `Image` dict (keys "format" = "PNG", "b64") |
| `Server.ResponseWellFormed` | code/rhoai/igm-repo/server.py:99-107 | the response dicts never repeat a key |
| `Server.DiffusersModel.Predict` | code/rhoai/igm-repo/server.py:84-107 | with no pipeline or a non-dict payload, predict raises TypeError; an error from generation passes through unchanged; a payload without "prompt" raises KeyError after the image is made; otherwise the result is the single-prediction response with `model_id` and the normalised prompt |
| `Server.ReadyModelHasPipeline` | code/rhoai/igm-repo/server.py:22-61 | for a ready model the pipeline exists, so predict succeeds exactly when the payload is a dict, generation succeeds and "prompt" is present |
| `Server.PromptEchoed` | code/rhoai/igm-repo/server.py:63-107 | after `preprocess` of a v1 body whose first instance has a prompt holding no list, `predict` echoes that prompt verbatim with the configured model id |
| `Server.RedFoxRequest` | code/rhoai/igm-repo/server.py:63-107 | the body `{"instances": [{"prompt": "a red fox"}]}` validates to its instance, and predict answers with "a red fox" |

## Left out

- The internals of `StableDiffusionXLPipeline.from_pretrained`, `.to`, `enable_model_cpu_offload`, `enable_sequential_cpu_offload` and `load_lora_weights` (lines 30-56). These are foreign torch/diffusers calls. Each is an abstract step that succeeds or raises, as chosen by `Backend`. A placement call that raises leaves the model's pipeline unplaced.
- The pipeline call `self.pipeline(**payload).images[0]` and the PNG/base64 encoding (lines 92-97) are one uninterpreted function, `generate`. It receives the pipeline and the normalised payload. Its errors pass through unchanged. Keyword-name checking inside diffusers is not modelled.
- The pipeline object is mutated in place by `.to`, the offload methods and the LoRA merge. The model reassigns an abstract `Pipeline` value instead, so aliasing of that object is not captured.
- Logging, `print`, argparse setup, module-level `args` parsing and `ModelServer().start` (lines 110-135) are process and I/O plumbing. The parsed arguments enter as an `Args` value.
- `super().__init__(name)` (line 16) belongs to the KServe base class. Only the name is kept.
- Concurrent use of the shared pipeline is owned by the serving framework. No code here handles it.
- Values are modelled as JSON-decoded request bodies. Dict keys are strings, so `instances[0]` on a dict always raises KeyError. Floats are exact reals, not IEEE doubles. The contents of a v2 `InferRequest` are reduced to a tag.
