/** The GigaAM engine: a one-entry model cache keyed by `(model_id,
    device)`, and the normalisation of whatever the SDK's model returns. */
module GigaAm {
  import opened Base
  import opened Text
  import opened Py

  const VARIANT_TORCH: string := "torch-like"
  const VARIANT_NO_TO: string := "unknown-no-to"
  const NOT_LOADED: string := "GigaAM model is not loaded"
  const NO_INTERFACE: string := "GigaAM: unsupported model interface (no transcribe() and not callable)"

  /** A model object as the engine inspects it: an identity, and whether it
      has a `to` method, a `transcribe` method, or is callable. */
  datatype Model = Model(id: nat, hasTo: bool, hasTranscribe: bool, isCallable: bool)

  /** How a model is run: `model.transcribe(path)` or `model(path)`. */
  datatype Interface = ViaTranscribe | ViaCall

  /** The SDK, which is outside this model: `gigaam.load_model(id)` (an
      import failure included), `model.to(device)`, and running a model on
      an audio file. */
  datatype Sdk = Sdk(
    loadModel: string -> Result<Model, Fault>,
    moveTo: (Model, string) -> Result<Model, Fault>,
    run: (Model, Interface, string) -> Result<Value, Fault>)

  /** The engine's fields `_loaded_key`, `_model` and `_sdk_variant`. */
  datatype Engine = Engine(loadedKey: Option<(string, string)>, model: Option<Model>, variant: Option<string>)

  const Initial: Engine := Engine(None, None, None)

  /** The cache holds a model for exactly this key. */
  predicate Cached(e: Engine, modelId: string, device: string) {
    e.loadedKey == Some((modelId, device)) && e.model.Some?
  }

  /** `load(model_id, device)`: the engine afterwards, or the fault raised;
      on a fault the engine keeps its previous state. */
  function Load(e: Engine, modelId: string, device: string, sdk: Sdk): (r: Result<Engine, Fault>)
    ensures Cached(e, modelId, device) ==> r == Ok(e)
    ensures r.Ok? ==> Cached(r.value, modelId, device)
  {
    if Cached(e, modelId, device) then Ok(e)
    else
      match sdk.loadModel(modelId)
      case Err(f) => Err(f)
      case Ok(m) =>
        if m.hasTo then
          match sdk.moveTo(m, device)
          case Err(f) => Err(Fault("RuntimeError", "GigaAM: failed to move model to device=" + device + ": " + f.message))
          case Ok(moved) => Ok(Engine(Some((modelId, device)), Some(moved), Some(VARIANT_TORCH)))
        else Ok(Engine(Some((modelId, device)), Some(m), Some(VARIANT_NO_TO)))
  }

  /** `meta` of every result. */
  function Meta(variant: Option<string>): map<string, Value>
  {
    map["sdk_variant" := OfOption(variant)]
  }

  /** The text before stripping: a string as it is, a dictionary's `text`
      (else its `result`, else `""`) and any other value through `str`. */
  function RawText(out: Value, render: Value -> string): string
  {
    match out
    case PyStr(s) => s
    case PyDict(d) => Str(Or(Or(Get(d, "text"), Get(d, "result")), PyStr("")), render)
    case _ => Str(out, render)
  }

  /** The normalisation of the model's output `out` for a request in
      `language`: a string is the text; a dictionary gives its `text` (else
      its `result`) and its own `language` (else the requested one); any
      other value is rendered with `str`. */
  function Normalise(out: Value, language: Option<string>, variant: Option<string>, render: Value -> string): (t: Transcript)
    ensures t.meta == Meta(variant)
  {
    var text := PyStrip(RawText(out, render));
    match out
    case PyDict(d) => Transcript(text, Or(Get(d, "language"), OfOption(language)), Get(d, "segments"), Meta(variant))
    case _ => Transcript(text, OfOption(language), PyNone, Meta(variant))
  }

  /** `transcribe(audio_path, language)`. */
  function Transcribe(e: Engine, audioPath: string, language: Option<string>, sdk: Sdk, render: Value -> string)
    : (r: Result<Transcript, Fault>)
    ensures e.model.None? ==> r == Err(Fault("RuntimeError", NOT_LOADED))
    ensures r.Ok? ==> r.value.meta == Meta(e.variant)
  {
    match e.model
    case None => Err(Fault("RuntimeError", NOT_LOADED))
    case Some(m) =>
      var out :=
        if m.hasTranscribe then sdk.run(m, ViaTranscribe, audioPath)
        else if m.isCallable then sdk.run(m, ViaCall, audioPath)
        else Err(Fault("RuntimeError", NO_INTERFACE));
      match out
      case Err(f) => Err(f)
      case Ok(v) => Ok(Normalise(v, language, e.variant, render))
  }

  // ---------------------------------------------------------------------
  // Properties.

  /** What a load that is not a cache hit does: a failing SDK load is
      passed on; a model with `to` is moved, and a failing move becomes a
      `RuntimeError` naming the device; a model without `to` is kept as it
      is.  The variant records which of the two happened. */
  lemma LoadOutcomes(e: Engine, modelId: string, device: string, sdk: Sdk)
    requires !Cached(e, modelId, device)
    ensures sdk.loadModel(modelId).Err? ==> Load(e, modelId, device, sdk) == Err(sdk.loadModel(modelId).error)
    ensures sdk.loadModel(modelId).Ok? ==>
              var m := sdk.loadModel(modelId).value;
              && (m.hasTo && sdk.moveTo(m, device).Err? ==>
                    var f := sdk.moveTo(m, device).error;
                    Load(e, modelId, device, sdk)
                      == Err(Fault("RuntimeError", "GigaAM: failed to move model to device=" + device + ": " + f.message)))
              && (m.hasTo && sdk.moveTo(m, device).Ok? ==>
                    Load(e, modelId, device, sdk)
                      == Ok(Engine(Some((modelId, device)), Some(sdk.moveTo(m, device).value), Some(VARIANT_TORCH))))
              && (!m.hasTo ==> Load(e, modelId, device, sdk) == Ok(Engine(Some((modelId, device)), Some(m), Some(VARIANT_NO_TO))))
  {
  }

  /** Loading the same key again is a cache hit: it changes nothing and
      does not consult the SDK at all. */
  lemma LoadIdempotent(e: Engine, modelId: string, device: string, sdk: Sdk, sdk2: Sdk)
    requires Load(e, modelId, device, sdk).Ok?
    ensures var e2 := Load(e, modelId, device, sdk).value;
      Load(e2, modelId, device, sdk2) == Ok(e2)
  {
  }

  /** A different key always goes to the SDK: with an SDK whose loads all
      fail, a loaded engine stays as it was. */
  lemma KeyChangeReloads(e: Engine, modelId: string, device: string, sdk: Sdk, f: Fault)
    requires Cached(e, modelId, device)
    requires forall id :: sdk.loadModel(id) == Err(f)
    ensures forall id, d :: (id, d) != (modelId, device) ==> Load(e, id, d, sdk) == Err(f)
  {
  }

  /** The three kinds of output: the text is stripped, the language is
      the caller's for a string and the output's own (when truthy) for a
      dictionary, and the text of a dictionary falls back from `text` to
      `result` to the empty string.  Any other output is rendered with
      `str`, with the caller's language and no segments. */
  lemma NormaliseOutputs(out: Value, language: Option<string>, variant: Option<string>, render: Value -> string)
    ensures out.PyStr? ==>
              Normalise(out, language, variant, render) == Transcript(PyStrip(out.s), OfOption(language), PyNone, Meta(variant))
    ensures out.PyDict? ==>
              var d := out.entries;
              var t := Normalise(out, language, variant, render);
              && (Truthy(Get(d, "text")) ==> t.text == PyStrip(Str(d["text"], render)))
              && (!Truthy(Get(d, "text")) && Truthy(Get(d, "result")) ==> t.text == PyStrip(Str(d["result"], render)))
              && (!Truthy(Get(d, "text")) && !Truthy(Get(d, "result")) ==> t.text == "")
              && (Truthy(Get(d, "language")) ==> t.language == d["language"])
              && (!Truthy(Get(d, "language")) ==> t.language == OfOption(language))
              && t.segments == Get(d, "segments")
    ensures !out.PyStr? && !out.PyDict? ==>
              Normalise(out, language, variant, render)
                == Transcript(PyStrip(Str(out, render)), OfOption(language), PyNone, Meta(variant))
  {
  }

  /** Every text the engine returns is already stripped. */
  lemma NormalisedTextStripped(out: Value, language: Option<string>, variant: Option<string>, render: Value -> string)
    ensures var t := Normalise(out, language, variant, render).text;
      PyStrip(t) == t && (|t| == 0 || (!IsPySpace(t[0]) && !IsPySpace(t[|t| - 1])))
  {
    TrimIdempotent(RawText(out, render), IsPySpace);
  }

  /** The SDK interface is chosen by `transcribe` first, then callability;
      a model with neither is refused. */
  lemma TranscribeInterface(e: Engine, audioPath: string, language: Option<string>, sdk: Sdk, render: Value -> string)
    requires e.model.Some?
    ensures var m := e.model.value;
      && (m.hasTranscribe && sdk.run(m, ViaTranscribe, audioPath).Ok? ==>
            Transcribe(e, audioPath, language, sdk, render)
              == Ok(Normalise(sdk.run(m, ViaTranscribe, audioPath).value, language, e.variant, render)))
      && (!m.hasTranscribe && m.isCallable && sdk.run(m, ViaCall, audioPath).Ok? ==>
            Transcribe(e, audioPath, language, sdk, render)
              == Ok(Normalise(sdk.run(m, ViaCall, audioPath).value, language, e.variant, render)))
      && (!m.hasTranscribe && !m.isCallable ==>
            Transcribe(e, audioPath, language, sdk, render) == Err(Fault("RuntimeError", NO_INTERFACE)))
  {
  }
}
