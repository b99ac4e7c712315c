/** The Whisper engine: a one-entry model cache keyed by `(model_id,
    device)`, the `fp16` default, and the projection of the result onto
    JSON-friendly segments. */
module Whisper {
  import opened Base
  import opened Text
  import opened Py

  const NOT_LOADED: string := "Whisper model is not loaded"

  /** The keys every projected segment has, in the order they are written. */
  const SEGMENT_KEYS: seq<string> := ["id", "start", "end", "text", "avg_logprob", "no_speech_prob"]

  /** A loaded model, known by its identity. */
  datatype Model = Model(id: nat)

  /** The `whisper` package, which is outside this model:
      `whisper.load_model(id, device=device)` (an import failure included)
      and `model.transcribe(path, language=..., fp16=...)`. */
  datatype Sdk = Sdk(
    loadModel: (string, string) -> Result<Model, Fault>,
    run: (Model, string, Value, Value) -> Result<Value, Fault>)

  /** The engine's fields `_loaded_key` and `_model`. */
  datatype Engine = Engine(loadedKey: Option<(string, string)>, model: Option<Model>)

  const Initial: Engine := Engine(None, None)

  predicate Cached(e: Engine, modelId: string, device: string) {
    e.loadedKey == Some((modelId, device)) && e.model.Some?
  }

  /** `load(model_id, device)`: the engine afterwards, or the fault raised;
      on a fault the engine keeps its previous state. */
  function Load(e: Engine, modelId: string, device: string, sdk: Sdk): (r: Result<Engine, Fault>)
    ensures Cached(e, modelId, device) ==> r == Ok(e)
    ensures r.Ok? ==> Cached(r.value, modelId, device)
  {
    if Cached(e, modelId, device) then Ok(e)
    else
      match sdk.loadModel(modelId, device)
      case Err(f) => Err(f)
      case Ok(m) => Ok(Engine(Some((modelId, device)), Some(m)))
  }

  /** The `fp16` keyword: absent or `None` means `True`; anything else is
      passed on as given. */
  function Fp16(given: Option<Value>): (r: Value)
    ensures given.None? || given.value == PyNone ==> r == PyBool(true)
    ensures given.Some? && given.value != PyNone ==> r == given.value
  {
    if given.None? || given.value == PyNone then PyBool(true) else given.value
  }

  /** One segment reduced to the six keys; reading them needs `.get`, which
      only a dictionary has. */
  function ProjectSegment(s: Value): (r: Result<Value, Fault>)
  {
    match s
    case PyDict(d) =>
      Ok(PyDict(map[
        "id" := Get(d, "id"),
        "start" := Get(d, "start"),
        "end" := Get(d, "end"),
        "text" := Get(d, "text"),
        "avg_logprob" := Get(d, "avg_logprob"),
        "no_speech_prob" := Get(d, "no_speech_prob")]))
    case _ => Err(NoAttribute(s, "get"))
  }

  /** The list comprehension over the segments: projected one by one in
      order, stopping at the first one that is not a dictionary. */
  function ProjectSegments(items: seq<Value>): (r: Result<seq<Value>, Fault>)
    ensures r.Ok? <==> forall i :: 0 <= i < |items| ==> items[i].PyDict?
    ensures r.Ok? ==> |r.value| == |items|
    ensures r.Ok? ==> forall i :: 0 <= i < |items| ==> ProjectSegment(items[i]) == Ok(r.value[i])
    ensures r.Err? ==>
              exists i :: && 0 <= i < |items| && !items[i].PyDict?
                          && (forall j :: 0 <= j < i ==> items[j].PyDict?)
                          && r.error == NoAttribute(items[i], "get")
  {
    if |items| == 0 then Ok([])
    else
      match ProjectSegment(items[0])
      case Err(f) => Err(f)
      case Ok(first) =>
        match ProjectSegments(items[1..])
        case Err(f) =>
          assert forall i :: 1 <= i < |items| ==> items[i] == items[1..][i - 1];
          ghost var k :| && 0 <= k < |items[1..]| && !items[1..][k].PyDict?
                         && (forall j :: 0 <= j < k ==> items[1..][j].PyDict?)
                         && f == NoAttribute(items[1..][k], "get");
          assert !items[k + 1].PyDict? && forall j :: 0 <= j < k + 1 ==> items[j].PyDict?;
          Err(f)
        case Ok(rest) =>
          assert forall i :: 1 <= i < |items| ==> items[i] == items[1..][i - 1];
          Ok([first] + rest)
  }

  /** Building the engine's dictionary from the model's result. */
  function Normalise(result: Value): (r: Result<Transcript, Fault>)
  {
    match result
    case PyDict(d) =>
      var segments := Get(d, "segments");
      var projected :=
        match segments
        case PyList(items) =>
          (match ProjectSegments(items)
           case Ok(ps) => Ok(PyList(ps))
           case Err(f) => Err(f))
        case _ => Ok(segments);
      (match projected
       case Err(f) => Err(f)
       case Ok(segs) =>
         var text := Or(Get(d, "text"), PyStr(""));
         if text.PyStr? then
           Ok(Transcript(PyStrip(text.s), Get(d, "language"), segs, map["task" := Get(d, "task")]))
         else Err(NoAttribute(text, "strip")))
    case _ => Err(NoAttribute(result, "get"))
  }

  /** `transcribe(audio_path, language, fp16=...)`; `fp16` is `None` when the
      keyword is not given. */
  function Transcribe(e: Engine, audioPath: string, language: Option<string>, fp16: Option<Value>, sdk: Sdk)
    : (r: Result<Transcript, Fault>)
    ensures e.model.None? ==> r == Err(Fault("RuntimeError", NOT_LOADED))
    ensures e.model.Some? ==>
              var out := sdk.run(e.model.value, audioPath, OfOption(language), Fp16(fp16));
              && (out.Err? ==> r == Err(out.error))
              && (out.Ok? ==> r == Normalise(out.value))
  {
    match e.model
    case None => Err(Fault("RuntimeError", NOT_LOADED))
    case Some(m) =>
      match sdk.run(m, audioPath, OfOption(language), Fp16(fp16))
      case Err(f) => Err(f)
      case Ok(result) => Normalise(result)
  }

  // ---------------------------------------------------------------------
  // Properties.

  /** A miss asks the SDK for `(model_id, device)` and caches what it
      returns under that key; a failed load is passed on. */
  lemma LoadOutcomes(e: Engine, modelId: string, device: string, sdk: Sdk)
    requires !Cached(e, modelId, device)
    ensures sdk.loadModel(modelId, device).Err? ==>
              Load(e, modelId, device, sdk) == Err(sdk.loadModel(modelId, device).error)
    ensures sdk.loadModel(modelId, device).Ok? ==>
              Load(e, modelId, device, sdk) == Ok(Engine(Some((modelId, device)), Some(sdk.loadModel(modelId, device).value)))
  {
  }

  /** Loading the same key again changes nothing and does not consult the
      SDK. */
  lemma LoadIdempotent(e: Engine, modelId: string, device: string, sdk: Sdk, sdk2: Sdk)
    requires Load(e, modelId, device, sdk).Ok?
    ensures var e2 := Load(e, modelId, device, sdk).value;
      Load(e2, modelId, device, sdk2) == Ok(e2)
  {
  }

  /** Every projected segment has exactly the six keys, each holding the
      segment's own value (or `None` when it has none). */
  lemma ProjectedSegmentKeys(s: Value)
    requires s.PyDict?
    ensures ProjectSegment(s).Ok?
    ensures var p := ProjectSegment(s).value;
      && p.PyDict?
      && p.entries.Keys == set k | k in SEGMENT_KEYS
      && forall k :: k in SEGMENT_KEYS ==> p.entries[k] == Get(s.entries, k)
  {
  }

  /** The result in terms of its fields: a list of segments is projected
      element-wise (count and order kept), anything else under `segments`
      is passed through; the text is the stripped `text` with a missing or
      falsy one as `""`; `meta` carries only `task`. */
  lemma NormaliseContract(d: map<string, Value>)
    requires Get(d, "segments").PyList? ==>
               forall i :: 0 <= i < |Get(d, "segments").items| ==> Get(d, "segments").items[i].PyDict?
    requires !Truthy(Get(d, "text")) || Get(d, "text").PyStr?
    ensures Normalise(PyDict(d)).Ok?
    ensures var t := Normalise(PyDict(d)).value;
      && (Get(d, "segments").PyList? ==>
            var items := Get(d, "segments").items;
            && t.segments.PyList?
            && |t.segments.items| == |items|
            && forall i :: 0 <= i < |items| ==> ProjectSegment(items[i]) == Ok(t.segments.items[i]))
      && (!Get(d, "segments").PyList? ==> t.segments == Get(d, "segments"))
      && t.text == (if Truthy(Get(d, "text")) then PyStrip(Get(d, "text").s) else "")
      && t.language == Get(d, "language")
      && t.meta == map["task" := Get(d, "task")]
  {
  }

  /** The two faults of normalisation: a segment that is not a dictionary,
      and a truthy text that is not a string. */
  lemma NormaliseFaults(d: map<string, Value>)
    ensures Get(d, "segments").PyList? && (exists i :: 0 <= i < |Get(d, "segments").items| && !Get(d, "segments").items[i].PyDict?) ==>
              Normalise(PyDict(d)).Err? && Normalise(PyDict(d)).error.typeName == "AttributeError"
    ensures Truthy(Get(d, "text")) && !Get(d, "text").PyStr? ==>
              Normalise(PyDict(d)).Err? && Normalise(PyDict(d)).error.typeName == "AttributeError"
  {
  }

  /** Calls without `fp16` and with `fp16=None` run the model identically. */
  lemma Fp16Default(e: Engine, audioPath: string, language: Option<string>, sdk: Sdk)
    ensures Transcribe(e, audioPath, language, None, sdk) == Transcribe(e, audioPath, language, Some(PyNone), sdk)
    ensures e.model.Some? ==>
              Transcribe(e, audioPath, language, Some(PyBool(false)), sdk)
                == (match sdk.run(e.model.value, audioPath, OfOption(language), PyBool(false))
                    case Err(f) => Err(f)
                    case Ok(result) => Normalise(result))
  {
  }
}
