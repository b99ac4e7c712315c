/** The `/transcribe` endpoint: engine-name normalisation and validation,
    device resolution, the default model, storing the upload, loading and
    running the engine, and turning faults into HTTP errors. */
module Service {
  import opened Base
  import opened Text
  import opened Py
  import Device
  import Paths
  import Whisper
  import GigaAm

  const WHISPER: string := "whisper"
  const GIGAAM: string := "gigaam"

  /** The keys of the engine registry, in order. */
  const ENGINE_NAMES: seq<string> := [WHISPER, GIGAAM]

  /** The configured defaults. */
  const WHISPER_DEFAULT_MODEL: string := "base"
  const GIGAAM_DEFAULT_MODEL: string := "v3_e2e_rnnt"
  const DEFAULT_DEVICE: string := "auto"
  const TEMP_DIR: string := "tmp"

  /** The request as it arrives: the uploaded file and the form fields,
      `None` for a field the form does not carry. */
  datatype Request = Request(
    filename: Option<string>,
    data: seq<byte>,
    engine: Option<string>,
    model: Option<string>,
    device: Option<string>,
    language: Option<string>)

  /** The process state the endpoint touches: the two engines' caches and
      the file system. */
  datatype Server = Server(whisper: Whisper.Engine, gigaam: GigaAm.Engine, fs: Paths.FileSystem)

  /** The response body (the measured duration is not modelled). */
  datatype Response = Response(
    engine: string,
    model: string,
    device: string,
    language: Value,
    text: string,
    segments: Value,
    meta: map<string, Value>)

  /** Everything outside the model that a request consults: the CUDA probe,
      the random hex name, the two SDKs, `str` of non-string values, and the
      response model's validation, which yields the error it raises for a
      body it refuses. */
  datatype Environment = Environment(
    cuda: Device.CudaProbe,
    hex: Paths.Hex32,
    whisperSdk: Whisper.Sdk,
    gigaamSdk: GigaAm.Sdk,
    render: Value -> string,
    validate: Response -> Option<Fault>)

  datatype HttpError = HttpError(status: nat, detail: string)

  /** A form field as the handler receives it: a field that is missing or
      empty takes its declared default. */
  function FormField(v: Option<string>, default: Option<string>): (r: Option<string>)
    ensures v.Some? && v.value != "" ==> r == v
    ensures v.None? || v.value == "" ==> r == default
  {
    if v.None? || v.value == "" then default else v
  }

  /** The handler's arguments: the declared defaults `Form("whisper")`,
      `Form(None)` and `Form(settings.device)` filled in. */
  function Arguments(req: Request): (a: Request)
    ensures a.filename == req.filename && a.data == req.data
    ensures a.engine.Some? && a.engine.value != "" && a.device.Some? && a.device.value != ""
    ensures a.model != Some("") && a.language != Some("")
  {
    req.(engine := FormField(req.engine, Some(WHISPER)),
         model := FormField(req.model, None),
         device := FormField(req.device, Some(DEFAULT_DEVICE)),
         language := FormField(req.language, None))
  }

  /** `(engine or "").lower().strip()`. */
  function NormaliseEngine(engine: Option<string>): string
  {
    PyStrip(Lower(StrOr(engine, "")))
  }

  /** The 400 detail, listing the registry's keys as a Python list. */
  function UnknownEngineDetail(engine: string): string
  {
    "Unknown engine '" + engine + "'. Use one of: ['whisper', 'gigaam']"
  }

  /** `model` when given (even when empty), else the engine's default. */
  function ChooseModel(engine: string, model: Option<string>): (m: string)
    ensures model.Some? ==> m == model.value
    ensures model.None? && engine == WHISPER ==> m == WHISPER_DEFAULT_MODEL
    ensures model.None? && engine != WHISPER ==> m == GIGAAM_DEFAULT_MODEL
  {
    match model
    case Some(given) => given
    case None => if engine == WHISPER then WHISPER_DEFAULT_MODEL else GIGAAM_DEFAULT_MODEL
  }

  /** The handler for any exception other than an HTTP one. */
  function Wrap(f: Fault): (e: HttpError)
    ensures e.status == 500
    ensures e.detail == "Transcription failed: " + f.typeName + ": " + f.message
  {
    HttpError(500, "Transcription failed: " + f.typeName + ": " + f.message)
  }

  /** The engine's part: load the model on the device, then transcribe.
      The server afterwards holds the engine's new cache even when the
      transcription itself fails. */
  function RunEngine(srv: Server, engine: string, model: string, device: string, audioPath: string,
                     language: Option<string>, env: Environment): (r: (Server, Result<Transcript, Fault>))
    requires engine in ENGINE_NAMES
    ensures r.0.fs == srv.fs
    ensures engine == WHISPER ==> r.0.gigaam == srv.gigaam
    ensures engine == GIGAAM ==> r.0.whisper == srv.whisper
  {
    if engine == WHISPER then
      match Whisper.Load(srv.whisper, model, device, env.whisperSdk)
      case Err(f) => (srv, Err(f))
      case Ok(w) =>
        (srv.(whisper := w), Whisper.Transcribe(w, audioPath, language, None, env.whisperSdk))
    else
      match GigaAm.Load(srv.gigaam, model, device, env.gigaamSdk)
      case Err(f) => (srv, Err(f))
      case Ok(g) =>
        (srv.(gigaam := g), GigaAm.Transcribe(g, audioPath, language, env.gigaamSdk, env.render))
  }

  /** A request to `/transcribe`: the handler runs on the arguments the
      form gives it. */
  function Transcribe(srv: Server, req: Request, env: Environment): (r: (Server, Result<Response, HttpError>))
  {
    Handle(srv, Arguments(req), env)
  }

  /** `transcribe(file, engine, model, device, language)` on its arguments:
      the server afterwards and the response or the HTTP error. */
  function Handle(srv: Server, req: Request, env: Environment): (r: (Server, Result<Response, HttpError>))
  {
    var engine := NormaliseEngine(req.engine);
    if engine !in ENGINE_NAMES then (srv, Err(HttpError(400, UnknownEngineDetail(engine))))
    else
      var device := Device.ResolveDevice(req.device, env.cuda);
      var model := ChooseModel(engine, req.model);
      var (fs, saved) := Paths.SaveUploadToTemp(srv.fs, req.data, req.filename, TEMP_DIR, env.hex);
      var srv1 := srv.(fs := fs);
      match saved
      case Err(f) => (srv1, Err(Wrap(f)))
      case Ok(audioPath) =>
        var (srv2, out) := RunEngine(srv1, engine, model, device, audioPath, req.language, env);
        match out
        case Err(f) => (srv2, Err(Wrap(f)))
        case Ok(t) =>
          var resp := Response(engine, model, device, t.language, t.text, t.segments, t.meta);
          match env.validate(resp)
          case Some(f) => (srv2, Err(Wrap(f)))
          case None => (srv2, Ok(resp))
  }

  // ---------------------------------------------------------------------
  // Properties.

  /** The engine name is compared after lower-casing and stripping. */
  lemma EngineNameExamples()
    ensures NormaliseEngine(Some(" WHISPER\n")) == WHISPER
  {
    var s := " WHISPER\n";
    var l := Lower(s);
    assert l == " " + WHISPER + "\n" by {
      assert forall i :: 0 <= i < |s| ==> l[i] == LowerChar(s[i]);
    }
    TrimSurrounded(" ", WHISPER, "\n", IsPySpace);
  }

  /** A request whose form carries no engine name, or an empty one, runs
      whisper: it is handled exactly as one naming whisper. */
  lemma MissingEngineName(srv: Server, req: Request, env: Environment)
    requires req.engine.None? || req.engine == Some("")
    ensures NormaliseEngine(Arguments(req).engine) == WHISPER
    ensures Transcribe(srv, req, env) == Transcribe(srv, req.(engine := Some(WHISPER)), env)
  {
    assert Arguments(req) == Arguments(req.(engine := Some(WHISPER)));
    var l := Lower(WHISPER);
    assert l == WHISPER by {
      assert forall i :: 0 <= i < |WHISPER| ==> l[i] == WHISPER[i];
    }
    TrimSurrounded("", WHISPER, "", IsPySpace);
    assert "" + WHISPER + "" == WHISPER;
  }

  /** A request that carries only the file, or empty fields, runs whisper
      with its default model on the configured `auto` device. */
  lemma FormDefaults(srv: Server, req: Request, env: Environment)
    requires req.engine.None? || req.engine == Some("")
    requires req.model.None? || req.model == Some("")
    requires req.device.None? || req.device == Some("")
    requires req.language.None? || req.language == Some("")
    ensures Arguments(req) == Request(req.filename, req.data, Some(WHISPER), None, Some(DEFAULT_DEVICE), None)
    ensures var r := Transcribe(srv, req, env).1;
      r.Ok? ==> r.value.engine == WHISPER && r.value.model == WHISPER_DEFAULT_MODEL
  {
    MissingEngineName(srv, req, env);
  }

  /** A name of blanks is not replaced by the default: it strips to `""`,
      which no engine has, and is refused. */
  lemma BlankEngineRejected(srv: Server, req: Request, env: Environment)
    requires req.engine == Some(" ")
    ensures Transcribe(srv, req, env) == (srv, Err(HttpError(400, UnknownEngineDetail(""))))
  {
    assert PyStrip(Lower(" ")) == "" by {
      assert Lower(" ") == " ";
    }
  }

  /** Normalising a normalised name changes nothing. */
  lemma NormaliseEngineIdempotent(engine: Option<string>)
    ensures NormaliseEngine(Some(NormaliseEngine(engine))) == NormaliseEngine(engine)
  {
    var l := Lower(StrOr(engine, ""));
    var n := PyStrip(l);
    assert n == NormaliseEngine(engine);
    assert Lower(l) == l by { LowerIdempotent(StrOr(engine, "")); }
    var o := TrimOffset(l, IsPySpace);
    assert n == l[o..o + |n|];
    assert Lower(n) == n by { LowerOfLoweredPiece(l, o, o + |n|); }
    assert PyStrip(n) == n by { TrimIdempotent(l, IsPySpace); }
    assert StrOr(Some(n), "") == n;
  }

  /** An unknown engine is refused with 400 before anything else happens:
      the server is untouched and nothing outside the model is consulted. */
  lemma UnknownEngineRejected(srv: Server, req: Request, env: Environment, env2: Environment)
    requires NormaliseEngine(Arguments(req).engine) !in ENGINE_NAMES
    ensures Transcribe(srv, req, env) == (srv, Err(HttpError(400, UnknownEngineDetail(NormaliseEngine(Arguments(req).engine)))))
    ensures Transcribe(srv, req, env) == Transcribe(srv, req, env2)
  {
  }

  /** A successful response echoes the normalised engine, the chosen model
      and the resolved device, and the response model accepted it; the
      engine that ran now caches that model on that device. */
  lemma ResponseEchoes(srv: Server, req: Request, env: Environment)
    requires Transcribe(srv, req, env).1.Ok?
    ensures var (srv2, r) := Transcribe(srv, req, env);
      var engine := NormaliseEngine(Arguments(req).engine);
      var model := ChooseModel(engine, Arguments(req).model);
      var device := Device.ResolveDevice(Arguments(req).device, env.cuda);
      && engine in ENGINE_NAMES
      && r.value.engine == engine
      && r.value.model == model
      && r.value.device == device
      && (device == "cpu" || device == "cuda")
      && env.validate(r.value).None?
      && (engine == WHISPER ==> Whisper.Cached(srv2.whisper, model, device) && srv2.gigaam == srv.gigaam)
      && (engine == GIGAAM ==> GigaAm.Cached(srv2.gigaam, model, device) && srv2.whisper == srv.whisper)
  {
  }

  /** For a known engine, the fault of the first step that raises: storing
      the upload, loading and running the engine, or building the response
      model; `None` when none does. */
  function FirstFault(srv: Server, req: Request, env: Environment): Option<Fault>
    requires NormaliseEngine(Arguments(req).engine) in ENGINE_NAMES
  {
    var engine := NormaliseEngine(Arguments(req).engine);
    var device := Device.ResolveDevice(Arguments(req).device, env.cuda);
    var model := ChooseModel(engine, Arguments(req).model);
    var (fs, saved) := Paths.SaveUploadToTemp(srv.fs, req.data, req.filename, TEMP_DIR, env.hex);
    if saved.Err? then Some(saved.error)
    else
      var out := RunEngine(srv.(fs := fs), engine, model, device, saved.value, Arguments(req).language, env).1;
      if out.Err? then Some(out.error)
      else
        var t := out.value;
        env.validate(Response(engine, model, device, t.language, t.text, t.segments, t.meta))
  }

  /** Every failure is either the 400 for an unknown engine or the 500 that
      wraps the fault of the first step that raised; a known engine fails
      exactly when some step raises. */
  lemma ErrorsAre400Or500(srv: Server, req: Request, env: Environment)
    ensures var r := Transcribe(srv, req, env).1;
      var engine := NormaliseEngine(Arguments(req).engine);
      && (engine !in ENGINE_NAMES ==> r.Err? && r.error.status == 400)
      && (engine in ENGINE_NAMES ==> (r.Err? <==> FirstFault(srv, req, env).Some?))
      && (engine in ENGINE_NAMES && r.Err? ==> r.error == Wrap(FirstFault(srv, req, env).value))
  {
    var r := Transcribe(srv, req, env).1;
    var engine := NormaliseEngine(Arguments(req).engine);
    if engine in ENGINE_NAMES {
      var device := Device.ResolveDevice(Arguments(req).device, env.cuda);
      var model := ChooseModel(engine, Arguments(req).model);
      var (fs, saved) := Paths.SaveUploadToTemp(srv.fs, req.data, req.filename, TEMP_DIR, env.hex);
      if saved.Err? {
        assert r.error == Wrap(saved.error);
      } else {
        var (srv2, out) := RunEngine(srv.(fs := fs), engine, model, device, saved.value, Arguments(req).language, env);
        if out.Err? {
          assert r.error == Wrap(out.error);
        } else {
          var t := out.value;
          var resp := Response(engine, model, device, t.language, t.text, t.segments, t.meta);
          assert FirstFault(srv, req, env) == env.validate(resp);
        }
      }
    }
  }

  /** A request without a model runs the engine's default model. */
  lemma DefaultModels(srv: Server, req: Request, env: Environment)
    requires req.model.None? || req.model == Some("")
    requires Transcribe(srv, req, env).1.Ok?
    ensures var r := Transcribe(srv, req, env).1.value;
      && (r.engine == WHISPER ==> r.model == "base")
      && (r.engine == GIGAAM ==> r.model == "v3_e2e_rnnt")
  {
  }

  /** A request for a model its engine already holds on the resolved
      device loads nothing: whatever else happens, both engine caches stay
      as they were. */
  lemma CachedRequestKeepsCaches(srv: Server, req: Request, env: Environment)
    requires var engine := NormaliseEngine(Arguments(req).engine);
      var model := ChooseModel(engine, Arguments(req).model);
      var device := Device.ResolveDevice(Arguments(req).device, env.cuda);
      || (engine == WHISPER && Whisper.Cached(srv.whisper, model, device))
      || (engine == GIGAAM && GigaAm.Cached(srv.gigaam, model, device))
    ensures var srv2 := Transcribe(srv, req, env).0;
      srv2.whisper == srv.whisper && srv2.gigaam == srv.gigaam
  {
    var engine := NormaliseEngine(Arguments(req).engine);
    var model := ChooseModel(engine, Arguments(req).model);
    var device := Device.ResolveDevice(Arguments(req).device, env.cuda);
    var (fs, saved) := Paths.SaveUploadToTemp(srv.fs, req.data, req.filename, TEMP_DIR, env.hex);
    if saved.Ok? {
      if engine == WHISPER {
        assert Whisper.Load(srv.whisper, model, device, env.whisperSdk) == Ok(srv.whisper);
      } else {
        assert GigaAm.Load(srv.gigaam, model, device, env.gigaamSdk) == Ok(srv.gigaam);
      }
      var _ := RunEngine(srv.(fs := fs), engine, model, device, saved.value, Arguments(req).language, env);
    }
  }

  /** A second identical request finds the model already loaded: the
      engine caches are exactly as the first request left them. */
  lemma RepeatHitsCache(srv: Server, req: Request, env: Environment, env2: Environment)
    requires Transcribe(srv, req, env).1.Ok?
    requires env2.cuda == env.cuda
    ensures var srv2 := Transcribe(srv, req, env).0;
      var srv3 := Transcribe(srv2, req, env2).0;
      srv3.whisper == srv2.whisper && srv3.gigaam == srv2.gigaam
  {
    ResponseEchoes(srv, req, env);
    CachedRequestKeepsCaches(Transcribe(srv, req, env).0, req, env2);
  }
}
