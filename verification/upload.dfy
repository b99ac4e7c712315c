/** File selection on the upload page (`handleSelection`): only the first
    file of a selection is considered, and it is accepted when its
    lower-cased name ends in an allowed extension or its MIME type is one of
    the allowed ones. */
module Upload {
  import opened Base
  import opened Text

  const SUPPORTED_AUDIO_MIME: seq<string> := ["audio/wav", "audio/x-wav", "audio/mpeg", "audio/mp3", "audio/ogg"]
  const SUPPORTED_AUDIO_EXT: seq<string> := [".wav", ".mp3", ".ogg"]

  /** A selected file: its name and its MIME type (`""` when the browser
      reports none). */
  datatype File = File(name: string, mime: string)

  datatype Outcome = NoFiles | Rejected | Accepted

  datatype Selection = Selection(selected: Option<File>, outcome: Outcome)

  /** `suffixes.some((suffix) => s.endsWith(suffix))`. */
  predicate SomeSuffix(s: string, suffixes: seq<string>) {
    |suffixes| > 0 && (EndsWith(s, suffixes[0]) || SomeSuffix(s, suffixes[1..]))
  }

  predicate ExtensionOk(name: string) {
    SomeSuffix(Lower(name), SUPPORTED_AUDIO_EXT)
  }

  predicate MimeOk(mime: string) {
    mime != "" && mime in SUPPORTED_AUDIO_MIME
  }

  /** `handleSelection(files)` given the currently selected file. */
  function HandleSelection(selected: Option<File>, files: seq<File>): (r: Selection)
    ensures |files| == 0 ==> r == Selection(selected, NoFiles)
    ensures |files| > 0 && (ExtensionOk(files[0].name) || MimeOk(files[0].mime)) ==>
              r == Selection(Some(files[0]), Accepted)
    ensures |files| > 0 && !ExtensionOk(files[0].name) && !MimeOk(files[0].mime) ==>
              r == Selection(selected, Rejected)
  {
    if |files| == 0 then Selection(selected, NoFiles)
    else
      var file := files[0];
      var lowered := Lower(file.name);
      var extOk := SomeSuffix(lowered, SUPPORTED_AUDIO_EXT);
      var mimeOk := if file.mime != "" then file.mime in SUPPORTED_AUDIO_MIME else false;
      if !extOk && !mimeOk then Selection(selected, Rejected) else Selection(Some(file), Accepted)
  }

  /** Acceptance in the allow-list's own terms: a name ending in `.wav`,
      `.mp3` or `.ogg` in any letter case, or one of the five MIME types. */
  lemma AcceptedIff(selected: Option<File>, f: File, rest: seq<File>)
    ensures HandleSelection(selected, [f] + rest).outcome == Accepted
        <==> (|f.name| >= 4 && Lower(f.name[|f.name| - 4..]) in [".wav", ".mp3", ".ogg"])
              || f.mime in ["audio/wav", "audio/x-wav", "audio/mpeg", "audio/mp3", "audio/ogg"]
  {
    var low := Lower(f.name);
    assert ([f] + rest)[0] == f;
    assert SUPPORTED_AUDIO_EXT[1..] == [".mp3", ".ogg"];
    assert SUPPORTED_AUDIO_EXT[1..][1..] == [".ogg"];
    assert SUPPORTED_AUDIO_EXT[1..][1..][1..] == [];
    assert !SomeSuffix(low, SUPPORTED_AUDIO_EXT[1..][1..][1..]);
    assert SomeSuffix(low, SUPPORTED_AUDIO_EXT[1..][1..]) <==> EndsWith(low, ".ogg");
    assert SomeSuffix(low, SUPPORTED_AUDIO_EXT[1..]) <==> EndsWith(low, ".mp3") || EndsWith(low, ".ogg");
    assert ExtensionOk(f.name) <==> EndsWith(low, ".wav") || EndsWith(low, ".mp3") || EndsWith(low, ".ogg");
    if |f.name| >= 4 {
      assert low[|low| - 4..] == Lower(f.name[|f.name| - 4..]);
    }
  }

  /** `clip.flac` of type `audio/flac` is rejected and leaves the selection
      as it was. */
  lemma RejectedExample(selected: Option<File>)
    ensures HandleSelection(selected, [File("clip.flac", "audio/flac")]) == Selection(selected, Rejected)
  {
    var f := File("clip.flac", "audio/flac");
    var low := Lower(f.name);
    assert low[|low| - 1] == 'c' by { assert low[8] == LowerChar(f.name[8]); }
    assert !EndsWith(low, ".wav") && !EndsWith(low, ".mp3") && !EndsWith(low, ".ogg");
    assert SUPPORTED_AUDIO_EXT[1..][1..][1..] == [];
    assert !SomeSuffix(low, SUPPORTED_AUDIO_EXT[1..][1..]);
    assert !SomeSuffix(low, SUPPORTED_AUDIO_EXT[1..]);
    assert !ExtensionOk(f.name);
  }

  /** `clip.WAV` without a MIME type is accepted: the name's case does not
      matter. */
  lemma AcceptedExample(selected: Option<File>)
    ensures HandleSelection(selected, [File("clip.WAV", "")]).selected == Some(File("clip.WAV", ""))
  {
    var w := Lower("clip.WAV");
    assert w[4..] == ".wav";
  }
}
