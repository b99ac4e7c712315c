/** The prompt editor: an ordered name-to-prompt map, the active prompt
    shown in a text area, and the "add" field.  Saving to the server is not
    part of this model; the local edits are. */
module Prompts {
  import opened Base
  import opened Text

  /** A prompt value as received: plain text, or any other JSON value,
      carried as its pretty-printed JSON text and its truthiness. */
  datatype PromptValue = Plain(s: string) | Structured(json: string, truthy: bool)

  /** A JavaScript object used as a map: its keys in insertion order and
      the value of each key.  `Object.keys` does not list them in that order
      when some are array indices (see `FirstKey`). */
  datatype PromptMap = PromptMap(keys: seq<string>, values: map<string, PromptValue>)

  datatype Editor = Editor(
    prompts: PromptMap,
    current: Option<string>,
    input: string,
    inputDisabled: bool,
    newKey: string)

  datatype AddOutcome = EmptyKey | AlreadyExists | Added

  /** Keys listed once each, and exactly the keys that have values. */
  predicate WellFormed(pm: PromptMap) {
    && (forall i, j :: 0 <= i < j < |pm.keys| ==> pm.keys[i] != pm.keys[j])
    && pm.values.Keys == set k | k in pm.keys
  }

  /** The editor's consistency: the active key, when there is one, is a
      non-empty key of the map; without one the text area is disabled (what
      it holds is whatever was last typed). */
  predicate Valid(ed: Editor) {
    && WellFormed(ed.prompts)
    && (ed.current.Some? ==> ed.current.value != "" && ed.current.value in ed.prompts.values)
    && (ed.current.None? ==> ed.inputDisabled)
  }

  function EmptyMap(): PromptMap {
    PromptMap([], map[])
  }

  /** JavaScript truthiness of a stored value. */
  predicate Truthy(v: PromptValue) {
    match v
    case Plain(s) => s != ""
    case Structured(_, t) => t
  }

  /** `stringifyPrompt`: strings as they are, anything else as its JSON text. */
  function Stringify(v: PromptValue): string {
    match v
    case Plain(s) => s
    case Structured(json, _) => json
  }

  /** `prompts[key] = value`: an existing key keeps its place, a new one is
      inserted last; every other entry is untouched. */
  function Put(pm: PromptMap, key: string, v: PromptValue): (r: PromptMap)
    ensures r.values == pm.values[key := v]
    ensures key in pm.values ==> r.keys == pm.keys
    ensures key !in pm.values ==> r.keys == pm.keys + [key]
    ensures WellFormed(pm) ==> WellFormed(r)
  {
    if key in pm.values then PromptMap(pm.keys, pm.values[key := v])
    else PromptMap(pm.keys + [key], pm.values[key := v])
  }

  /** `setActivePrompt(key)`: a missing, empty or unknown key clears and
      disables the text area; a known key becomes active and its value is
      shown. */
  function SetActivePrompt(ed: Editor, key: Option<string>): (r: Editor)
    ensures r.prompts == ed.prompts && r.newKey == ed.newKey
    ensures key.Some? && key.value != "" && key.value in ed.prompts.values ==>
              r.current == key && !r.inputDisabled && r.input == Stringify(ed.prompts.values[key.value])
    ensures !(key.Some? && key.value != "" && key.value in ed.prompts.values) ==>
              r.current.None? && r.inputDisabled && r.input == ""
    ensures WellFormed(ed.prompts) ==> Valid(r)
  {
    if key.None? || key.value == "" || key.value !in ed.prompts.values then
      ed.(current := None, input := "", inputDisabled := true)
    else
      ed.(current := key, input := Stringify(ed.prompts.values[key.value]), inputDisabled := false)
  }

  /** The text area's `input` handler: the typed text becomes the active
      prompt's value; without an active prompt only the text area changes. */
  function OnInput(ed: Editor, text: string): (r: Editor)
    ensures r.input == text && r.current == ed.current
    ensures ed.current.None? ==> r.prompts == ed.prompts
    ensures ed.current.Some? && ed.current.value != "" ==>
              r.prompts.values == ed.prompts.values[ed.current.value := Plain(text)]
    ensures Valid(ed) ==> WellFormed(r.prompts)
    ensures Valid(ed) ==>
              forall k :: k in ed.prompts.values && Some(k) != ed.current ==>
                k in r.prompts.values && r.prompts.values[k] == ed.prompts.values[k]
  {
    var typed := ed.(input := text);
    if ed.current.Some? && ed.current.value != "" then
      typed.(prompts := Put(ed.prompts, ed.current.value, Plain(text)))
    else typed
  }

  /** The "add" button. */
  function AddPrompt(ed: Editor): (Editor, AddOutcome)
  {
    var key := JsTrim(ed.newKey);
    if key == "" then (ed, EmptyKey)
    else if key in ed.prompts.values && Truthy(ed.prompts.values[key]) then (ed, AlreadyExists)
    else
      var added := ed.(prompts := Put(ed.prompts, key, Plain("")), newKey := "");
      (SetActivePrompt(added, Some(key)), Added)
  }

  /** An array index as `Object.keys` orders it: the canonical decimal form
      of an integer below 2^32 - 1. */
  predicate IsIndexKey(k: string) {
    && |k| > 0 && (forall i :: 0 <= i < |k| ==> IsDigit(k[i]))
    && (k[0] == '0' ==> |k| == 1)
    && DigitsValue(k) < 0xFFFF_FFFF
  }

  /** The index key of least value among `keys`, if any. */
  function LeastIndexKey(keys: seq<string>): (r: Option<string>)
    ensures r.Some? ==> r.value in keys && IsIndexKey(r.value)
    ensures r.Some? ==> forall k :: k in keys && IsIndexKey(k) ==> DigitsValue(r.value) <= DigitsValue(k)
    ensures r.None? ==> forall k :: k in keys ==> !IsIndexKey(k)
  {
    if |keys| == 0 then None
    else
      var rest := LeastIndexKey(keys[1..]);
      if !IsIndexKey(keys[0]) then rest
      else if rest.Some? && DigitsValue(rest.value) < DigitsValue(keys[0]) then rest
      else Some(keys[0])
  }

  /** `Object.keys(prompts)[0]`: array-index keys are enumerated first, in
      ascending order, and the other keys after them in insertion order. */
  function FirstKey(pm: PromptMap): (r: Option<string>)
    ensures r.None? <==> |pm.keys| == 0
    ensures r.Some? ==> r.value in pm.keys
    ensures r.Some? && IsIndexKey(r.value) ==>
              forall k :: k in pm.keys && IsIndexKey(k) ==> DigitsValue(r.value) <= DigitsValue(k)
    ensures r.Some? && !IsIndexKey(r.value) ==>
              r.value == pm.keys[0] && forall k :: k in pm.keys ==> !IsIndexKey(k)
  {
    match LeastIndexKey(pm.keys)
    case Some(k) => Some(k)
    case None => if |pm.keys| > 0 then Some(pm.keys[0]) else None
  }

  /** The outcome of `loadPrompts`' request: the request failed, or the body
      was parsed.  An object body is its map; an array body passes the
      `typeof data === 'object'` test too and is the map from its indices to
      its elements; `null` or any other JSON value is `None`. */
  datatype LoadResponse = FetchFailed | Received(data: Option<PromptMap>)

  /** `loadPrompts`: the map is replaced; the previously active key stays
      active if it is still present, otherwise the first key becomes active. */
  function LoadPrompts(ed: Editor, resp: LoadResponse): Editor
  {
    match resp
    case FetchFailed => ed
    case Received(data) =>
      var pm := data.GetOr(EmptyMap());
      var first :=
        if ed.current.Some? && ed.current.value != "" && ed.current.value in pm.values then ed.current
        else FirstKey(pm);
      SetActivePrompt(ed.(prompts := pm), first)
  }

  // ---------------------------------------------------------------------
  // Properties.

  /** Adding: the name is trimmed; an empty name is refused; a name whose
      current value is truthy is refused; either refusal leaves the editor
      unchanged.  Otherwise the name maps to `''`, becomes active with an
      empty text area, and no other entry changes. */
  lemma AddPromptContract(ed: Editor)
    requires Valid(ed)
    ensures var (r, outcome) := AddPrompt(ed);
      var key := JsTrim(ed.newKey);
      && (key == "" ==> outcome == EmptyKey && r == ed)
      && (key != "" && key in ed.prompts.values && Truthy(ed.prompts.values[key]) ==>
            outcome == AlreadyExists && r == ed)
      && (key != "" && (key !in ed.prompts.values || !Truthy(ed.prompts.values[key])) ==>
            && outcome == Added
            && r.prompts.values == ed.prompts.values[key := Plain("")]
            && r.current == Some(key) && r.input == "" && !r.inputDisabled && r.newKey == ""
            && (forall k :: k in ed.prompts.values && k != key ==> r.prompts.values[k] == ed.prompts.values[k]))
      && Valid(r)
  {
  }

  /** A name already present with the empty string as its value is not
      refused: adding it again succeeds and makes it active. */
  lemma AddExistingEmptyPasses(ed: Editor, key: string)
    requires Valid(ed) && key != "" && JsTrim(ed.newKey) == key
    requires key in ed.prompts.values && ed.prompts.values[key] == Plain("")
    ensures AddPrompt(ed).1 == Added
    ensures AddPrompt(ed).0.prompts == ed.prompts
    ensures AddPrompt(ed).0.current == Some(key)
  {
    assert ed.prompts.values[key := Plain("")] == ed.prompts.values;
  }

  /** Loading keeps the active key when the new map still has it, otherwise
      picks the first key `Object.keys` lists (or none for an empty map). */
  lemma LoadSelection(ed: Editor, pm: PromptMap)
    requires WellFormed(pm)
    ensures var r := LoadPrompts(ed, Received(Some(pm)));
      && r.prompts == pm && Valid(r)
      && (ed.current.Some? && ed.current.value != "" && ed.current.value in pm.values ==>
            r.current == ed.current)
      && ((!(ed.current.Some? && ed.current.value != "" && ed.current.value in pm.values)
           && |pm.keys| > 0 && FirstKey(pm).value != "") ==> r.current == FirstKey(pm))
      && (|pm.keys| == 0 ==> r.current.None?)
  {
  }

  /** A failed request leaves the editor as it was; a body that is neither
      an object nor an array empties the map and deactivates the editor. */
  lemma LoadFailures(ed: Editor)
    ensures LoadPrompts(ed, FetchFailed) == ed
    ensures var r := LoadPrompts(ed, Received(None));
      r.prompts == EmptyMap() && r.current.None? && r.inputDisabled
  {
  }

  /** A key that is an array index is listed before older keys: after
      adding `b`, `a` and then `2`, loading with no active prompt picks `2`. */
  lemma IndexKeysEnumerateFirst()
    ensures var pm := Put(Put(Put(EmptyMap(), "b", Plain("")), "a", Plain("")), "2", Plain(""));
      && pm.keys == ["b", "a", "2"]
      && FirstKey(pm) == Some("2")
  {
    var pm := Put(Put(Put(EmptyMap(), "b", Plain("")), "a", Plain("")), "2", Plain(""));
    assert pm.keys == ["b", "a", "2"];
    LeastIndexKeyExample();
  }

  lemma LeastIndexKeyExample()
    ensures LeastIndexKey(["b", "a", "2"]) == Some("2")
  {
    assert IsIndexKey("2") by {
      assert DigitsValue("2") == 2 by {
        assert "2"[..0] == [];
      }
    }
    assert !IsIndexKey("b") by {
      assert !IsDigit("b"[0]);
    }
    assert !IsIndexKey("a") by {
      assert !IsDigit("a"[0]);
    }
    assert LeastIndexKey(["2"]) == Some("2") by {
      assert ["2"][1..] == [];
    }
    assert LeastIndexKey(["a", "2"]) == Some("2") by {
      assert ["a", "2"][1..] == ["2"];
    }
    assert ["b", "a", "2"][1..] == ["a", "2"];
  }

  /** A one-element array body: its index `0` becomes the active prompt. */
  lemma ArrayBodyLoads(ed: Editor)
    requires ed.current.None?
    ensures var r := LoadPrompts(ed, Received(Some(PromptMap(["0"], map["0" := Plain("x")]))));
      r.current == Some("0") && r.input == "x" && !r.inputDisabled
  {
    assert IsIndexKey("0") by {
      assert DigitsValue("0") == 0 by {
        assert "0"[..0] == [];
      }
    }
  }

  /** Every editor operation keeps the editor consistent. */
  lemma OperationsKeepValid(ed: Editor, key: Option<string>, text: string, resp: LoadResponse)
    requires Valid(ed)
    requires resp.Received? && resp.data.Some? ==> WellFormed(resp.data.value)
    ensures Valid(SetActivePrompt(ed, key))
    ensures Valid(OnInput(ed, text))
    ensures Valid(AddPrompt(ed).0)
    ensures Valid(LoadPrompts(ed, resp))
  {
    AddPromptContract(ed);
  }
}
