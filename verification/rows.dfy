/** Rendering of inbound stream events: `formatTime`, the text of a row
    built by `appendStreamRow`, and the dispatch of a socket message over
    its four tagged kinds. */
module Rows {
  import opened Base
  import opened Js
  import opened Text

  const EMPTY_PLACEHOLDER: string := "(пусто)"
  const DEFAULT_ERROR: string := "Ошибка обработки"
  const RANGE_DASH: string := " – "

  /** `formatTime(seconds)` for a number: `mm:ss` from the floored minutes and
      the floored remainder, each padded to two characters. */
  function FormatTime(v: Number): string
  {
    match v
    case NaN => ""
    case PosInf => "Infinity:NaN"
    case NegInf => "-Infinity:NaN"
    case Finite(x) =>
      PadStart2(IntToDecimal(Floor(x / 60.0))) + ":" + PadStart2(IntToDecimal(Floor(Rem60(x))))
  }

  lemma MinutesAndSeconds(x: real)
    requires x >= 0.0
    ensures Floor(x / 60.0) == x.Floor / 60
    ensures Floor(Rem60(x)) == x.Floor % 60
  {
    var n := x.Floor;
    var q := (x / 60.0).Floor;
    assert 60.0 * q as real <= x < 60.0 * q as real + 60.0;
    assert 60 * q <= n;
    assert n < 60 * q + 60;
    assert n / 60 == q;
    assert Rem60(x) == x - 60.0 * q as real;
    assert (x - 60.0 * q as real).Floor == n - 60 * q;
  }

  /** For a time below 100 minutes the text is exactly `mm:ss`, and reading
      the two digit groups back gives the whole minutes and the seconds
      within the minute. */
  lemma FormatTimeReadsBack(x: real)
    requires 0.0 <= x < 6000.0
    ensures var t := FormatTime(Finite(x));
      && |t| == 5 && t[2] == ':'
      && (forall i :: 0 <= i < 5 && i != 2 ==> IsDigit(t[i]))
      && DigitsValue(t[..2]) == x.Floor / 60
      && DigitsValue(t[3..]) == x.Floor % 60
  {
    MinutesAndSeconds(x);
    var m, s := x.Floor / 60, x.Floor % 60;
    TwoDigits(m);
    TwoDigits(s);
    var a, b := PadStart2(NatToDecimal(m)), PadStart2(NatToDecimal(s));
    var t := FormatTime(Finite(x));
    assert t == a + ":" + b;
    assert t[..2] == a && t[3..] == b;
  }

  /** A number below 100 is written as exactly two digits that read back
      as that number. */
  lemma TwoDigits(k: nat)
    requires k < 100
    ensures var p := PadStart2(NatToDecimal(k));
      && |p| == 2
      && (forall i :: 0 <= i < 2 ==> IsDigit(p[i]))
      && DigitsValue(p) == k
  {
    DecimalRoundTrip(k);
    PaddedValue(NatToDecimal(k));
  }

  lemma PaddedValue(s: string)
    requires 1 <= |s| <= 2 && forall i :: 0 <= i < |s| ==> IsDigit(s[i])
    ensures |PadStart2(s)| == 2
    ensures forall i :: 0 <= i < 2 ==> IsDigit(PadStart2(s)[i])
    ensures DigitsValue(PadStart2(s)) == DigitsValue(s)
  {
    if |s| == 1 {
      var p := PadStart2(s);
      assert p == ['0'] + s;
      assert p[..1] == ['0'];
      assert DigitsValue(['0']) == 0 by {
        assert ['0'][..0] == [];
      }
      assert s[..0] == [];
    }
  }

  /** Every number yields a non-empty text except NaN, which yields "". */
  lemma FormatTimeEmptyOnlyForNaN(v: Number)
    ensures FormatTime(v) == "" <==> v.NaN?
  {
  }

  // ---------------------------------------------------------------------
  // `appendStreamRow`.

  /** A field of a parsed message.  A string is kept as it is; any other
      JSON value (number, boolean, array, object) is given by its
      truthiness and by the text `String(value)` renders it as. */
  datatype Field = Str(s: string) | NonText(truthy: bool, shown: string)

  /** JavaScript truthiness of a field that may be absent or `null`. */
  predicate Truthy(f: Option<Field>) {
    match f
    case None => false
    case Some(Str(s)) => s != ""
    case Some(NonText(t, _)) => t
  }

  /** The text a field becomes inside a template literal or `textContent`. */
  function Shown(f: Field): string
  {
    match f
    case Str(s) => s
    case NonText(_, shown) => shown
  }

  /** The fields of a payload that the row reads; a time that is absent or
      not of type number is `None`, and so is an absent or `null` field. */
  datatype RowPayload = RowPayload(
    start: Option<Number>,
    end: Option<Number>,
    text: Option<Field>,
    summary: Option<Field>)

  /** A label that may be `null` (`None`), or a string. */
  predicate LabelTruthy(s: Option<string>) {
    s.Some? && s.value != ""
  }

  function TimeLabel(v: Option<Number>): Option<string>
  {
    match v
    case None => None
    case Some(n) => Some(FormatTime(n))
  }

  /** `payload.text || payload.summary || ''`: the first truthy field, or
      `None` for the empty string. */
  function Content(p: RowPayload): (c: Option<Field>)
    ensures c.Some? ==> Truthy(c) && (c == p.text || c == p.summary)
    ensures c.None? <==> !Truthy(p.text) && !Truthy(p.summary)
    ensures Truthy(p.text) ==> c == p.text
  {
    if Truthy(p.text) then p.text else if Truthy(p.summary) then p.summary else None
  }

  /** The time-range prefix, present when both labels are non-empty. */
  function Prefix(p: RowPayload): string
  {
    var start, end := TimeLabel(p.start), TimeLabel(p.end);
    if LabelTruthy(start) && LabelTruthy(end) then "[" + start.value + RANGE_DASH + end.value + "] " else ""
  }

  /** The text after the prefix: the content, or the placeholder when there
      is none. */
  function Body(p: RowPayload): string
  {
    match Content(p)
    case Some(f) => Shown(f)
    case None => EMPTY_PLACEHOLDER
  }

  /** A row's text.  It is empty only when it has no range and its content is
      a truthy non-string that renders as nothing (an empty array does). */
  function RowText(p: RowPayload): (t: string)
    ensures t == "" <==> Prefix(p) == "" && Content(p).Some? && Shown(Content(p).value) == ""
    ensures Content(p).None? || Content(p).value.Str? ==> |t| > 0
  {
    Prefix(p) + Body(p)
  }

  /** The row carries a time range exactly when both ends are numbers other
      than NaN; it ends with the rendered content, or with the placeholder
      when neither the text nor the summary is truthy. */
  lemma RowTextShape(p: RowPayload)
    ensures var hasRange := p.start.Some? && !p.start.value.NaN? && p.end.Some? && !p.end.value.NaN?;
      var tail := if Truthy(p.text) then Shown(p.text.value)
                  else if Truthy(p.summary) then Shown(p.summary.value)
                  else EMPTY_PLACEHOLDER;
      && (hasRange ==> RowText(p) == "[" + FormatTime(p.start.value) + RANGE_DASH
                                     + FormatTime(p.end.value) + "] " + tail)
      && (!hasRange ==> RowText(p) == tail)
  {
    if p.start.Some? {
      FormatTimeEmptyOnlyForNaN(p.start.value);
    }
    if p.end.Some? {
      FormatTimeEmptyOnlyForNaN(p.end.value);
    }
  }

  // ---------------------------------------------------------------------
  // Inbound socket messages.

  /** A received message: not parseable as a JSON object, or the fields the
      handler reads. */
  datatype Inbound =
    | Malformed
    | Message(
        event: Option<Field>,
        start: Option<Number>,
        end: Option<Number>,
        text: Option<Field>,
        summary: Option<Field>,
        detail: Option<Field>,
        message: Option<Field>)

  datatype RowKind = PartialRow | FinalRow | InfoRow

  /** What the page does with a message. */
  datatype Reaction =
    | AppendRow(kind: RowKind, row: string)
    | AppendSummary(row: string)      // also sets the status to "stopped"
    | ShowError(notice: string)
    | Ignore

  /** `data.event === name`: strict equality holds only for that string. */
  predicate EventIs(e: Option<Field>, name: string) {
    e == Some(Str(name))
  }

  predicate KnownEvent(e: Option<Field>) {
    EventIs(e, "partial") || EventIs(e, "summary") || EventIs(e, "error") || EventIs(e, "info")
  }

  function Dispatch(m: Inbound): (r: Reaction)
    ensures r.Ignore? <==> m.Malformed? || !KnownEvent(m.event)
  {
    if m.Malformed? then Ignore
    else if EventIs(m.event, "partial") then
      AppendRow(PartialRow, RowText(RowPayload(m.start, m.end, m.text, m.summary)))
    else if EventIs(m.event, "summary") then
      AppendSummary(RowText(RowPayload(None, None, None, m.summary)))
    else if EventIs(m.event, "error") then
      ShowError(if Truthy(m.detail) then Shown(m.detail.value) else DEFAULT_ERROR)
    else if EventIs(m.event, "info") then
      AppendRow(InfoRow, RowText(RowPayload(None, None, m.message, None)))
    else Ignore
  }

  /** Each of the four kinds gets its own reaction: partial rows show the
      payload with its time range, a summary row shows only the rendered
      summary, an error shows its rendered detail (or a default text), an
      info row shows the rendered message; a falsy summary or message gives
      the placeholder. */
  lemma DispatchKinds(m: Inbound)
    requires m.Message?
    ensures EventIs(m.event, "partial") ==>
              Dispatch(m) == AppendRow(PartialRow, RowText(RowPayload(m.start, m.end, m.text, m.summary)))
    ensures EventIs(m.event, "summary") ==>
              Dispatch(m) == AppendSummary(if Truthy(m.summary) then Shown(m.summary.value) else EMPTY_PLACEHOLDER)
    ensures EventIs(m.event, "error") ==>
              Dispatch(m) == ShowError(if Truthy(m.detail) then Shown(m.detail.value) else DEFAULT_ERROR)
    ensures EventIs(m.event, "info") ==>
              Dispatch(m) == AppendRow(InfoRow, if Truthy(m.message) then Shown(m.message.value) else EMPTY_PLACEHOLDER)
  {
  }
}
