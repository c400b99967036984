/** The two settings read from the page's select elements when a note starts. */
module Config {
  import opened Options

  /**
   * What the polyphony select offers: no element at all, or an element whose
   * value `parseInt(value, 10)` turned into an integer (`None` for NaN).
   */
  datatype PolyphonySelect = NoSelect | Select(parsed: Option<int>)

  /** Default voice count when the setting is missing or not a number. */
  const DefaultPolyphony: int := 2

  /** `getPolyphonyLimit`: the configured voice count, never below one. */
  function PolyphonyLimit(sel: PolyphonySelect): (limit: int)
    ensures limit >= 1
    ensures sel.NoSelect? || sel.parsed.None? ==> limit == DefaultPolyphony
    ensures sel.Select? && sel.parsed.Some? ==>
      limit >= sel.parsed.value && (limit == sel.parsed.value || limit == 1)
  {
    match sel
    case NoSelect => DefaultPolyphony
    case Select(None) => DefaultPolyphony
    case Select(Some(v)) => if v < 1 then 1 else v
  }

  /** A parsed value of one or more is taken as it is; anything lower means one voice. */
  lemma PolyphonyLimitOfParsed(v: int)
    ensures v >= 1 ==> PolyphonyLimit(Select(Some(v))) == v
    ensures v < 1 ==> PolyphonyLimit(Select(Some(v))) == 1
  {
  }

  /** Default waveform when the select is missing or its value is empty. */
  const DefaultWaveform: string := "sine"

  /**
   * `getSelectedWaveform`: the waveform select's value (`None` when there is
   * no element); an empty value falls back to the default.
   */
  function SelectedWaveform(sel: Option<string>): (w: string)
    ensures w != ""
    ensures sel.Some? && sel.value != "" ==> w == sel.value
    ensures sel.None? || sel.value == "" ==> w == DefaultWaveform
  {
    match sel
    case None => DefaultWaveform
    case Some(v) => if v != "" then v else DefaultWaveform
  }
}
