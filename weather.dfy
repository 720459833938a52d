/** The weather-code labels of the dashboard: the sidebar's option labels,
    with a default for unknown codes, and the dictionary the weather chart
    maps its codes through. */
module Weather {
  import opened Records

  /** The code-to-label dictionary (the same four entries appear twice in the script). */
  const WEATHER_CONDITIONS: map<int, string> := map[
    1 := "Cerah / Sedikit Berawan",
    2 := "Berkabut / Berawan",
    3 := "Hujan Ringan / Salju Ringan",
    4 := "Hujan Deras / Badai"
  ]

  const UNKNOWN: string := "Unknown"

  /** The sidebar's `format_func`: `dict.get(code, "Unknown")`. */
  function OptionLabel(code: int): string
  {
    if code in WEATHER_CONDITIONS then WEATHER_CONDITIONS[code] else UNKNOWN
  }

  /** `Series.map(dict)` on one code of the chart table: a code outside the
      dictionary becomes a missing value. */
  function ChartLabel(code: int): Option<string>
  {
    if code in WEATHER_CONDITIONS then Some(WEATHER_CONDITIONS[code]) else None
  }

  /** The sidebar labels are total: codes 1..4 get their own label, every other
      code gets "Unknown", and no real label is "Unknown". */
  lemma OptionLabelTotal(code: int)
    ensures 1 <= code <= 4 ==> OptionLabel(code) != UNKNOWN
    ensures !(1 <= code <= 4) ==> OptionLabel(code) == UNKNOWN
  {
  }

  /** Distinct codes 1..4 get distinct labels. */
  lemma OptionLabelsDistinct(a: int, b: int)
    requires 1 <= a <= 4 && 1 <= b <= 4 && a != b
    ensures OptionLabel(a) != OptionLabel(b)
  {
  }

  /** The chart and the sidebar agree on every code 1..4, and the chart has no
      label exactly where the sidebar falls back to "Unknown". */
  lemma ChartLabelAgreesWithOptionLabel(code: int)
    ensures ChartLabel(code).Some? <==> 1 <= code <= 4
    ensures ChartLabel(code).Some? ==> ChartLabel(code).value == OptionLabel(code)
  {
  }
}
