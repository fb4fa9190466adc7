/** Temperature text: the unit suffix the reports print after every value,
    and the Fahrenheit-to-Celsius formula before rounding. */
module Temperature {
  import opened Wrappers

  /** `DEGREE_SYMBOL`: the degree sign U+00B0 followed by the letter C. */
  const DegreeSymbol: string := "\U{00B0}C"

  /** `format_temperature`: the already-rendered temperature, immediately
      followed by the degree symbol, with nothing in between. */
  function FormatTemperature(temp: string): (r: string)
    ensures |r| == |temp| + |DegreeSymbol|
    ensures r[..|temp|] == temp
    ensures r[|temp|..] == DegreeSymbol
  {
    temp + DegreeSymbol
  }

  /** The inverse of `FormatTemperature`: the text before a trailing degree
      symbol, or `None` when the text does not end in one. */
  function StripDegreeSymbol(s: string): Option<string>
  {
    var n := |s| - |DegreeSymbol|;
    if n >= 0 && s[n..] == DegreeSymbol then Some(s[..n]) else None
  }

  /** Stripping the suffix from a formatted temperature gives the temperature
      text back. */
  lemma FormatTemperatureRoundTrip(temp: string)
    ensures StripDegreeSymbol(FormatTemperature(temp)) == Some(temp)
  {
  }

  /** Every text that ends in the degree symbol is the formatting of what
      precedes it. */
  lemma StripDegreeSymbolRoundTrip(s: string, temp: string)
    requires StripDegreeSymbol(s) == Some(temp)
    ensures FormatTemperature(temp) == s
  {
    assert s == s[..|temp|] + s[|temp|..];
  }

  /** Distinct temperature texts stay distinct once formatted. */
  lemma FormatTemperatureInjective(a: string, b: string)
    requires FormatTemperature(a) == FormatTemperature(b)
    ensures a == b
  {
    FormatTemperatureRoundTrip(a);
    FormatTemperatureRoundTrip(b);
  }

  /** The formula of `convert_f_to_c`, `(f - 32) * 5 / 9`, on exact reals and
      before its rounding to one decimal place; the partner statement is the
      inverse formula back to Fahrenheit. */
  function FahrenheitToCelsius(f: real): (c: real)
    ensures c * 9.0 / 5.0 + 32.0 == f
    ensures f < 32.0 <==> c < 0.0
  {
    (f - 32.0) * 5.0 / 9.0
  }
}
