/**
 The receiver's configuration as the acquisition adapter sees it: a map
 from property names to already-parsed values, read through lookups that
 fall back to a default when the property is absent.
 */
module Configuration {

  /** An already-parsed configuration value. */
  datatype Value =
    | NatValue(n: nat)
    | RealValue(r: real)
    | BoolValue(b: bool)
    | TextValue(s: string)

  type Config = map<string, Value>

  /** An integer property, or `default` when it is absent or not an integer. */
  function NatProperty(config: Config, key: string, default: nat): (r: nat)
    ensures key in config && config[key].NatValue? ==> r == config[key].n
    ensures !(key in config && config[key].NatValue?) ==> r == default
  {
    if key in config && config[key].NatValue? then config[key].n else default
  }

  /** A real-valued property, or `default` when it is absent or not a real. */
  function RealProperty(config: Config, key: string, default: real): (r: real)
    ensures key in config && config[key].RealValue? ==> r == config[key].r
    ensures !(key in config && config[key].RealValue?) ==> r == default
  {
    if key in config && config[key].RealValue? then config[key].r else default
  }

  /** A boolean property, or `default` when it is absent or not a boolean. */
  function BoolProperty(config: Config, key: string, default: bool): (r: bool)
    ensures key in config && config[key].BoolValue? ==> r == config[key].b
    ensures !(key in config && config[key].BoolValue?) ==> r == default
  {
    if key in config && config[key].BoolValue? then config[key].b else default
  }

  /** A text property, or `default` when it is absent or not text. */
  function TextProperty(config: Config, key: string, default: string): (r: string)
    ensures key in config && config[key].TextValue? ==> r == config[key].s
    ensures !(key in config && config[key].TextValue?) ==> r == default
  {
    if key in config && config[key].TextValue? then config[key].s else default
  }

  /** Decimal rendering of a natural number, as `std::to_string` gives it. */
  function NatToString(n: nat): (s: string)
    ensures |s| >= 1
    ensures forall i :: 0 <= i < |s| ==> '0' <= s[i] <= '9'
    decreases n
  {
    if n < 10 then [Digit(n)] else NatToString(n / 10) + [Digit(n % 10)]
  }

  function Digit(d: nat): (c: char)
    requires d < 10
    ensures '0' <= c <= '9'
  {
    ('0' as int + d) as char
  }

  /** The number a string of decimal digits denotes, most significant first. */
  function DecimalValue(s: string): (v: nat)
    requires forall i :: 0 <= i < |s| ==> '0' <= s[i] <= '9'
    decreases |s|
  {
    if s == [] then 0
    else DecimalValue(s[..|s| - 1]) * 10 + (s[|s| - 1] as int - '0' as int)
  }

  /** Reading the rendered digits back gives the number that was rendered. */
  lemma {:induction false} NatToStringRoundTrip(n: nat)
    ensures DecimalValue(NatToString(n)) == n
    decreases n
  {
    var s := NatToString(n);
    if n >= 10 {
      NatToStringRoundTrip(n / 10);
      assert s[..|s| - 1] == NatToString(n / 10);
    }
  }

  /** Distinct numbers render to distinct strings, so distinct channels look
      up distinct properties. */
  lemma NatToStringInjective(m: nat, n: nat)
    requires NatToString(m) == NatToString(n)
    ensures m == n
  {
    NatToStringRoundTrip(m);
    NatToStringRoundTrip(n);
  }
}
