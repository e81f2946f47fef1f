/** The `Color` backed enum: eight Bootstrap theme colors, each backed by its name. */
module Colors {
  import opened Php

  datatype Color = Primary | Secondary | Success | Danger | Warning | Info | Light | Dark

  /** Every case, in declaration order (`Color::cases()`). */
  const AllColors: seq<Color> := [Primary, Secondary, Success, Danger, Warning, Info, Light, Dark]

  /** The backing string of a case (`$color->value`, `value()`). */
  function Value(c: Color): (r: string)
    ensures |r| > 0
    ensures forall i :: 0 <= i < |r| ==> 'a' <= r[i] <= 'z'
  {
    match c
    case Primary => "primary"
    case Secondary => "secondary"
    case Success => "success"
    case Danger => "danger"
    case Warning => "warning"
    case Info => "info"
    case Light => "light"
    case Dark => "dark"
  }

  /** `Color::tryFrom($s)`: the case whose backing string is `s`, if any. */
  function TryFrom(s: string): (r: Option<Color>)
    ensures r.Some? ==> Value(r.value) == s
  {
    if s == "primary" then Some(Primary)
    else if s == "secondary" then Some(Secondary)
    else if s == "success" then Some(Success)
    else if s == "danger" then Some(Danger)
    else if s == "warning" then Some(Warning)
    else if s == "info" then Some(Info)
    else if s == "light" then Some(Light)
    else if s == "dark" then Some(Dark)
    else None
  }

  /** There are exactly eight cases, each listed once. */
  lemma EightCases()
    ensures |AllColors| == 8
    ensures forall c: Color :: c in AllColors
    ensures forall i, j :: 0 <= i < j < |AllColors| ==> AllColors[i] != AllColors[j]
  {
    forall c: Color ensures c in AllColors {
      match c
      case Primary => assert AllColors[0] == c;
      case Secondary => assert AllColors[1] == c;
      case Success => assert AllColors[2] == c;
      case Danger => assert AllColors[3] == c;
      case Warning => assert AllColors[4] == c;
      case Info => assert AllColors[5] == c;
      case Light => assert AllColors[6] == c;
      case Dark => assert AllColors[7] == c;
    }
  }

  /** Looking a case up by its backing string gives the case back; a string that
      backs no case finds nothing. */
  lemma TryFromValue(c: Color, s: string)
    ensures TryFrom(Value(c)) == Some(c)
    ensures TryFrom(s) == None <==> forall d: Color :: Value(d) != s
  {
  }

  /** Distinct cases have distinct backing strings. */
  lemma {:induction false} ValueInjective(c: Color, d: Color)
    requires Value(c) == Value(d)
    ensures c == d
  {
    TryFromValue(c, "");
    TryFromValue(d, "");
  }
}
