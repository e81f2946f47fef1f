/** Named string templates with `{{placeholder}}` slots, as `StringTemplate::format`
    fills them: every slot is replaced by the value supplied for it, and a slot with no
    value supplied becomes the empty string. Templates are kept already split into
    literal text and slots; parsing the `{{...}}` syntax is not modelled. */
module StringTemplates {

  datatype Piece = Lit(text: string) | Slot(name: string)

  type Template = seq<Piece>

  /** The value supplied for a placeholder, "" when none is. */
  function Var(vars: map<string, string>, name: string): (r: string)
    ensures name !in vars ==> r == ""
    ensures name in vars ==> r == vars[name]
  {
    if name in vars then vars[name] else ""
  }

  function FillPiece(p: Piece, vars: map<string, string>): string
  {
    match p
    case Lit(t) => t
    case Slot(n) => Var(vars, n)
  }

  /** The template with every slot filled. */
  function Format(t: Template, vars: map<string, string>): string
  {
    if |t| == 0 then "" else FillPiece(t[0], vars) + Format(t[1..], vars)
  }

  /** The placeholders a template mentions. */
  function Slots(t: Template): (r: set<string>)
    ensures forall i :: 0 <= i < |t| && t[i].Slot? ==> t[i].name in r
  {
    if |t| == 0 then {}
    else (if t[0].Slot? then {t[0].name} else {}) + Slots(t[1..])
  }

  /** Formatting distributes over concatenation of templates. */
  lemma {:induction false} FormatAppend(a: Template, b: Template, vars: map<string, string>)
    ensures Format(a + b, vars) == Format(a, vars) + Format(b, vars)
  {
    if |a| > 0 {
      assert (a + b)[0] == a[0];
      assert (a + b)[1..] == a[1..] + b;
      FormatAppend(a[1..], b, vars);
    } else {
      assert a + b == b;
    }
  }

  /** Only the values of the placeholders a template mentions matter: a value supplied
      for any other name is dropped. */
  lemma {:induction false} FormatIgnoresOtherNames(t: Template, v: map<string, string>, w: map<string, string>)
    requires forall n :: n in Slots(t) ==> Var(v, n) == Var(w, n)
    ensures Format(t, v) == Format(t, w)
  {
    if |t| > 0 {
      assert t[0].Slot? ==> t[0].name in Slots(t);
      assert Slots(t[1..]) <= Slots(t);
      FormatIgnoresOtherNames(t[1..], v, w);
    }
  }

  /** A template without slots formats to its literal text whatever is supplied. */
  lemma {:induction false} FormatWithoutSlots(t: Template, v: map<string, string>)
    requires Slots(t) == {}
    ensures Format(t, v) == Format(t, map[])
  {
    FormatIgnoresOtherNames(t, v, map[]);
  }

  /** A name no piece of the template mentions is not among its slots. */
  lemma {:induction false} NotASlot(t: Template, n: string)
    requires forall i :: 0 <= i < |t| ==> t[i] != Slot(n)
    ensures n !in Slots(t)
  {
    if |t| > 0 {
      NotASlot(t[1..], n);
    }
  }

  /** The strings of a list, concatenated in order. */
  function Concat(parts: seq<string>): string
  {
    if |parts| == 0 then "" else parts[0] + Concat(parts[1..])
  }

  /** What each piece of a template turns into. */
  function Fills(t: Template, v: map<string, string>): (r: seq<string>)
    ensures |r| == |t|
    ensures forall i :: 0 <= i < |t| ==> r[i] == FillPiece(t[i], v)
  {
    seq(|t|, i requires 0 <= i < |t| => FillPiece(t[i], v))
  }

  /** A formatted template is the concatenation of its filled pieces. */
  lemma {:induction false} FormatIsConcat(t: Template, v: map<string, string>)
    ensures Format(t, v) == Concat(Fills(t, v))
  {
    if |t| > 0 {
      FormatIsConcat(t[1..], v);
      assert Fills(t, v)[1..] == Fills(t[1..], v);
    }
  }
}
