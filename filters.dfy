/** CSS filter expressions as the photo editor builds them: a filter is a
    list of function terms such as `brightness(110%)`, and the empty list is
    the keyword `none`. The text of a number is left to a parameter `show`,
    which stands for JavaScript's number-to-string conversion. */
module Filters {

  datatype Unit = Percent | Px | Deg

  /** One CSS filter function, `name(amount unit)`. */
  datatype Term = Term(name: string, amount: real, unit: Unit)

  /** A filter expression; `[]` is `none`. */
  type Filter = seq<Term>

  function UnitText(u: Unit): string {
    match u
    case Percent => "%"
    case Px => "px"
    case Deg => "deg"
  }

  function TermText(t: Term, show: real -> string): (r: string)
    ensures |r| > |t.name| && r[..|t.name|] == t.name && r[|t.name|] == '('
  {
    t.name + "(" + show(t.amount) + UnitText(t.unit) + ")"
  }

  /** The terms of a non-empty filter, separated by single spaces. */
  function Join(f: Filter, show: real -> string): (r: string)
    requires f != []
    ensures |r| > |f[0].name| && r[|f[0].name|] == '('
  {
    if |f| == 1 then TermText(f[0], show)
    else TermText(f[0], show) + " " + Join(f[1..], show)
  }

  /** The text of a filter as the `filter` property of a canvas takes it. */
  function Render(f: Filter, show: real -> string): string {
    if f == [] then "none" else Join(f, show)
  }

  /** Joining two filters puts exactly one space between their texts. */
  lemma {:induction false} JoinAppend(a: Filter, b: Filter, show: real -> string)
    requires a != [] && b != []
    ensures Join(a + b, show) == Join(a, show) + " " + Join(b, show)
    decreases |a|
  {
    assert (a + b)[0] == a[0];
    if |a| == 1 {
      assert (a + b)[1..] == b;
    } else {
      assert (a + b)[1..] == a[1..] + b;
      JoinAppend(a[1..], b, show);
    }
  }

  /** Only the empty filter renders as the keyword `none`. */
  lemma RenderNone(f: Filter, show: real -> string)
    ensures Render(f, show) == "none" <==> f == []
  {
    if f != [] {
      assert Join(f, show)[|f[0].name|] == '(';
    }
  }

  /** The text of `a + b` is the text of `a`, a space and the text of `b`,
      unless `a` is `none`, in which case it is the text of `b`. */
  lemma RenderAppend(a: Filter, b: Filter, show: real -> string)
    requires b != []
    ensures Render(a + b, show)
         == if Render(a, show) == "none" then Render(b, show)
            else Render(a, show) + " " + Render(b, show)
  {
    RenderNone(a, show);
    if a == [] {
      assert a + b == b;
    } else {
      JoinAppend(a, b, show);
    }
  }
}
