/**
 * The positional-parameter substitution the adapter applies to a template
 * before emitting it: every `{d}` (one decimal digit) whose index names a
 * supplied parameter is replaced by that parameter; everything else, an
 * index with no parameter included, is copied unchanged.
 */
module MessageFormat {

  predicate IsDigit(c: char) {
    '0' <= c <= '9'
  }

  function DigitValue(c: char): (d: nat)
    requires IsDigit(c)
    ensures d < 10
  {
    (c as int) - ('0' as int)
  }

  function DigitChar(d: nat): (c: char)
    requires d < 10
    ensures IsDigit(c) && DigitValue(c) == d
  {
    (('0' as int) + d) as char
  }

  /** Does `t` start with a placeholder `{d}` for a parameter that exists? */
  predicate StartsWithHole(t: string, params: seq<string>) {
    && |t| >= 3 && t[0] == '{' && IsDigit(t[1]) && t[2] == '}'
    && DigitValue(t[1]) < |params|
  }

  /** A template without `{` contains no placeholder. */
  predicate NoBrace(t: string) {
    forall i :: 0 <= i < |t| ==> t[i] != '{'
  }

  /**
   * `MessageFormat.format(t, params)` restricted to plain `{d}` placeholders.
   * With no parameters, or with no placeholder in the template, the
   * template comes back unchanged.
   */
  function Format(t: string, params: seq<string>): (r: string)
    ensures params == [] ==> r == t
    ensures NoBrace(t) ==> r == t
    decreases |t|
  {
    if t == [] then []
    else if StartsWithHole(t, params) then params[DigitValue(t[1])] + Format(t[3..], params)
    else [t[0]] + Format(t[1..], params)
  }

  /** Literal text in front of the rest of a template is copied as it is. */
  lemma {:induction false} FormatLiteralPrefix(lit: string, rest: string, params: seq<string>)
    requires NoBrace(lit)
    ensures Format(lit + rest, params) == lit + Format(rest, params)
    decreases |lit|
  {
    if lit != [] {
      var t := lit + rest;
      assert t[0] == lit[0] && t[1..] == lit[1..] + rest;
      assert !StartsWithHole(t, params);
      assert Format(t, params) == [lit[0]] + Format(lit[1..] + rest, params);
      FormatLiteralPrefix(lit[1..], rest, params);
      calc {
        Format(t, params);
        [lit[0]] + (lit[1..] + Format(rest, params));
        ([lit[0]] + lit[1..]) + Format(rest, params);
        { assert [lit[0]] + lit[1..] == lit; }
        lit + Format(rest, params);
      }
    } else {
      assert lit + rest == rest;
    }
  }

  /** A placeholder for the `d`-th parameter becomes that parameter. */
  lemma FormatHole(d: nat, rest: string, params: seq<string>)
    requires d < 10 && d < |params|
    ensures Format(['{', DigitChar(d), '}'] + rest, params) == params[d] + Format(rest, params)
  {
  }

  /** A placeholder for a parameter that was not supplied is copied as it is. */
  lemma FormatMissingHole(d: nat, rest: string, params: seq<string>)
    requires |params| <= d < 10
    ensures Format(['{', DigitChar(d), '}'] + rest, params) == ['{', DigitChar(d), '}'] + Format(rest, params)
  {
    var t := ['{', DigitChar(d), '}'] + rest;
    assert !StartsWithHole(t, params);
    assert t[1..] == [DigitChar(d), '}'] + rest;
    FormatLiteralPrefix([DigitChar(d), '}'], rest, params);
  }

  /** A template ending in one placeholder, as in `"x: {0}"` with one parameter. */
  lemma FormatOneParam(prefix: string, p: string)
    requires NoBrace(prefix)
    ensures Format(prefix + "{0}", [p]) == prefix + p
  {
    FormatLiteralPrefix(prefix, "{0}", [p]);
    FormatHole(0, [], [p]);
    assert ['{', DigitChar(0), '}'] + [] == "{0}";
  }

  /** A template ending in two placeholders, as in `"x: {0},{1}"` with two parameters. */
  lemma FormatTwoParams(prefix: string, p: string, q: string)
    requires NoBrace(prefix)
    ensures Format(prefix + "{0},{1}", [p, q]) == prefix + p + "," + q
  {
    var ps := [p, q];
    FormatLiteralPrefix(prefix, "{0},{1}", ps);
    FormatHole(0, ",{1}", ps);
    assert ['{', DigitChar(0), '}'] + ",{1}" == "{0},{1}";
    FormatLiteralPrefix(",", "{1}", ps);
    assert "," + "{1}" == ",{1}";
    FormatHole(1, [], ps);
    assert ['{', DigitChar(1), '}'] + [] == "{1}";
  }

  // An independent definition of the substitution, over a parsed template.

  /** A template piece: one literal character, or the placeholder `{index}`. */
  datatype Piece = Text(c: char) | Hole(index: nat)

  /** Literal pieces never hold `{`, and placeholder indices are single digits. */
  predicate WellFormed(ps: seq<Piece>) {
    forall i :: 0 <= i < |ps| ==>
      match ps[i]
      case Text(c) => c != '{'
      case Hole(k) => k < 10
  }

  /** The template text that spells out the pieces. */
  function Render(ps: seq<Piece>): string
    requires WellFormed(ps)
  {
    if ps == [] then []
    else
      match ps[0]
      case Text(c) => [c] + Render(ps[1..])
      case Hole(k) => ['{', DigitChar(k), '}'] + Render(ps[1..])
  }

  /** The message the pieces denote: each placeholder with a parameter becomes it. */
  function Expand(ps: seq<Piece>, params: seq<string>): string
    requires WellFormed(ps)
  {
    if ps == [] then []
    else
      match ps[0]
      case Text(c) => [c] + Expand(ps[1..], params)
      case Hole(k) =>
        (if k < |params| then params[k] else ['{', DigitChar(k), '}']) + Expand(ps[1..], params)
  }

  /** Substitution on the template text agrees with the parsed-template definition. */
  lemma {:induction false} FormatMatchesExpand(ps: seq<Piece>, params: seq<string>)
    requires WellFormed(ps)
    ensures Format(Render(ps), params) == Expand(ps, params)
    decreases |ps|
  {
    if ps != [] {
      assert WellFormed(ps[1..]) by {
        forall i | 0 <= i < |ps[1..]| ensures ps[1..][i] == ps[i + 1] { }
      }
      FormatMatchesExpand(ps[1..], params);
      match ps[0]
      case Text(c) =>
        assert c != '{';
        FormatLiteralPrefix([c], Render(ps[1..]), params);
      case Hole(k) =>
        var hole := ['{', DigitChar(k), '}'];
        if k < |params| {
          FormatHole(k, Render(ps[1..]), params);
        } else {
          FormatMissingHole(k, Render(ps[1..]), params);
        }
    }
  }
}
