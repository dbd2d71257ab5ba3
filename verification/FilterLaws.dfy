/**
 What filters mean, in terms of their texts: which messages an attribute test lets through, and how
 AND, OR and NOT combine the filters between their parentheses.

 The filters are those that the parser can yield, by their canonical text; every filter means the same
 as one of them (`FilterPrinter.CanonicalMeansTheSame`).
 */
module FilterLaws {
  import opened Text
  import opened FilterSyntax
  import opened FilterPrinter

  /** The canonical text of a filter. */
  function TextOf(e: Expr): string {
    Print(e, OR)
  }

  /** An attribute key in ASCII. */
  predicate PlainKey(k: string) {
    k != "" && forall i :: 0 <= i < |k| ==>
      'a' <= k[i] <= 'z' || 'A' <= k[i] <= 'Z' || '0' <= k[i] <= '9' || k[i] == '_' || k[i] == '-'
  }

  /** It is a key, as are others with letters beyond ASCII. */
  lemma PlainIsKey(k: string)
    requires PlainKey(k)
    ensures IsKey(k) && k != ""
  {
  }

  // ----- String literals

  lemma EscapeOne(c: char)
    ensures Escape([c]) == if c == '"' || c == '\\' then ['\\', c] else [c]
  {
    assert [c][1..] == "" && Escape("") == "";
  }

  lemma EscapeFirst(v: string)
    requires v != ""
    ensures Escape(v) == Escape([v[0]]) + Escape(v[1..])
  {
    EscapeOne(v[0]);
  }

  lemma {:induction false} EscapeConcat(v: string, w: string)
    ensures Escape(v + w) == Escape(v) + Escape(w)
  {
    hide Escape;
    if v == "" {
      assert v + w == w;
      EscapeNone(w);
    } else {
      EscapeConcat(v[1..], w);
      EscapeFirst(v);
      EscapeFirst(v + w);
      assert (v + w)[0] == v[0] && (v + w)[1..] == v[1..] + w;
    }
  }

  lemma EscapeNone(w: string)
    ensures Escape("") == "" && "" + Escape(w) == Escape(w)
  {
  }

  /** A literal is its text between quotes, with a backslash before each quote and each backslash. */
  lemma EscapeIs(v: string, c: char)
    ensures Escape(v + [c]) == Escape(v) + if c == '"' || c == '\\' then ['\\', c] else [c]
    ensures Quote(v) == "\"" + Escape(v) + "\"" && Escape("") == ""
  {
    EscapeConcat(v, [c]);
    EscapeOne(c);
  }

  lemma {:induction false} PlainText(v: string)
    requires '"' !in v && '\\' !in v
    ensures Quote(v) == "\"" + v + "\""
  {
    if v == "" {
      assert Escape(v) == v;
    } else {
      PlainText(v[1..]);
      assert Quote(v[1..])[1..|Quote(v[1..])| - 1] == v[1..] && Escape(v[1..]) == v[1..];
    }
  }

  // ----- Attribute tests

  lemma TextMeans(e: Expr, attrs: Attributes)
    requires WellKeyed(e)
    ensures Matches(TextOf(e), attrs) <==> Eval(e, attrs)
  {
    hide Print, ParseOr, Eval, WellKeyed;
    RoundTrip(e);
    PrintStart(e, OR);
  }

  lemma HasMeans(k: string, attrs: Attributes)
    requires IsKey(k) && k != ""
    ensures Matches("attributes:" + k, attrs) <==> k in attrs
  {
    hide ParseOr, Matches;
    TextMeans(Has(k), attrs);
    assert Body(Has(k)) == "attributes:" + k;
    assert Body(Has(k)) == TextOf(Has(k));
  }

  lemma HasPrefixMeans(k: string, v: string, attrs: Attributes)
    requires IsKey(k) && k != ""
    ensures Matches("hasPrefix(attributes." + k + ", " + Quote(v) + ")", attrs) <==>
      k in attrs && |v| <= |attrs[k]| && attrs[k][..|v|] == v
  {
    hide ParseOr, Quote;
    TextMeans(HasPrefix(k, v), attrs);
    assert "hasPrefix(attributes." + k + ", " + Quote(v) + ")" ==
      "hasPrefix(attributes." + (k + (", " + (Quote(v) + ")")));
    assert Body(HasPrefix(k, v)) == TextOf(HasPrefix(k, v));
  }

  /** The text of a comparison. */
  function Comparing(k: string, op: string, v: string): string {
    "attributes." + k + " " + op + " " + Quote(v)
  }

  lemma ComparingIs(k: string, c: Comparison, v: string, attrs: Attributes)
    requires IsKey(k) && k != ""
    ensures Matches(Comparing(k, Operator(c), v), attrs) <==> Eval(Compare(k, c, v), attrs)
  {
    hide ParseOr, Quote, Operator, Eval;
    TextMeans(Compare(k, c, v), attrs);
    assert Comparing(k, Operator(c), v) == "attributes." + (k + (" " + (Operator(c) + (" " + Quote(v)))));
    assert Body(Compare(k, c, v)) == TextOf(Compare(k, c, v));
  }

  /** `a` comes before `b` in the order of a dictionary. */
  ghost predicate Before(a: string, b: string) {
    exists k: nat :: DiffersAt(a, b, k)
  }

  /** Texts are equal or in the order of a dictionary; only `!=` holds of a missing key. */
  lemma ComparisonMeans(k: string, v: string, attrs: Attributes)
    requires IsKey(k) && k != ""
    ensures Matches(Comparing(k, "=", v), attrs) <==> k in attrs && attrs[k] == v
    ensures Matches(Comparing(k, "!=", v), attrs) <==> k !in attrs || attrs[k] != v
    ensures Matches(Comparing(k, "<", v), attrs) <==> k in attrs && Before(attrs[k], v)
    ensures Matches(Comparing(k, "<=", v), attrs) <==> k in attrs && (attrs[k] == v || Before(attrs[k], v))
    ensures Matches(Comparing(k, ">", v), attrs) <==> k in attrs && Before(v, attrs[k])
    ensures Matches(Comparing(k, ">=", v), attrs) <==> k in attrs && (attrs[k] == v || Before(v, attrs[k]))
  {
    hide Matches, Comparing, Less, DiffersAt;
    ComparingIs(k, Equal, v, attrs);
    ComparingIs(k, NotEqual, v, attrs);
    ComparingIs(k, Below, v, attrs);
    ComparingIs(k, AtMost, v, attrs);
    ComparingIs(k, Above, v, attrs);
    ComparingIs(k, AtLeast, v, attrs);
    if k in attrs {
      LessIs(attrs[k], v);
      LessIs(v, attrs[k]);
      LessTrichotomy(attrs[k], v);
      LessTrichotomy(v, attrs[k]);
    }
  }

  // ----- Combinations

  function InParens(e: Expr): string {
    "(" + (TextOf(e) + ")")
  }

  /** An operand in parentheses is read whole by the rule for NOT. */
  lemma OperandParses(e: Expr, s: string, i: nat, j: nat)
    requires WellKeyed(e) && i <= |s| && SkipSpace(s, i) == j && HasAt(s, j, InParens(e))
    ensures ParseNot(s, i) == (e, j + |InParens(e)|)
  {
    hide ParseNot, ParsePrimary, SkipSpace, Print, WellKeyed;
    SkipSpaceStops(s, i);
    ParenParses(e, s, j, j);
    NotStart(s, i, j, e, j + |InParens(e)|);
  }

  /** Two operands in parentheses with an operator between them, as they stand in the text. */
  lemma TwoOperands(l: Expr, op: string, w: string, r: Expr)
    requires op == " " + w + " " && (w == "OR" || w == "AND") && WellKeyed(l) && WellKeyed(r)
    ensures var s := InParens(l) + (op + InParens(r));
      var k, m := |InParens(l)|, |InParens(l)| + 1 + |w|;
      && ParseNot(s, 0) == (l, k) && ParseNot(s, m) == (r, |s|)
      && m <= |s| && SkipSpace(s, k) == k + 1 && KeywordAt(s, k + 1, w)
      && (w == "OR" ==> Stops(s, k, "AND"))
  {
    hide ParseNot, SkipSpace, KeywordAt, InParens, HasAt, WellKeyed;
    var s := InParens(l) + (op + InParens(r));
    var k, m := |InParens(l)|, |InParens(l)| + 1 + |w|;
    WholeText(s);
    OperandsAt(s, 0, InParens(l), op, w, InParens(r));
    ParensStart(l);
    ParensStart(r);
    StartsWith(s, InParens(l), op + InParens(r));
    OperandParses(l, s, 0, 0);
    OperatorBetween(s, k, w, InParens(r), m);
    OperandParses(r, s, m, m + 1);
  }

  lemma WholeText(s: string)
    ensures HasAt(s, 0, s)
  {
  }

  lemma ParensStart(e: Expr)
    ensures InParens(e) != "" && InParens(e)[0] == '(' && !IsSpace(InParens(e)[0])
  {
  }

  lemma StartsWith(s: string, a: string, b: string)
    requires s == a + b && a != "" && a[0] == '('
    ensures SkipSpace(s, 0) == 0
  {
    NothingToSkip(s, 0);
  }

  lemma Ends(s: string)
    ensures Stops(s, |s|, "AND") && Stops(s, |s|, "OR")
  {
    EndsExprStops(s, |s|);
  }

  lemma AndText(l: Expr, r: Expr)
    requires WellKeyed(l) && WellKeyed(r)
    ensures Parse(InParens(l) + (" AND " + InParens(r))) == And(l, r)
  {
    hide ParseNot, ParseAnd, AndTail, SkipSpace, KeywordAt, InParens, WellKeyed, ParseOr;
    var s := InParens(l) + (" AND " + InParens(r));
    var k := |InParens(l)|;
    TwoOperands(l, " AND ", "AND", r);
    AndStart(s, 0, l, k);
    AndStep(s, l, k, k + 4, r, |s|);
    Ends(s);
    OrStart(s, 0, And(l, r), |s|);
  }

  lemma OrText(l: Expr, r: Expr)
    requires WellKeyed(l) && WellKeyed(r)
    ensures Parse(InParens(l) + (" OR " + InParens(r))) == Or(l, r)
  {
    hide ParseNot, ParseAnd, AndTail, SkipSpace, KeywordAt, InParens, WellKeyed, ParseOr;
    var s := InParens(l) + (" OR " + InParens(r));
    var k := |InParens(l)|;
    TwoOperands(l, " OR ", "OR", r);
    AndStart(s, 0, l, k);
    OrStart(s, 0, l, k);
    AndStart(s, k + 3, r, |s|);
    Ends(s);
    OrStep(s, l, k, k + 3, r, |s|);
  }

  lemma LoneOperand(s: string, e: Expr)
    requires ParseNot(s, 0) == (e, |s|)
    ensures Parse(s) == e
  {
    hide ParseNot, ParseAnd, AndTail, SkipSpace, ParseOr;
    AndStart(s, 0, e, |s|);
    Ends(s);
    OrStart(s, 0, e, |s|);
  }

  lemma NotText(e: Expr)
    requires WellKeyed(e)
    ensures Parse("NOT " + InParens(e)) == Not(e) && Parse("-" + InParens(e)) == Not(e)
  {
    hide ParseNot, SkipSpace, InParens, WellKeyed, Parse, KeywordAt, HasAt;
    var s, t := "NOT " + InParens(e), "-" + InParens(e);
    ParensStart(e);
    WholeText(s);
    NotOperand(s, 0, InParens(e));
    NothingToSkip(s, 0);
    OperandParses(e, s, 3, 4);
    NotStep(s, 0, 0, e, |s|);
    LoneOperand(s, Not(e));
    WholeText(t);
    HasAtSplit(t, 0, "-", InParens(e));
    NothingToSkip(t, 1);
    OperandParses(e, t, 1, 1);
    MinusStep(t, e, |t|);
    LoneOperand(t, Not(e));
  }

  lemma MinusStep(s: string, f: Expr, k: nat)
    requires s != "" && s[0] == '-' && ParseNot(s, 1) == (f, k)
    ensures ParseNot(s, 0) == (Not(f), k)
  {
    hide ParsePrimary;
    NothingToSkip(s, 0);
    if HasAt(s, 0, "NOT") { HasAtIndex(s, 0, "NOT", 0); }
  }

  /** Both filters must match for AND, one of them for OR, and the filter must not for NOT. */
  lemma CombinationsMean(l: Expr, r: Expr, attrs: Attributes)
    requires WellKeyed(l) && WellKeyed(r)
    ensures Matches("(" + TextOf(l) + ") AND (" + TextOf(r) + ")", attrs) <==>
      Matches(TextOf(l), attrs) && Matches(TextOf(r), attrs)
    ensures Matches("(" + TextOf(l) + ") OR (" + TextOf(r) + ")", attrs) <==>
      Matches(TextOf(l), attrs) || Matches(TextOf(r), attrs)
    ensures Matches("NOT (" + TextOf(l) + ")", attrs) <==> !Matches(TextOf(l), attrs)
    ensures Matches("-(" + TextOf(l) + ")", attrs) <==> !Matches(TextOf(l), attrs)
  {
    hide Parse, TextOf, WellKeyed;
    TextMeans(l, attrs);
    TextMeans(r, attrs);
    AndText(l, r);
    OrText(l, r);
    NotText(l);
    assert "(" + TextOf(l) + ") AND (" + TextOf(r) + ")" == InParens(l) + (" AND " + InParens(r));
    assert "(" + TextOf(l) + ") OR (" + TextOf(r) + ")" == InParens(l) + (" OR " + InParens(r));
    assert "NOT (" + TextOf(l) + ")" == "NOT " + InParens(l);
    assert "-(" + TextOf(l) + ")" == "-" + InParens(l);
  }

  /** The same without the parentheses that precedence makes unnecessary. */
  lemma PrintedMeans(l: Expr, r: Expr, attrs: Attributes)
    requires WellKeyed(l) && WellKeyed(r)
    ensures Matches(TextOf(And(l, r)), attrs) <==> Matches(TextOf(l), attrs) && Matches(TextOf(r), attrs)
    ensures Matches(TextOf(Or(l, r)), attrs) <==> Matches(TextOf(l), attrs) || Matches(TextOf(r), attrs)
    ensures Matches(TextOf(Not(l)), attrs) <==> !Matches(TextOf(l), attrs)
  {
    hide TextOf, Matches;
    TextMeans(l, attrs);
    TextMeans(r, attrs);
    TextMeans(And(l, r), attrs);
    TextMeans(Or(l, r), attrs);
    TextMeans(Not(l), attrs);
  }

  // ----- Blanks

  predicate Blank(w: string) {
    forall i :: 0 <= i < |w| ==> w[i] == ' ' || '\t' <= w[i] <= '\r'
  }

  lemma {:induction false} SkipsBlank(s: string, i: nat, w: string, t: string)
    requires s == w + t && i <= |w| && Blank(w) && t != "" && !IsSpace(t[0])
    ensures SkipSpace(s, i) == |w|
    decreases |w| - i
  {
    if i < |w| {
      assert s[i] == w[i];
      SkipsBlank(s, i + 1, w, t);
    } else {
      assert s[i] == t[0];
      NothingToSkip(s, i);
    }
  }

  /** White space before a filter does not change it; the empty filter lets everything through. */
  lemma BlanksBefore(w: string, e: Expr, attrs: Attributes)
    requires Blank(w) && WellKeyed(e)
    ensures Matches(w + TextOf(e), attrs) <==> Matches(TextOf(e), attrs)
    ensures Matches("", attrs)
  {
    hide ParseOr, OrTail, Print, WellKeyed, Eval, SkipSpace;
    var s := w + TextOf(e);
    PrintStart(e, OR);
    SkipsBlank(s, 0, w, TextOf(e));
    assert s[|w|..|w| + |TextOf(e)|] == TextOf(e);
    Ends(s);
    EndsExprStops(s, |s|);
    OrParses(e, s, 0, |w|);
    EndOfOr(s, e);
    TextMeans(e, attrs);
  }

  lemma EndOfOr(s: string, e: Expr)
    ensures OrTail(s, e, |s|) == (e, |s|)
  {
    Ends(s);
  }
}
