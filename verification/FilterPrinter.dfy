/**
 A printer of filters with as few parentheses as precedence allows (NOT over AND over OR, both
 operators to the left), and the proof that the parser undoes it. Since the parser yields only
 printable trees, every filter text, malformed ones included, has a canonical text of the same meaning.
 */
module FilterPrinter {
  import opened Text
  import opened FilterSyntax

  const OR := 0
  const AND := 1
  const NOT := 2
  const ATOM := 3

  function Precedence(e: Expr): nat {
    match e
    case Or(_, _) => OR
    case And(_, _) => AND
    case Not(_) => NOT
    case _ => ATOM
  }

  /** A string literal between quotes, with '"' and '\' escaped. */
  function Escape(v: string): string {
    if v == "" then ""
    else (if v[0] == '"' || v[0] == '\\' then ['\\', v[0]] else [v[0]]) + Escape(v[1..])
  }

  function Quote(v: string): string {
    "\"" + (Escape(v) + "\"")
  }

  function Operator(c: Comparison): string {
    match c
    case Equal => "="
    case NotEqual => "!="
    case Below => "<"
    case AtMost => "<="
    case Above => ">"
    case AtLeast => ">="
  }

  /** The text of `e` where an operand of precedence `level` or higher is expected. */
  function Print(e: Expr, level: nat): string
    decreases e, 1
  {
    if Precedence(e) < level then "(" + (Body(e) + ")") else Body(e)
  }

  /** An empty key must be followed by a byte that starts no identifier, hence the parentheses. */
  function Body(e: Expr): string
    decreases e, 0
  {
    match e
    case Or(l, r) => Print(l, OR) + (" OR " + Print(r, AND))
    case And(l, r) => Print(l, AND) + (" AND " + Print(r, NOT))
    case Not(f) => "NOT " + Print(f, NOT)
    case Has(k) => if k == "" then "(attributes:)" else "attributes:" + k
    case Compare(k, c, v) => "attributes." + (k + (" " + (Operator(c) + (" " + Quote(v)))))
    case HasPrefix(k, v) => "hasPrefix(attributes." + (k + (", " + (Quote(v) + ")")))
    case Never => "x"
  }

  // ----- Tokens

  /** A literal reads back as its content, wherever it stands. */
  lemma {:induction false} StringBodyUndoesEscape(s: string, i: nat, v: string)
    requires HasAt(s, i, Escape(v) + "\"")
    ensures StringBody(s, i) == (v, i + |Escape(v)| + 1)
    decreases |v|
  {
    hide HasAt;
    if v == "" {
      assert Escape(v) + "\"" == "\"";
      HasAtIndex(s, i, "\"", 0);
    } else {
      var tail := Escape(v[1..]) + "\"";
      if v[0] == '"' || v[0] == '\\' {
        assert Escape(v) + "\"" == ['\\', v[0]] + tail;
        HasAtSplit(s, i, ['\\', v[0]], tail);
        HasAtIndex(s, i, ['\\', v[0]], 0);
        HasAtIndex(s, i, ['\\', v[0]], 1);
        StringBodyUndoesEscape(s, i + 2, v[1..]);
      } else {
        assert Escape(v) + "\"" == [v[0]] + tail;
        HasAtSplit(s, i, [v[0]], tail);
        HasAtIndex(s, i, [v[0]], 0);
        StringBodyUndoesEscape(s, i + 1, v[1..]);
      }
      assert v == [v[0]] + v[1..];
    }
  }

  lemma QuoteReadsBack(s: string, i: nat, j: nat, v: string)
    requires i <= |s| && SkipSpace(s, i) == j && HasAt(s, j, Quote(v))
    ensures ReadString(s, i) == (v, j + |Quote(v)|)
  {
    HasAtSplit(s, j, "\"", Escape(v) + "\"");
    HasAtIndex(s, j, "\"", 0);
    StringBodyUndoesEscape(s, j + 1, v);
  }

  /** The identifier ends here. */
  predicate EndsIdent(s: string, k: nat) {
    k <= |s| && (k < |s| ==> !IsKeyChar(s[k]))
  }

  lemma {:induction false} IdentEndAt(s: string, j: nat, k: string)
    requires HasAt(s, j, k) && IsKey(k) && EndsIdent(s, j + |k|)
    ensures IdentEnd(s, j) == j + |k|
    decreases |k|
  {
    if k != "" {
      HasAtIndex(s, j, k, 0);
      assert s[j + 1..j + |k|] == s[j..j + |k|][1..];
      IdentEndAt(s, j + 1, k[1..]);
    }
  }

  lemma IdentReadsBack(s: string, i: nat, j: nat, k: string)
    requires i <= |s| && SkipSpace(s, i) == j && HasAt(s, j, k) && IsKey(k) && EndsIdent(s, j + |k|)
    ensures ReadIdent(s, i) == (k, j + |k|)
  {
    IdentEndAt(s, j, k);
  }

  lemma NothingToSkip(s: string, i: nat)
    requires i <= |s| && (i < |s| ==> !IsSpace(s[i]))
    ensures SkipSpace(s, i) == i
  {
  }

  /** One blank before a token that does not start with a space. */
  lemma SkipBlank(s: string, i: nat)
    requires CharAt(s, i, ' ') && i + 1 < |s| && !IsSpace(s[i + 1])
    ensures SkipSpace(s, i) == i + 1
  {
    assert SkipSpace(s, i + 1) == i + 1;
  }

  // ----- Atoms. First where the pieces of the text are, then what the parser makes of them.

  lemma AttributesWord(s: string, i: nat, j: nat)
    requires i <= |s| && SkipSpace(s, i) == j && HasAt(s, j, "attributes")
    requires CharAt(s, j + 10, ':') || CharAt(s, j + 10, '.')
    ensures ParsePrimary(s, i) == ParseField(s, j + 10)
    ensures s[j + 10] == '.' ==> ParsePrimary(s, i) == ParseComparison(s, j + 11)
    ensures s[j] == 'a'
  {
    hide SkipSpace, IdentEnd, ReadIdent, ParseOr, OrTail, ParseHasPrefix, ParseComparison;
    HasAtIndex(s, j, "attributes", 0);
    if HasAt(s, j, "hasPrefix(") {
      HasAtIndex(s, j, "hasPrefix(", 0);
    }
    SkipSpaceStops(s, i);
    IdentReadsBack(s, j, j, "attributes");
    NothingToSkip(s, j + 10);
  }

  /** A key, possibly empty, before a byte that is neither a space nor part of a key. */
  lemma KeyReadsBack(s: string, i: nat, k: string)
    requires HasAt(s, i, k) && IsKey(k) && EndsIdent(s, i + |k|)
    requires k == "" && i < |s| ==> !IsSpace(s[i])
    ensures ReadIdent(s, i) == (k, i + |k|)
  {
    if k != "" {
      HasAtIndex(s, i, k, 0);
    }
    IdentReadsBack(s, i, i, k);
  }

  lemma HasParses(k: string, s: string, i: nat, j: nat)
    requires IsKey(k) && i <= |s| && SkipSpace(s, i) == j && HasAt(s, j, "attributes:" + k)
    requires EndsIdent(s, j + 11 + |k|)
    requires k == "" ==> CharAt(s, j + 11, ')')
    ensures ParsePrimary(s, i) == (Has(k), j + 11 + |k|)
    ensures s[j] == 'a'
  {
    hide IdentEnd, ParsePrimary;
    HasAtSplit(s, j, "attributes:", k);
    assert "attributes:" == "attributes" + ":";
    HasAtSplit(s, j, "attributes", ":");
    HasAtIndex(s, j + 10, ":", 0);
    AttributesWord(s, i, j);
    KeyReadsBack(s, j + 11, k);
  }

  lemma CompareLayout(k: string, o: string, q: string, s: string, j: nat)
    requires HasAt(s, j, "attributes." + (k + (" " + (o + (" " + q)))))
    ensures HasAt(s, j, "attributes") && CharAt(s, j + 10, '.') && HasAt(s, j + 11, k)
    ensures CharAt(s, j + 11 + |k|, ' ') && HasAt(s, j + 12 + |k|, o)
    ensures CharAt(s, j + 12 + |k| + |o|, ' ') && HasAt(s, j + 13 + |k| + |o|, q)
  {
    hide HasAt;
    var rest := o + (" " + q);
    HasAtSplit(s, j, "attributes.", k + (" " + rest));
    assert "attributes." == "attributes" + ".";
    HasAtSplit(s, j, "attributes", ".");
    HasAtIndex(s, j + 10, ".", 0);
    HasAtSplit(s, j + 11, k, " " + rest);
    HasAtSplit(s, j + 11 + |k|, " ", rest);
    HasAtIndex(s, j + 11 + |k|, " ", 0);
    HasAtSplit(s, j + 12 + |k|, o, " " + q);
    HasAtSplit(s, j + 12 + |k| + |o|, " ", q);
    HasAtIndex(s, j + 12 + |k| + |o|, " ", 0);
  }

  /** A key, possibly empty, and the operator after it. */
  lemma KeyThenOperator(s: string, i: nat, k: string, c: Comparison)
    requires HasAt(s, i, k) && IsKey(k)
    requires CharAt(s, i + |k|, ' ') && HasAt(s, i + |k| + 1, Operator(c))
    requires CharAt(s, i + |k| + 1 + |Operator(c)|, ' ')
    ensures var key := ReadIdent(s, i);
      key.0 == k && ReadOp(s, key.1) == (Some(c), i + |k| + 1 + |Operator(c)|)
  {
    hide IdentEnd, HasAt, ReadIdent, ReadOp;
    var op := i + |k|;
    OperatorIsBlack(s, op + 1, c);
    SkipBlank(s, op);
    if k == "" {
      IdentReadsBack(s, i, i + 1, "");
      NothingToSkip(s, i + 1);
      OperatorReadsBack(s, i + 1, i + 1, c);
    } else {
      HasAtIndex(s, i, k, 0);
      IdentReadsBack(s, i, i, k);
      OperatorReadsBack(s, op, op + 1, c);
    }
  }

  lemma OperatorIsBlack(s: string, j: nat, c: Comparison)
    requires HasAt(s, j, Operator(c))
    ensures j < |s| && !IsSpace(s[j]) && EndsIdent(s, j)
  {
    HasAtIndex(s, j, Operator(c), 0);
  }

  lemma OperatorReadsBack(s: string, i: nat, j: nat, c: Comparison)
    requires i <= |s| && SkipSpace(s, i) == j && HasAt(s, j, Operator(c)) && CharAt(s, j + |Operator(c)|, ' ')
    ensures ReadOp(s, i) == (Some(c), j + |Operator(c)|)
  {
    hide HasAt, SkipSpace;
    HasAtIndex(s, j, Operator(c), 0);
    HasAtIndex(s, j, Operator(c), |Operator(c)| - 1);
  }

  lemma CompareParses(k: string, c: Comparison, v: string, s: string, i: nat, j: nat)
    requires IsKey(k) && i <= |s| && SkipSpace(s, i) == j
    requires HasAt(s, j, "attributes." + (k + (" " + (Operator(c) + (" " + Quote(v))))))
    ensures ParsePrimary(s, i) == (Compare(k, c, v), j + 13 + |k| + |Operator(c)| + |Quote(v)|)
    ensures s[j] == 'a'
  {
    hide ParsePrimary, ParseField, ParseComparison, IdentEnd, SkipSpace;
    var o, q := Operator(c), Quote(v);
    CompareLayout(k, o, q, s, j);
    AttributesWord(s, i, j);
    ComparisonParses(k, c, v, s, j + 11);
  }

  lemma ComparisonParses(k: string, c: Comparison, v: string, s: string, i: nat)
    requires HasAt(s, i, k) && IsKey(k) && CharAt(s, i + |k|, ' ') && HasAt(s, i + |k| + 1, Operator(c))
    requires CharAt(s, i + |k| + 1 + |Operator(c)|, ' ') && HasAt(s, i + |k| + 2 + |Operator(c)|, Quote(v))
    ensures ParseComparison(s, i) == (Compare(k, c, v), i + |k| + 2 + |Operator(c)| + |Quote(v)|)
  {
    KeyThenOperator(s, i, k, c);
    LiteralAfterBlank(s, i + |k| + 1 + |Operator(c)|, v);
  }

  lemma LiteralAfterBlank(s: string, i: nat, v: string)
    requires CharAt(s, i, ' ') && HasAt(s, i + 1, Quote(v))
    ensures ReadString(s, i) == (v, i + 1 + |Quote(v)|)
  {
    HasAtIndex(s, i + 1, Quote(v), 0);
    SkipBlank(s, i);
    QuoteReadsBack(s, i, i + 1, v);
  }

  lemma HasPrefixLayout(k: string, q: string, s: string, j: nat)
    requires HasAt(s, j, "hasPrefix(attributes." + (k + (", " + (q + ")"))))
    ensures HasAt(s, j, "hasPrefix(") && HasAt(s, j + 10, "attributes") && CharAt(s, j + 20, '.') && HasAt(s, j + 21, k)
    ensures CharAt(s, j + 21 + |k|, ',') && CharAt(s, j + 22 + |k|, ' ')
    ensures HasAt(s, j + 23 + |k|, q) && CharAt(s, j + 23 + |k| + |q|, ')')
  {
    hide HasAt;
    var tail := q + ")";
    var rest := ", " + tail;
    HasAtSplit(s, j, "hasPrefix(attributes.", k + rest);
    HasPrefixHead(s, j);
    HasAtSplit(s, j + 21, k, rest);
    var comma := j + 21 + |k|;
    HasAtSplit(s, comma, ", ", tail);
    HasAtIndex(s, comma, ", ", 0);
    HasAtIndex(s, comma, ", ", 1);
    HasAtSplit(s, comma + 2, q, ")");
    HasAtIndex(s, comma + 2 + |q|, ")", 0);
  }

  lemma HasPrefixHead(s: string, j: nat)
    requires HasAt(s, j, "hasPrefix(attributes.")
    ensures HasAt(s, j, "hasPrefix(") && HasAt(s, j + 10, "attributes") && CharAt(s, j + 20, '.')
  {
    assert "hasPrefix(attributes." == "hasPrefix(" + "attributes.";
    HasAtSplit(s, j, "hasPrefix(", "attributes.");
    assert "attributes." == "attributes" + ".";
    HasAtSplit(s, j + 10, "attributes", ".");
    HasAtIndex(s, j + 20, ".", 0);
  }

  lemma HasPrefixParses(k: string, v: string, s: string, i: nat, j: nat)
    requires IsKey(k) && i <= |s| && SkipSpace(s, i) == j
    requires HasAt(s, j, "hasPrefix(attributes." + (k + (", " + (Quote(v) + ")"))))
    ensures ParsePrimary(s, i) == (HasPrefix(k, v), j + 24 + |k| + |Quote(v)|)
    ensures s[j] == 'h'
  {
    hide IdentEnd, ParseHasPrefix;
    HasPrefixLayout(k, Quote(v), s, j);
    HasAtIndex(s, j, "hasPrefix(", 0);
    PrefixTestParses(k, v, s, j + 10);
  }

  lemma PrefixTestParses(k: string, v: string, s: string, i: nat)
    requires HasAt(s, i, "attributes") && CharAt(s, i + 10, '.') && HasAt(s, i + 11, k) && IsKey(k)
    requires CharAt(s, i + 11 + |k|, ',') && CharAt(s, i + 12 + |k|, ' ')
    requires HasAt(s, i + 13 + |k|, Quote(v)) && CharAt(s, i + 13 + |k| + |Quote(v)|, ')')
    ensures ParseHasPrefix(s, i) == (HasPrefix(k, v), i + 14 + |k| + |Quote(v)|)
  {
    hide IdentEnd, SkipSpace, ReadString, ReadIdent, HasAt;
    NothingToSkip(s, i + 10);
    NothingToSkip(s, i + 11 + |k|);
    NothingToSkip(s, i + 13 + |k| + |Quote(v)|);
    HasAtIndex(s, i, "attributes", 0);
    NothingToSkip(s, i);
    IdentReadsBack(s, i, i, "attributes");
    KeyReadsBack(s, i + 11, k);
    LiteralAfterBlank(s, i + 12 + |k|, v);
  }

  lemma NeverParses(s: string, i: nat, j: nat)
    requires i <= |s| && SkipSpace(s, i) == j && HasAt(s, j, "x") && EndsIdent(s, j + 1)
    ensures ParsePrimary(s, i) == (Never, j + 1)
    ensures s[j] == 'x'
  {
    HasAtIndex(s, j, "x", 0);
    if HasAt(s, j, "hasPrefix(") {
      HasAtIndex(s, j, "hasPrefix(", 0);
    }
    IdentReadsBack(s, j, j, "x");
  }

  // ----- Operators

  /** No operator `w` continues an expression that ends here. */
  predicate Stops(s: string, k: nat, w: string) {
    k <= |s| && !KeywordAt(s, SkipSpace(s, k), w)
  }

  /** What may follow a whole expression: the end of the text, or a closing parenthesis. */
  predicate EndsExpr(s: string, k: nat) {
    k == |s| || CharAt(s, k, ')')
  }

  lemma EndsExprStops(s: string, k: nat)
    requires EndsExpr(s, k)
    ensures Stops(s, k, "OR") && Stops(s, k, "AND") && EndsIdent(s, k)
  {
    assert SkipSpace(s, k) == k;
    if HasAt(s, k, "OR") { HasAtIndex(s, k, "OR", 0); }
    if HasAt(s, k, "AND") { HasAtIndex(s, k, "AND", 0); }
  }

  lemma {:induction false} PrintStart(e: Expr, level: nat)
    ensures Print(e, level) != "" && Print(e, level)[0] in "(ahxN"
    decreases e
  {
    match e
    case Or(l, r) => PrintStart(l, OR);
    case And(l, r) => PrintStart(l, AND);
    case _ =>
  }

  /** An operand after a keyword and a blank. */
  lemma OperandStart(s: string, i: nat, text: string)
    requires CharAt(s, i, ' ') && HasAt(s, i + 1, text) && text != "" && !IsSpace(text[0])
    ensures SkipSpace(s, i) == i + 1
  {
    HasAtIndex(s, i + 1, text, 0);
    SkipBlank(s, i);
  }

  /** The operator between two operands is read as a keyword, with the second operand after it. */
  lemma OperatorBetween(s: string, k: nat, w: string, text: string, m: nat)
    requires w == "OR" || w == "AND"
    requires HasAt(s, k, " " + (w + (" " + text))) && text != "" && !IsSpace(text[0])
    requires m == k + 1 + |w|
    ensures EndsIdent(s, k) && SkipSpace(s, k) == k + 1 && KeywordAt(s, k + 1, w)
    ensures w == "OR" ==> Stops(s, k, "AND")
    ensures m <= |s| && SkipSpace(s, m) == m + 1 && HasAt(s, m + 1, text)
  {
    HasAtSplit(s, k, " ", w + (" " + text));
    HasAtSplit(s, k + 1, w, " " + text);
    HasAtSplit(s, k + 1 + |w|, " ", text);
    HasAtIndex(s, k, " ", 0);
    HasAtIndex(s, k + 1, w, 0);
    HasAtIndex(s, k + 1 + |w|, " ", 0);
    SkipBlank(s, k);
    if HasAt(s, k + 1, "AND") { HasAtIndex(s, k + 1, "AND", 0); }
    OperandStart(s, k + 1 + |w|, text);
  }

  lemma NotOperand(s: string, j: nat, text: string)
    requires HasAt(s, j, "NOT " + text) && text != "" && !IsSpace(text[0])
    ensures KeywordAt(s, j, "NOT") && SkipSpace(s, j + 3) == j + 4 && HasAt(s, j + 4, text)
  {
    HasAtSplit(s, j, "NOT ", text);
    assert "NOT " == "NOT" + " ";
    HasAtSplit(s, j, "NOT", " ");
    HasAtIndex(s, j + 3, " ", 0);
    OperandStart(s, j + 3, text);
  }

  lemma NotStep(s: string, i: nat, j: nat, f: Expr, k: nat)
    requires i <= |s| && SkipSpace(s, i) == j && KeywordAt(s, j, "NOT") && ParseNot(s, j + 3) == (f, k)
    ensures ParseNot(s, i) == (Not(f), k)
  {
    hide ParsePrimary, SkipSpace, KeywordAt;
  }

  lemma NotStart(s: string, i: nat, j: nat, e: Expr, k: nat)
    requires i <= |s| && SkipSpace(s, i) == j && j < |s| && s[j] in "(ahx" && ParsePrimary(s, j) == (e, k)
    ensures ParseNot(s, i) == (e, k)
  {
    if HasAt(s, j, "NOT") { HasAtIndex(s, j, "NOT", 0); }
  }

  /** The loop of `ParseAnd` starts from its first operand. */
  lemma AndStart(s: string, i: nat, e: Expr, k: nat)
    requires i <= |s| && ParseNot(s, i) == (e, k)
    ensures ParseAnd(s, i) == AndTail(s, e, k)
  {
  }

  /** The loop of `ParseOr` starts from its first operand, after which no AND follows. */
  lemma OrStart(s: string, i: nat, e: Expr, k: nat)
    requires i <= |s| && k <= |s| && ParseAnd(s, i) == AndTail(s, e, k) && Stops(s, k, "AND")
    ensures ParseOr(s, i) == OrTail(s, e, k)
  {
  }

  /** One turn of the loop of `ParseAnd`. */
  lemma AndStep(s: string, l: Expr, k: nat, m: nat, r: Expr, end: nat)
    requires k <= |s| && SkipSpace(s, k) == k + 1 && KeywordAt(s, k + 1, "AND")
    requires m == k + 4 && m <= |s| && ParseNot(s, m) == (r, end)
    ensures AndTail(s, l, k) == AndTail(s, And(l, r), end)
  {
    hide ParseNot, SkipSpace, KeywordAt;
  }

  /** One turn of the loop of `ParseOr`, whose right operand ends here. */
  lemma OrStep(s: string, l: Expr, k: nat, m: nat, r: Expr, end: nat)
    requires k <= |s| && SkipSpace(s, k) == k + 1 && KeywordAt(s, k + 1, "OR")
    requires m == k + 3 && m <= |s| && end <= |s| && ParseAnd(s, m) == AndTail(s, r, end) && Stops(s, end, "AND")
    ensures OrTail(s, l, k) == OrTail(s, Or(l, r), end)
  {
  }

  /** A primary expression with nothing after it is read by every rule. */
  lemma LonePrimary(s: string, i: nat, e: Expr, k: nat)
    requires i < |s| && SkipSpace(s, i) == i && s[i] in "(ahx" && ParsePrimary(s, i) == (e, k)
    requires EndsExpr(s, k)
    ensures ParseOr(s, i) == (e, k)
  {
    if HasAt(s, i, "NOT") { HasAtIndex(s, i, "NOT", 0); }
    EndsExprStops(s, k);
    assert ParseNot(s, i) == (e, k);
    assert ParseAnd(s, i) == (e, k);
  }

  lemma Parenthesised(s: string, i: nat, j: nat, e: Expr, k: nat)
    requires i <= |s| && SkipSpace(s, i) == j && CharAt(s, j, '(') && CharAt(s, k, ')')
    requires ParseOr(s, j + 1) == OrTail(s, e, k)
    ensures ParsePrimary(s, i) == (e, k + 1)
  {
    EndsExprStops(s, k);
    assert SkipSpace(s, k) == k;
  }

  lemma EmptyHasParses(s: string, i: nat, j: nat)
    requires i <= |s| && SkipSpace(s, i) == j && HasAt(s, j, "(attributes:)")
    ensures ParsePrimary(s, i) == (Has(""), j + 13)
    ensures s[j] == '('
  {
    hide IdentEnd, ParsePrimary, ParseOr, SkipSpace;
    assert "(attributes:)" == "(" + ("attributes:" + ")");
    HasAtSplit(s, j, "(", "attributes:" + ")");
    HasAtSplit(s, j + 1, "attributes:", ")");
    HasAtIndex(s, j, "(", 0);
    HasAtIndex(s, j + 1, "attributes:", 0);
    HasAtIndex(s, j + 12, ")", 0);
    assert "attributes:" == "attributes:" + "";
    NothingToSkip(s, j + 1);
    HasParses("", s, j + 1, j + 1);
    LonePrimary(s, j + 1, Has(""), j + 12);
    EndsExprStops(s, j + 12);
    Parenthesised(s, i, j, Has(""), j + 12);
  }

  /** Part of the measure of the four lemmas below: an expression in parentheses is parsed anew, at level OR. */
  function Rank(e: Expr, level: nat): nat {
    if Precedence(e) < level then 1 else 0
  }

  /** How the text of an expression depends on the level it is printed at. */
  lemma PrintLayout(e: Expr)
    ensures Print(e, OR) == if e.Or? then Print(e.left, OR) + (" OR " + Print(e.right, AND)) else Print(e, AND)
    ensures Print(e, AND) == if e.And? then Print(e.left, AND) + (" AND " + Print(e.right, NOT)) else Print(e, NOT)
    ensures Print(e, NOT) == if e.Not? then "NOT " + Print(e.operand, NOT) else Print(e, ATOM)
  {
  }

  lemma AtomParses(e: Expr, s: string, i: nat, j: nat)
    requires Precedence(e) == ATOM && WellKeyed(e)
    requires i <= |s| && SkipSpace(s, i) == j && HasAt(s, j, Body(e)) && EndsIdent(s, j + |Body(e)|)
    ensures ParsePrimary(s, i) == (e, j + |Body(e)|)
    ensures j < |s| && s[j] in "(ahx"
  {
    hide ParsePrimary, SkipSpace;
    match e
    case Has(k) =>
      if k == "" {
        EmptyHasParses(s, i, j);
      } else {
        HasParses(k, s, i, j);
      }
    case Compare(k, c, v) => CompareParses(k, c, v, s, i, j);
    case HasPrefix(k, v) => HasPrefixParses(k, v, s, i, j);
    case Never => NeverParses(s, i, j);
  }

  lemma {:induction false} ParenParses(e: Expr, s: string, i: nat, j: nat)
    requires WellKeyed(e) && i <= |s| && SkipSpace(s, i) == j && HasAt(s, j, "(" + (Print(e, OR) + ")"))
    ensures ParsePrimary(s, i) == (e, j + |Print(e, OR)| + 2)
    ensures j < |s| && s[j] == '('
    decreases e, 0, 4
  {
    hide ParsePrimary, ParseOr, OrTail, SkipSpace, KeywordAt, Print;
    var body := Print(e, OR);
    HasAtSplit(s, j, "(", body + ")");
    HasAtSplit(s, j + 1, body, ")");
    HasAtIndex(s, j, "(", 0);
    PrintStart(e, OR);
    HasAtIndex(s, j + 1, body, 0);
    var k := j + 1 + |body|;
    HasAtIndex(s, k, ")", 0);
    EndsExprStops(s, k);
    NothingToSkip(s, j + 1);
    OrParses(e, s, j + 1, j + 1);
    Parenthesised(s, i, j, e, k);
  }

  lemma {:induction false} PrimaryParses(e: Expr, s: string, i: nat, j: nat)
    requires WellKeyed(e) && i <= |s| && SkipSpace(s, i) == j && HasAt(s, j, Print(e, ATOM))
    requires EndsIdent(s, j + |Print(e, ATOM)|)
    ensures ParsePrimary(s, i) == (e, j + |Print(e, ATOM)|)
    ensures j < |s| && s[j] in "(ahx"
    decreases e, Rank(e, ATOM), 0
  {
    hide ParsePrimary, SkipSpace, Body;
    if Precedence(e) < ATOM {
      ParenParses(e, s, i, j);
    } else {
      AtomParses(e, s, i, j);
    }
  }

  lemma {:induction false} NotParses(e: Expr, s: string, i: nat, j: nat)
    requires WellKeyed(e) && i <= |s| && SkipSpace(s, i) == j && HasAt(s, j, Print(e, NOT))
    requires EndsIdent(s, j + |Print(e, NOT)|)
    ensures ParseNot(s, i) == (e, j + |Print(e, NOT)|)
    decreases e, Rank(e, NOT), 1
  {
    hide ParseNot, ParsePrimary, SkipSpace, KeywordAt, HasAt, EndsIdent, Print;
    PrintLayout(e);
    if e.Not? {
      var text := Print(e.operand, NOT);
      PrintStart(e.operand, NOT);
      NotOperand(s, j, text);
      assert j + |Print(e, NOT)| == j + 4 + |text|;
      NotParses(e.operand, s, j + 3, j + 4);
      NotStep(s, i, j, e.operand, j + 4 + |text|);
    } else {
      SkipSpaceStops(s, i);
      PrimaryParses(e, s, j, j);
      NotStart(s, i, j, e, j + |Print(e, ATOM)|);
    }
  }

  lemma OperandsAt(s: string, j: nat, l: string, op: string, w: string, r: string)
    requires op == " " + w + " " && HasAt(s, j, l + (op + r))
    ensures HasAt(s, j, l) && HasAt(s, j + |l|, " " + (w + (" " + r)))
  {
    hide HasAt;
    assert op + r == " " + (w + (" " + r));
    HasAtSplit(s, j, l, op + r);
  }

  /** The left spine of a conjunction is read by the loop of `ParseAnd`. */
  lemma {:induction false} AndParses(e: Expr, s: string, i: nat, j: nat)
    requires WellKeyed(e) && i <= |s| && SkipSpace(s, i) == j && HasAt(s, j, Print(e, AND))
    requires EndsIdent(s, j + |Print(e, AND)|)
    ensures ParseAnd(s, i) == AndTail(s, e, j + |Print(e, AND)|)
    decreases e, Rank(e, AND), 2
  {
    hide ParseAnd, ParseNot, AndTail, SkipSpace, KeywordAt, HasAt, EndsIdent, Print;
    PrintLayout(e);
    if e.And? {
      var l, r := Print(e.left, AND), Print(e.right, NOT);
      var k := j + |l|;
      var m := k + 4;
      OperandsAt(s, j, l, " AND ", "AND", r);
      PrintStart(e.right, NOT);
      OperatorBetween(s, k, "AND", r, m);
      AndParses(e.left, s, i, j);
      NotParses(e.right, s, m, m + 1);
      AndStep(s, e.left, k, m, e.right, m + 1 + |r|);
    } else {
      NotParses(e, s, i, j);
      AndStart(s, i, e, j + |Print(e, AND)|);
    }
  }

  lemma {:induction false} OrParses(e: Expr, s: string, i: nat, j: nat)
    requires WellKeyed(e) && i <= |s| && SkipSpace(s, i) == j && HasAt(s, j, Print(e, OR))
    requires EndsIdent(s, j + |Print(e, OR)|) && Stops(s, j + |Print(e, OR)|, "AND")
    ensures ParseOr(s, i) == OrTail(s, e, j + |Print(e, OR)|)
    decreases e, Rank(e, OR), 3
  {
    hide ParseOr, ParseAnd, OrTail, AndTail, SkipSpace, KeywordAt, HasAt, EndsIdent, Stops, Print;
    PrintLayout(e);
    if e.Or? {
      var l, r := Print(e.left, OR), Print(e.right, AND);
      var k := j + |l|;
      var m := k + 3;
      OperandsAt(s, j, l, " OR ", "OR", r);
      PrintStart(e.right, AND);
      OperatorBetween(s, k, "OR", r, m);
      OrParses(e.left, s, i, j);
      AndParses(e.right, s, m, m + 1);
      OrStep(s, e.left, k, m, e.right, m + 1 + |r|);
    } else {
      AndParses(e, s, i, j);
      OrStart(s, i, e, j + |Print(e, OR)|);
    }
  }

  // ----- Main results

  /** Parsing undoes printing, and reads the whole text, for every tree the parser can yield. */
  lemma RoundTrip(e: Expr)
    requires WellKeyed(e)
    ensures ParseOr(Print(e, OR), 0) == (e, |Print(e, OR)|)
  {
    hide Print, Body, ParseOr, KeywordAt, WellKeyed;
    var s := Print(e, OR);
    PrintStart(e, OR);
    assert HasAt(s, 0, s);
    EndsExprStops(s, |s|);
    OrParses(e, s, 0, 0);
  }

  /** What is read as an identifier is one. */
  lemma {:induction false} IdentIsKey(s: string, i: nat)
    requires i <= |s|
    ensures IsKey(s[i..IdentEnd(s, i)])
    decreases |s| - i
  {
    if i < |s| && IsKeyChar(s[i]) {
      IdentIsKey(s, i + 1);
      assert s[i..IdentEnd(s, i)] == [s[i]] + s[i + 1..IdentEnd(s, i + 1)];
    }
  }

  lemma AtomIsWellKeyed(s: string, i: nat)
    requires i <= |s|
    ensures WellKeyed(ParseField(s, i).0) && WellKeyed(ParseHasPrefix(s, i).0)
  {
    if CharAt(s, i, ':') || CharAt(s, i, '.') {
      IdentIsKey(s, SkipSpace(s, i + 1));
    }
    var base := ReadIdent(s, i);
    IdentIsKey(s, SkipSpace(s, Consume(s, base.1, '.')));
  }

  // The trees of all rules are well keyed; the measure is that of the rules themselves.

  lemma {:induction false} OrIsWellKeyed(s: string, i: nat)
    requires i <= |s|
    ensures WellKeyed(ParseOr(s, i).0)
    decreases |s| - i, 5
  {
    AndIsWellKeyed(s, i);
    OrTailIsWellKeyed(s, ParseAnd(s, i).0, ParseAnd(s, i).1);
  }

  lemma {:induction false} OrTailIsWellKeyed(s: string, left: Expr, i: nat)
    requires i <= |s| && WellKeyed(left)
    ensures WellKeyed(OrTail(s, left, i).0)
    decreases |s| - i, 4
  {
    var j := SkipSpace(s, i);
    if KeywordAt(s, j, "OR") {
      AndIsWellKeyed(s, j + 2);
      var next := ParseAnd(s, j + 2);
      OrTailIsWellKeyed(s, Or(left, next.0), next.1);
    }
  }

  lemma {:induction false} AndIsWellKeyed(s: string, i: nat)
    requires i <= |s|
    ensures WellKeyed(ParseAnd(s, i).0)
    decreases |s| - i, 3
  {
    NotIsWellKeyed(s, i);
    AndTailIsWellKeyed(s, ParseNot(s, i).0, ParseNot(s, i).1);
  }

  lemma {:induction false} AndTailIsWellKeyed(s: string, left: Expr, i: nat)
    requires i <= |s| && WellKeyed(left)
    ensures WellKeyed(AndTail(s, left, i).0)
    decreases |s| - i, 2
  {
    var j := SkipSpace(s, i);
    if KeywordAt(s, j, "AND") {
      NotIsWellKeyed(s, j + 3);
      var next := ParseNot(s, j + 3);
      AndTailIsWellKeyed(s, And(left, next.0), next.1);
    }
  }

  lemma {:induction false} NotIsWellKeyed(s: string, i: nat)
    requires i <= |s|
    ensures WellKeyed(ParseNot(s, i).0)
    decreases |s| - i, 1
  {
    var j := SkipSpace(s, i);
    if KeywordAt(s, j, "NOT") {
      NotIsWellKeyed(s, j + 3);
    } else if CharAt(s, j, '-') {
      NotIsWellKeyed(s, j + 1);
    } else {
      PrimaryIsWellKeyed(s, j);
    }
  }

  lemma {:induction false} PrimaryIsWellKeyed(s: string, i: nat)
    requires i <= |s|
    ensures WellKeyed(ParsePrimary(s, i).0)
    decreases |s| - i, 0
  {
    var j := SkipSpace(s, i);
    if CharAt(s, j, '(') {
      OrIsWellKeyed(s, j + 1);
    } else if HasAt(s, j, "hasPrefix(") {
      AtomIsWellKeyed(s, j + 10);
    } else {
      AtomIsWellKeyed(s, SkipSpace(s, ReadIdent(s, j).1));
    }
  }

  /** The well-keyed trees are exactly those that some filter text denotes. */
  lemma DenotedTrees(e: Expr)
    ensures WellKeyed(e) <==> exists filter: string :: Parse(filter) == e
  {
    if WellKeyed(e) {
      RoundTrip(e);
      assert Parse(Print(e, OR)) == e;
    }
    forall filter: string | Parse(filter) == e ensures WellKeyed(e) {
      OrIsWellKeyed(filter, 0);
    }
  }

  /** The canonical text of a filter. The empty filter has none: it is no expression. */
  function Canonical(filter: string): string {
    if filter == "" then "" else Print(Parse(filter), OR)
  }

  /**
   Every filter text, however malformed, means the same as its canonical text, which is read to its
   end and is its own canonical text.
   */
  lemma CanonicalMeansTheSame(filter: string, attrs: Attributes)
    ensures Matches(Canonical(filter), attrs) == Matches(filter, attrs)
    ensures Canonical(Canonical(filter)) == Canonical(filter)
    ensures filter != "" ==> ParseOr(Canonical(filter), 0).1 == |Canonical(filter)|
  {
    if filter != "" {
      OrIsWellKeyed(filter, 0);
      RoundTrip(Parse(filter));
      PrintStart(Parse(filter), OR);
    }
  }
}
