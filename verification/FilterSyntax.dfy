/**
 The filter language of a subscription: its abstract syntax, its meaning, and the syntax tree that
 a filter text denotes. The tree is computed from the text alone; no attribute is looked at.
 */
module FilterSyntax {
  import opened Text

  datatype Comparison = Equal | NotEqual | Below | AtMost | Above | AtLeast

  /** `Never` stands for every malformed primary expression: it matches no message. */
  datatype Expr =
    | Or(left: Expr, right: Expr)
    | And(left: Expr, right: Expr)
    | Not(operand: Expr)
    | Has(key: string)
    | Compare(key: string, comparison: Comparison, text: string)
    | HasPrefix(key: string, text: string)
    | Never

  type Attributes = map<string, string>

  /** The meaning of a filter on the attributes of a message. */
  predicate Eval(e: Expr, attrs: Attributes) {
    match e
    case Or(l, r) => Eval(l, attrs) || Eval(r, attrs)
    case And(l, r) => Eval(l, attrs) && Eval(r, attrs)
    case Not(f) => !Eval(f, attrs)
    case Has(k) => k in attrs
    case Compare(k, NotEqual, v) => k !in attrs || attrs[k] != v
    case Compare(k, Equal, v) => k in attrs && attrs[k] == v
    case Compare(k, Below, v) => k in attrs && Less(attrs[k], v)
    case Compare(k, AtMost, v) => k in attrs && !Less(v, attrs[k])
    case Compare(k, Above, v) => k in attrs && Less(v, attrs[k])
    case Compare(k, AtLeast, v) => k in attrs && !Less(attrs[k], v)
    case HasPrefix(k, v) => k in attrs && v <= attrs[k]
    case Never => false
  }

  /**
   Of a key that is present exactly one of the comparisons `<`, `=` and `>` holds; `<=` and `>=` are
   these two and these two, `!=` is the negation of `=`. A missing key satisfies `!=` alone.
   */
  lemma ComparisonsAgree(k: string, v: string, attrs: Attributes)
    ensures var below := Eval(Compare(k, Below, v), attrs);
      var equal := Eval(Compare(k, Equal, v), attrs);
      var above := Eval(Compare(k, Above, v), attrs);
      && (k in attrs <==> below || equal || above)
      && !(below && equal) && !(below && above) && !(equal && above)
      && (Eval(Compare(k, AtMost, v), attrs) <==> below || equal)
      && (Eval(Compare(k, AtLeast, v), attrs) <==> above || equal)
      && (Eval(Compare(k, NotEqual, v), attrs) <==> !equal)
  {
    hide Less;
    if k in attrs {
      LessTrichotomy(attrs[k], v);
      LessTrichotomy(v, attrs[k]);
    }
  }

  /** A byte that may occur in an identifier (the class of `readIdent`, which has '-'). */
  predicate IsKeyChar(c: char) {
    IsLetter(c) || IsDigit(c) || c == '_' || c == '-'
  }

  /** `isIdentChar`, which ends a keyword; it does not have '-'. */
  predicate IsIdentChar(s: string, i: nat) {
    i < |s| && (IsLetter(s[i]) || IsDigit(s[i]) || s[i] == '_')
  }

  predicate IsKey(k: string) {
    forall i :: 0 <= i < |k| ==> IsKeyChar(k[i])
  }

  /** Every key is made of identifier bytes; any text may be compared with. */
  predicate WellKeyed(e: Expr) {
    match e
    case Or(l, r) => WellKeyed(l) && WellKeyed(r)
    case And(l, r) => WellKeyed(l) && WellKeyed(r)
    case Not(f) => WellKeyed(f)
    case Has(k) => IsKey(k)
    case Compare(k, _, _) => IsKey(k)
    case HasPrefix(k, _) => IsKey(k)
    case Never => true
  }

  // ----- Tokens. Each function gives the position after the token, or the token and that position.

  function SkipSpace(s: string, i: nat): (j: nat)
    requires i <= |s|
    ensures i <= j <= |s|
    decreases |s| - i
  {
    if i < |s| && IsSpace(s[i]) then SkipSpace(s, i + 1) else i
  }

  /** No space is left to skip, and all that was skipped is space. */
  lemma SkipSpaceStops(s: string, i: nat)
    requires i <= |s|
    ensures var j := SkipSpace(s, i);
      && (j < |s| ==> !IsSpace(s[j]))
      && (forall k :: i <= k < j ==> IsSpace(s[k]))
      && SkipSpace(s, j) == j
    decreases |s| - i
  {
    if i < |s| && IsSpace(s[i]) {
      SkipSpaceStops(s, i + 1);
    }
  }

  function IdentEnd(s: string, i: nat): (j: nat)
    requires i <= |s|
    ensures i <= j <= |s|
    decreases |s| - i
  {
    if i < |s| && IsKeyChar(s[i]) then IdentEnd(s, i + 1) else i
  }

  function ReadIdent(s: string, i: nat): (r: (string, nat))
    requires i <= |s|
    ensures i <= r.1 <= |s|
  {
    var j := SkipSpace(s, i);
    (s[j..IdentEnd(s, j)], IdentEnd(s, j))
  }

  /** The content of a string literal whose opening quote has been read; a missing closing quote is forgiven. */
  function StringBody(s: string, i: nat): (r: (string, nat))
    requires i <= |s|
    ensures i <= r.1 <= |s|
    decreases |s| - i
  {
    if i == |s| then ("", i)
    else if s[i] == '"' then ("", i + 1)
    else if s[i] == '\\' && i + 1 < |s| then
      var rest := StringBody(s, i + 2);
      ([s[i + 1]] + rest.0, rest.1)
    else
      var rest := StringBody(s, i + 1);
      ([s[i]] + rest.0, rest.1)
  }

  function ReadString(s: string, i: nat): (r: (string, nat))
    requires i <= |s|
    ensures i <= r.1 <= |s|
  {
    var j := SkipSpace(s, i);
    if CharAt(s, j, '"') then StringBody(s, j + 1) else ("", j)
  }

  function Consume(s: string, i: nat, c: char): (j: nat)
    requires i <= |s|
    ensures i <= j <= |s|
  {
    var j := SkipSpace(s, i);
    if CharAt(s, j, c) then j + 1 else j
  }

  /** A lone '!' is not read; every other operator is. */
  function ReadOp(s: string, i: nat): (r: (Option<Comparison>, nat))
    requires i <= |s|
    ensures i <= r.1 <= |s|
  {
    var j := SkipSpace(s, i);
    var twoBytes := CharAt(s, j + 1, '=');
    if CharAt(s, j, '=') then (Some(Equal), j + 1)
    else if CharAt(s, j, '!') && twoBytes then (Some(NotEqual), j + 2)
    else if CharAt(s, j, '<') then if twoBytes then (Some(AtMost), j + 2) else (Some(Below), j + 1)
    else if CharAt(s, j, '>') then if twoBytes then (Some(AtLeast), j + 2) else (Some(Above), j + 1)
    else (None, j)
  }

  /** A keyword counts only when no identifier byte follows it. */
  predicate KeywordAt(s: string, i: nat, w: string)
    ensures KeywordAt(s, i, w) ==> i + |w| <= |s|
  {
    HasAt(s, i, w) && !IsIdentChar(s, i + |w|)
  }

  // ----- Grammar. The measure is the input left to read, then the rank of the rule.

  function ParseOr(s: string, i: nat): (r: (Expr, nat))
    requires i <= |s|
    ensures i <= r.1 <= |s|
    decreases |s| - i, 5
  {
    var first := ParseAnd(s, i);
    OrTail(s, first.0, first.1)
  }

  function OrTail(s: string, left: Expr, i: nat): (r: (Expr, nat))
    requires i <= |s|
    ensures i <= r.1 <= |s|
    decreases |s| - i, 4
  {
    var j := SkipSpace(s, i);
    if KeywordAt(s, j, "OR") then
      var next := ParseAnd(s, j + 2);
      OrTail(s, Or(left, next.0), next.1)
    else (left, i)
  }

  function ParseAnd(s: string, i: nat): (r: (Expr, nat))
    requires i <= |s|
    ensures i <= r.1 <= |s|
    decreases |s| - i, 3
  {
    var first := ParseNot(s, i);
    AndTail(s, first.0, first.1)
  }

  function AndTail(s: string, left: Expr, i: nat): (r: (Expr, nat))
    requires i <= |s|
    ensures i <= r.1 <= |s|
    decreases |s| - i, 2
  {
    var j := SkipSpace(s, i);
    if KeywordAt(s, j, "AND") then
      var next := ParseNot(s, j + 3);
      AndTail(s, And(left, next.0), next.1)
    else (left, i)
  }

  function ParseNot(s: string, i: nat): (r: (Expr, nat))
    requires i <= |s|
    ensures i <= r.1 <= |s|
    decreases |s| - i, 1
  {
    var j := SkipSpace(s, i);
    if KeywordAt(s, j, "NOT") then
      var f := ParseNot(s, j + 3);
      (Not(f.0), f.1)
    else if CharAt(s, j, '-') then
      var f := ParseNot(s, j + 1);
      (Not(f.0), f.1)
    else ParsePrimary(s, j)
  }

  function ParsePrimary(s: string, i: nat): (r: (Expr, nat))
    requires i <= |s|
    ensures i <= r.1 <= |s|
    decreases |s| - i, 0
  {
    var j := SkipSpace(s, i);
    if CharAt(s, j, '(') then
      var inner := ParseOr(s, j + 1);
      (inner.0, Consume(s, inner.1, ')'))
    else if HasAt(s, j, "hasPrefix(") then ParseHasPrefix(s, j + 10)
    else
      var base := ReadIdent(s, j);
      if base.0 != "attributes" then (Never, base.1)
      else ParseField(s, SkipSpace(s, base.1))
  }

  /** What follows `hasPrefix(`; the word before the dot is not looked at. */
  function ParseHasPrefix(s: string, i: nat): (r: (Expr, nat))
    requires i <= |s|
    ensures i <= r.1 <= |s|
  {
    var base := ReadIdent(s, i);
    var key := ReadIdent(s, Consume(s, base.1, '.'));
    var text := ReadString(s, Consume(s, key.1, ','));
    (HasPrefix(key.0, text.0), Consume(s, text.1, ')'))
  }

  /** What follows the word `attributes`. */
  function ParseField(s: string, i: nat): (r: (Expr, nat))
    requires i <= |s|
    ensures i <= r.1 <= |s|
  {
    if CharAt(s, i, ':') then
      var key := ReadIdent(s, i + 1);
      (Has(key.0), key.1)
    else if CharAt(s, i, '.') then ParseComparison(s, i + 1)
    else (Never, i)
  }

  /** What follows `attributes.`; without an operator the comparison fails. */
  function ParseComparison(s: string, i: nat): (r: (Expr, nat))
    requires i <= |s|
    ensures i <= r.1 <= |s|
  {
    var key := ReadIdent(s, i);
    var op := ReadOp(s, key.1);
    var text := ReadString(s, op.1);
    (if op.0.Some? then Compare(key.0, op.0.value, text.0) else Never, text.1)
  }

  /** The tree of a filter text; what follows the longest expression at its start is ignored. */
  function Parse(filter: string): Expr {
    ParseOr(filter, 0).0
  }

  /** The empty filter lets every message through. */
  predicate Matches(filter: string, attrs: Attributes) {
    filter == "" || Eval(Parse(filter), attrs)
  }

  /**
   The loop over OR advances with each operator, although it goes back to where it was at the end,
   and it ends only where none follows.
   */
  lemma {:induction false} OrTailStops(s: string, left: Expr, i: nat)
    requires i <= |s|
    ensures var (e, k) := OrTail(s, left, i);
      && !KeywordAt(s, SkipSpace(s, k), "OR")
      && if KeywordAt(s, SkipSpace(s, i), "OR") then k >= SkipSpace(s, i) + 2 else e == left && k == i
    decreases |s| - i
  {
    hide KeywordAt, SkipSpace, ParseAnd;
    var j := SkipSpace(s, i);
    if KeywordAt(s, j, "OR") {
      var next := ParseAnd(s, j + 2);
      OrTailStops(s, Or(left, next.0), next.1);
    }
  }

  /** The loop over AND likewise. */
  lemma {:induction false} AndTailStops(s: string, left: Expr, i: nat)
    requires i <= |s|
    ensures var (e, k) := AndTail(s, left, i);
      && !KeywordAt(s, SkipSpace(s, k), "AND")
      && if KeywordAt(s, SkipSpace(s, i), "AND") then k >= SkipSpace(s, i) + 3 else e == left && k == i
    decreases |s| - i
  {
    hide KeywordAt, SkipSpace, ParseNot;
    var j := SkipSpace(s, i);
    if KeywordAt(s, j, "AND") {
      var next := ParseNot(s, j + 3);
      AndTailStops(s, And(left, next.0), next.1);
    }
  }
}
