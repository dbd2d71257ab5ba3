/**
 The evaluator of subscription filters: one pass over the text, which evaluates while it reads.
 Each method is proved against the function of the same name in FilterSyntax: it stops where the
 parser stops, whatever the attributes are, and its answer is the meaning of the tree parsed there.
 */
module FilterParser {
  import opened Text
  import opened FilterSyntax

  class Evaluator {
    const input: string
    const attrs: Attributes
    var pos: nat

    ghost predicate Valid()
      reads this
    {
      pos <= |input|
    }

    /** The position is `r`'s and the answer is the meaning of its tree. */
    ghost predicate Agrees(r: (Expr, nat), answer: bool)
      reads this
    {
      pos == r.1 && answer == Eval(r.0, attrs)
    }

    constructor (input: string, attrs: Attributes)
      ensures Valid() && this.input == input && this.attrs == attrs && pos == 0
    {
      this.input, this.attrs, this.pos := input, attrs, 0;
    }

    method SkipSpaces()
      requires Valid()
      modifies this
      ensures pos == SkipSpace(input, old(pos))
    {
      while pos < |input| && IsSpace(input[pos])
        invariant Valid()
        invariant SkipSpace(input, pos) == SkipSpace(input, old(pos))
      {
        pos := pos + 1;
      }
    }

    /** The next byte that is no space, or none at the end of the input. */
    method Peek() returns (c: Option<char>)
      requires Valid()
      modifies this
      ensures pos == SkipSpace(input, old(pos))
      ensures c == if pos < |input| then Some(input[pos]) else None
    {
      SkipSpaces();
      c := if pos < |input| then Some(input[pos]) else None;
    }

    method ReadWord() returns (word: string)
      requires Valid()
      modifies this
      ensures (word, pos) == ReadIdent(input, old(pos))
    {
      SkipSpaces();
      var start := pos;
      while pos < |input| && IsKeyChar(input[pos])
        invariant start <= pos <= |input|
        invariant IdentEnd(input, pos) == IdentEnd(input, start)
      {
        pos := pos + 1;
      }
      word := input[start..pos];
    }

    method ReadText() returns (text: string)
      requires Valid()
      modifies this
      ensures (text, pos) == ReadString(input, old(pos))
    {
      SkipSpaces();
      text := "";
      if pos >= |input| || input[pos] != '"' {
        return;
      }
      pos := pos + 1;
      ghost var body := StringBody(input, pos);
      assert "" + body.0 == body.0;
      while pos < |input|
        invariant Valid()
        invariant body == (text + StringBody(input, pos).0, StringBody(input, pos).1)
      {
        var c := input[pos];
        pos := pos + 1;
        if c == '"' {
          assert text + "" == text;
          return;
        }
        if c == '\\' && pos < |input| {
          c := input[pos];
          pos := pos + 1;
        }
        ghost var read := text;
        text := text + [c];
        assert text + StringBody(input, pos).0 == read + ([c] + StringBody(input, pos).0);
      }
      assert text + "" == text;
    }

    method ConsumeByte(c: char) returns (ok: bool)
      requires Valid()
      modifies this
      ensures pos == Consume(input, old(pos), c)
      ensures ok <==> pos == SkipSpace(input, old(pos)) + 1
    {
      SkipSpaces();
      ok := pos < |input| && input[pos] == c;
      if ok {
        pos := pos + 1;
      }
    }

    method ReadComparison() returns (op: Option<Comparison>)
      requires Valid()
      modifies this
      ensures (op, pos) == ReadOp(input, old(pos))
    {
      SkipSpaces();
      op := None;
      if pos >= |input| {
        return;
      }
      var followedByEqual := pos + 1 < |input| && input[pos + 1] == '=';
      match input[pos] {
        case '=' =>
          op := Some(Equal);
          pos := pos + 1;
        case '!' =>
          if followedByEqual {
            op := Some(NotEqual);
            pos := pos + 2;
          }
        case '<' =>
          op := Some(if followedByEqual then AtMost else Below);
          pos := if followedByEqual then pos + 2 else pos + 1;
        case '>' =>
          op := Some(if followedByEqual then AtLeast else Above);
          pos := if followedByEqual then pos + 2 else pos + 1;
        case _ =>
      }
    }

    /** Alternatives, lowest precedence. Both sides are read even when the left one already holds. */
    method EvalOr() returns (answer: bool)
      requires Valid()
      modifies this
      ensures Agrees(ParseOr(input, old(pos)), answer)
      decreases |input| - pos, 3
    {
      hide ParseAnd, SkipSpace, KeywordAt;
      ghost var left := ParseAnd(input, pos).0;
      answer := EvalAnd();
      while true
        invariant old(pos) <= pos <= |input|
        invariant OrTail(input, left, pos) == ParseOr(input, old(pos))
        invariant answer == Eval(left, attrs)
        decreases |input| - pos
      {
        var saved := pos;
        SkipSpaces();
        if KeywordAt(input, pos, "OR") {
          pos := pos + 2;
          left := Or(left, ParseAnd(input, pos).0);
          var right := EvalAnd();
          answer := answer || right;
        } else {
          pos := saved;
          break;
        }
      }
    }

    method EvalAnd() returns (answer: bool)
      requires Valid()
      modifies this
      ensures Agrees(ParseAnd(input, old(pos)), answer)
      decreases |input| - pos, 2
    {
      hide ParseNot, SkipSpace, KeywordAt;
      ghost var left := ParseNot(input, pos).0;
      answer := EvalNot();
      while true
        invariant old(pos) <= pos <= |input|
        invariant AndTail(input, left, pos) == ParseAnd(input, old(pos))
        invariant answer == Eval(left, attrs)
        decreases |input| - pos
      {
        var saved := pos;
        SkipSpaces();
        if KeywordAt(input, pos, "AND") {
          pos := pos + 3;
          left := And(left, ParseNot(input, pos).0);
          var right := EvalNot();
          answer := answer && right;
        } else {
          pos := saved;
          break;
        }
      }
    }

    method EvalNot() returns (answer: bool)
      requires Valid()
      modifies this
      ensures Agrees(ParseNot(input, old(pos)), answer)
      decreases |input| - pos, 1
    {
      hide ParsePrimary, SkipSpace, KeywordAt;
      SkipSpaces();
      if KeywordAt(input, pos, "NOT") {
        pos := pos + 3;
        answer := EvalNot();
        answer := !answer;
      } else if pos < |input| && input[pos] == '-' {
        pos := pos + 1;
        answer := EvalNot();
        answer := !answer;
      } else {
        answer := EvalPrimary();
      }
    }

    method EvalPrimary() returns (answer: bool)
      requires Valid()
      modifies this
      ensures Agrees(ParsePrimary(input, old(pos)), answer)
      decreases |input| - pos, 0
    {
      hide ParseOr, ParseField, ParseHasPrefix, SkipSpace, IdentEnd;
      SkipSpaceStops(input, pos);
      SkipSpaces();
      var next := Peek();
      if next == Some('(') {
        pos := pos + 1;
        answer := EvalOr();
        var _ := ConsumeByte(')');
      } else if HasAt(input, pos, "hasPrefix(") {
        pos := pos + 10;
        answer := EvalHasPrefix();
      } else {
        var base := ReadWord();
        if base != "attributes" {
          return false;
        }
        SkipSpaces();
        answer := EvalField();
      }
    }

    method EvalHasPrefix() returns (answer: bool)
      requires Valid()
      modifies this
      ensures Agrees(ParseHasPrefix(input, old(pos)), answer)
    {
      var _ := ReadWord();
      var _ := ConsumeByte('.');
      var key := ReadWord();
      var _ := ConsumeByte(',');
      var text := ReadText();
      var _ := ConsumeByte(')');
      answer := key in attrs && text <= attrs[key];
    }

    method EvalField() returns (answer: bool)
      requires Valid()
      modifies this
      ensures Agrees(ParseField(input, old(pos)), answer)
    {
      if pos >= |input| {
        return false;
      }
      match input[pos] {
        case ':' =>
          pos := pos + 1;
          var key := ReadWord();
          answer := key in attrs;
        case '.' =>
          pos := pos + 1;
          answer := EvalComparison();
        case _ =>
          answer := false;
      }
    }

    method EvalComparison() returns (answer: bool)
      requires Valid()
      modifies this
      ensures Agrees(ParseComparison(input, old(pos)), answer)
    {
      hide SkipSpace, ReadIdent, ReadString, CharAt;
      var key := ReadWord();
      SkipSpaceStops(input, pos);
      SkipSpaces();
      var op := ReadComparison();
      var text := ReadText();
      match op {
        case Some(Equal) => answer := key in attrs && attrs[key] == text;
        case Some(NotEqual) => answer := key !in attrs || attrs[key] != text;
        case Some(Below) => answer := key in attrs && Less(attrs[key], text);
        case Some(AtMost) => answer := key in attrs && !Less(text, attrs[key]);
        case Some(Above) => answer := key in attrs && Less(text, attrs[key]);
        case Some(AtLeast) => answer := key in attrs && !Less(attrs[key], text);
        case None => answer := false;
      }
    }
  }

  /** The filter of a subscription, evaluated on the attributes of one message. */
  method MatchesFilter(filter: string, attrs: Attributes) returns (answer: bool)
    ensures answer == Matches(filter, attrs)
  {
    if filter == "" {
      return true;
    }
    var p := new Evaluator(filter, attrs);
    answer := p.EvalOr();
  }
}
