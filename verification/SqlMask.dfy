/** The masking lexer of src/sqlsurface.ts: comments, string literals, quoted identifiers and
    dollar-quoted bodies are blanked in place, so that later classification never trips over a `;`
    that lives inside quoted text.

    Text is a sequence of UTF-16 code units, as in the source: every index below is a code unit index. */
module SqlMask {

  type CodeUnit = u: int | 0 <= u < 0x1_0000
  type Text = seq<CodeUnit>

  const NEWLINE: CodeUnit := 0x0A
  const SPACE: CodeUnit := 0x20
  const DOUBLE_QUOTE: CodeUnit := 0x22
  const DOLLAR: CodeUnit := 0x24
  const QUOTE: CodeUnit := 0x27
  const STAR: CodeUnit := 0x2A
  const DASH: CodeUnit := 0x2D
  const SLASH: CodeUnit := 0x2F
  const SEMICOLON: CodeUnit := 0x3B
  const UPPER_E: CodeUnit := 0x45
  const BACKSLASH: CodeUnit := 0x5C
  const LOWER_E: CodeUnit := 0x65

  /** The class `\s` of an ECMAScript regular expression. */
  predicate IsSpace(u: CodeUnit) {
    || 0x09 <= u <= 0x0D || u == SPACE || u == 0xA0 || u == 0x1680 || 0x2000 <= u <= 0x200A
    || u == 0x2028 || u == 0x2029 || u == 0x202F || u == 0x205F || u == 0x3000 || u == 0xFEFF
  }

  /** `[A-Za-z_]`: what may stand between the two dollars of a tag. */
  predicate IsTagUnit(u: CodeUnit) {
    0x41 <= u <= 0x5A || 0x61 <= u <= 0x7A || u == 0x5F
  }

  /** `[A-Za-z0-9_$]` */
  predicate IsIdentUnit(u: CodeUnit) {
    IsTagUnit(u) || 0x30 <= u <= 0x39 || u == DOLLAR
  }

  predicate IsIdentBefore(s: Text, i: nat)
    requires i <= |s|
  {
    i > 0 && IsIdentUnit(s[i - 1])
  }

  predicate Pair(s: Text, i: nat, a: CodeUnit, b: CodeUnit) {
    i + 1 < |s| && s[i] == a && s[i + 1] == b
  }

  // ---- the scanners ----------------------------------------------------------------------------

  /** Where a line comment stops: the next newline, or the end of the text. */
  function LineEnd(s: Text, i: nat): (e: nat)
    requires i <= |s|
    ensures i <= e <= |s|
    ensures e < |s| ==> s[e] == NEWLINE
    ensures forall k :: i <= k < e ==> s[k] != NEWLINE
    decreases |s| - i
  {
    if i == |s| || s[i] == NEWLINE then i else LineEnd(s, i + 1)
  }

  /** Where a block comment stops, given the nesting depth reached at `j`. */
  function BlockEnd(s: Text, j: nat, depth: nat): (e: nat)
    requires j <= |s|
    ensures j <= e <= |s|
    ensures depth > 0 && e < |s| ==> j < e && s[e - 1] == SLASH
    decreases |s| - j
  {
    if j == |s| || depth == 0 then j
    else if Pair(s, j, SLASH, STAR) then BlockEnd(s, j + 2, depth + 1)
    else if Pair(s, j, STAR, SLASH) then BlockEnd(s, j + 2, depth - 1)
    else BlockEnd(s, j + 1, depth)
  }

  /** Where a quoted construct stops: one past its closing quote, or at the end of the text, or one
      past the end when the text breaks off right after an escaping backslash. */
  function QuoteEnd(s: Text, j: nat, quote: CodeUnit, escapes: bool): (e: nat)
    requires j <= |s| + 1
    ensures j <= e <= |s| + 1
    ensures e < |s| ==> j < e && s[e - 1] == quote && s[e] != quote
    decreases |s| + 1 - j
  {
    if j >= |s| then j
    else if escapes && s[j] == BACKSLASH then QuoteEnd(s, j + 2, quote, escapes)
    else if s[j] == quote then
      if j + 1 < |s| && s[j + 1] == quote then QuoteEnd(s, j + 2, quote, escapes) else j + 1
    else QuoteEnd(s, j + 1, quote, escapes)
  }

  function TagRun(s: Text, j: nat): (e: nat)
    requires j <= |s|
    ensures j <= e <= |s|
    ensures forall k :: j <= k < e ==> IsTagUnit(s[k])
    ensures e < |s| ==> !IsTagUnit(s[e])
    decreases |s| - j
  {
    if j < |s| && IsTagUnit(s[j]) then TagRun(s, j + 1) else j
  }

  /** One past the opening tag `$...$` that starts at `i`, or `i` itself when there is none. */
  function TagEnd(s: Text, i: nat): (e: nat)
    requires i < |s| && s[i] == DOLLAR
    ensures e == i || i + 2 <= e <= |s|
  {
    var t := TagRun(s, i + 1);
    if t < |s| && s[t] == DOLLAR then t + 1 else i
  }

  predicate Occurs(s: Text, tag: Text, p: nat) {
    p + |tag| <= |s| && s[p..p + |tag|] == tag
  }

  /** `indexOf(tag, p)`, with the length of the text standing for "not found". */
  function Find(s: Text, tag: Text, p: nat): (f: nat)
    requires p <= |s| && |tag| > 0
    ensures p <= f <= |s|
    ensures f < |s| ==> Occurs(s, tag, f)
    ensures forall q :: p <= q < f ==> !Occurs(s, tag, q)
    decreases |s| - p
  {
    if p == |s| || Occurs(s, tag, p) then p else Find(s, tag, p + 1)
  }

  // ---- one turn of the lexer -------------------------------------------------------------------

  /** What one turn of the main loop does: blank `[from, to)`, continue at `next`. */
  datatype Span = Span(from: nat, to: int, next: nat)

  predicate IsEString(s: Text, i: nat)
    requires i < |s|
  {
    (s[i] == LOWER_E || s[i] == UPPER_E) && i + 1 < |s| && s[i + 1] == QUOTE && !IsIdentBefore(s, i)
  }

  function SpanAt(s: Text, i: nat): (c: Span)
    requires i < |s|
    ensures i < c.next <= |s| + 1 && i <= c.from
  {
    if Pair(s, i, DASH, DASH) then
      var e := LineEnd(s, i);
      Span(i, e, e)
    else if Pair(s, i, SLASH, STAR) then
      var e := BlockEnd(s, i + 2, 1);
      Span(i, e, e)
    else if s[i] == QUOTE || IsEString(s, i) then
      var escapes := s[i] != QUOTE;
      var open := i + (if escapes then 2 else 1);
      var e := QuoteEnd(s, open, QUOTE, escapes);
      Span(open, e - 1, e)
    else if s[i] == DOUBLE_QUOTE then
      var e := QuoteEnd(s, i + 1, DOUBLE_QUOTE, false);
      Span(i + 1, e - 1, e)
    else if s[i] == DOLLAR && TagEnd(s, i) != i then
      var open := TagEnd(s, i);
      var close := Find(s, s[i..open], open);
      Span(open, close, if close == |s| then |s| else close + (open - i))
    else
      Span(i, i, i + 1)
  }

  /** Whether the unit at `k` falls in a blanked range when lexing starts at `i`. */
  predicate Blanked(s: Text, i: nat, k: nat)
    decreases |s| - i
  {
    i < |s| &&
    var c := SpanAt(s, i);
    if k < c.next then c.from <= k < c.to else Blanked(s, c.next, k)
  }

  function Masked(s: Text, i: nat, k: nat): CodeUnit
    requires k < |s|
  {
    if Blanked(s, i, k) && !IsSpace(s[k]) then SPACE else s[k]
  }

  function Mask(s: Text): (m: Text)
    ensures |m| == |s|
  {
    seq(|s|, k requires 0 <= k < |s| => Masked(s, 0, k))
  }

  // ---- the program -----------------------------------------------------------------------------

  method Blank(chars: array<CodeUnit>, from: nat, to: int)
    modifies chars
    ensures forall k :: 0 <= k < chars.Length ==>
                          chars[k] == if from <= k < to && !IsSpace(old(chars[k])) then SPACE else old(chars[k])
  {
    var k := from;
    while k < to && k < chars.Length
      invariant from <= k
      invariant forall n :: 0 <= n < chars.Length ==>
                              chars[n] == if from <= n < k && n < to && !IsSpace(old(chars[n])) then SPACE else old(chars[n])
    {
      if !IsSpace(chars[k]) {
        chars[k] := SPACE;
      }
      k := k + 1;
    }
  }

  method ScanBlock(s: Text, i: nat) returns (j: nat)
    requires i + 2 <= |s|
    ensures j == BlockEnd(s, i + 2, 1)
  {
    var depth: nat := 1;
    j := i + 2;
    while j < |s| && depth > 0
      invariant j <= |s|
      invariant BlockEnd(s, j, depth) == BlockEnd(s, i + 2, 1)
      decreases |s| - j
    {
      if Pair(s, j, SLASH, STAR) {
        depth, j := depth + 1, j + 2;
      } else if Pair(s, j, STAR, SLASH) {
        depth, j := depth - 1, j + 2;
      } else {
        j := j + 1;
      }
    }
  }

  method ScanQuoted(s: Text, open: nat, quote: CodeUnit, escapes: bool) returns (j: nat)
    requires open <= |s|
    ensures j == QuoteEnd(s, open, quote, escapes)
  {
    j := open;
    while j < |s|
      invariant j <= |s| + 1
      invariant QuoteEnd(s, j, quote, escapes) == QuoteEnd(s, open, quote, escapes)
      decreases |s| + 1 - j
    {
      if escapes && s[j] == BACKSLASH {
        j := j + 2;
      } else if s[j] == quote {
        if j + 1 < |s| && s[j + 1] == quote {
          j := j + 2;
        } else {
          j := j + 1;
          return;
        }
      } else {
        j := j + 1;
      }
    }
  }

  /** One turn's scan: which range to blank and where to go on, found by the loops above. */
  method ScanOne(sql: Text, i: nat) returns (c: Span)
    requires i < |sql|
    ensures c == SpanAt(sql, i)
  {
    if Pair(sql, i, DASH, DASH) {
      var stop := LineEnd(sql, i);
      c := Span(i, stop, stop);
    } else if Pair(sql, i, SLASH, STAR) {
      var j := ScanBlock(sql, i);
      c := Span(i, j, j);
    } else if sql[i] == QUOTE || IsEString(sql, i) {
      var escapes := sql[i] != QUOTE;
      var from := i + (if escapes then 2 else 1);
      var j := ScanQuoted(sql, from, QUOTE, escapes);
      c := Span(from, j - 1, j);
    } else if sql[i] == DOUBLE_QUOTE {
      var j := ScanQuoted(sql, i + 1, DOUBLE_QUOTE, false);
      c := Span(i + 1, j - 1, j);
    } else if sql[i] == DOLLAR && TagEnd(sql, i) != i {
      var from := TagEnd(sql, i);
      var close := Find(sql, sql[i..from], from);
      c := Span(from, close, if close == |sql| then |sql| else close + (from - i));
    } else {
      c := Span(i, i, i + 1);
    }
  }

  /** `maskSqlText`: the array is overwritten in place, one construct per turn. */
  method MaskSqlText(sql: Text) returns (masked: Text)
    ensures masked == Mask(sql)
  {
    var out := new CodeUnit[|sql|](k requires 0 <= k < |sql| => sql[k]);
    var i: nat := 0;
    while i < |sql|
      invariant forall k :: 0 <= k < |sql| ==> out[k] == if k < i then Masked(sql, 0, k) else sql[k]
      invariant forall k :: i <= k < |sql| ==> (Blanked(sql, 0, k) <==> Blanked(sql, i, k))
      decreases |sql| - i
    {
      var c := ScanOne(sql, i);
      assert forall k :: i <= k < |sql| ==>
                           (Blanked(sql, i, k) <==> if k < c.next then c.from <= k < c.to else Blanked(sql, c.next, k));
      ghost var before := out[..];
      Blank(out, c.from, c.to);
      assert forall k :: 0 <= k < |sql| ==>
                           out[k] == if c.from <= k < c.to && !IsSpace(before[k]) then SPACE else before[k];
      i := c.next;
    }
    masked := out[..];
  }
}
