/** What masking is for, proved over every text: it keeps the layout, masking twice is masking once
    except for one family of malformed inputs, and trimming the statement commutes with it. */
module SqlMaskTheorems {
  import opened SqlMask

  /** Nothing shifts: length, whitespace and every unit that is not blanked stay where they were. */
  lemma MaskKeepsLayout(s: Text, k: nat)
    requires k < |s|
    ensures Mask(s)[k] == s[k] || (Mask(s)[k] == SPACE && !IsSpace(s[k]))
    ensures IsSpace(s[k]) ==> Mask(s)[k] == s[k]
  {
  }

  // ---- idempotence -----------------------------------------------------------------------------

  /** The text breaks off inside an escape string, and its final unit is a backslash that an earlier
      backslash escapes. `i` is where lexing stands. */
  predicate BreaksOffOnEscape(s: Text, i: nat)
    decreases |s| - i
  {
    i < |s| &&
    var c := SpanAt(s, i);
    if c.next < |s| then BreaksOffOnEscape(s, c.next)
    else !Pair(s, i, DASH, DASH) && !Pair(s, i, SLASH, STAR) && IsEString(s, i)
         && c.next == |s| && s[|s| - 1] == BACKSLASH
  }

  lemma {:induction false} SpacesAreQuiet(m: Text, i: nat, j: nat)
    requires i <= j <= |m|
    requires forall k :: i <= k < j ==> IsSpace(m[k])
    ensures forall k :: j <= k < |m| ==> (Blanked(m, i, k) <==> Blanked(m, j, k))
    ensures forall k :: i <= k < j ==> !Blanked(m, i, k)
    decreases j - i
  {
    if i < j {
      assert SpanAt(m, i) == Span(i, i, i + 1);
      SpacesAreQuiet(m, i + 1, j);
    }
  }

  lemma {:induction false} QuoteOverSpaces(m: Text, j: nat, t: nat, quote: CodeUnit, escapes: bool)
    requires j <= t <= |m| && !IsSpace(quote)
    requires forall k :: j <= k < t ==> IsSpace(m[k])
    ensures QuoteEnd(m, j, quote, escapes) == QuoteEnd(m, t, quote, escapes)
    decreases t - j
  {
    if j < t {
      QuoteOverSpaces(m, j + 1, t, quote, escapes);
    }
  }

  /** `m` is `s` masked from `i` on, and lexing `m` from `i` faces the same preceding unit. */
  ghost predicate MaskedFrom(s: Text, m: Text, i: nat) {
    && |m| == |s|
    && (forall k :: i <= k < |s| ==> m[k] == Masked(s, i, k))
    && (i < |s| ==> s[i] == NEWLINE || (IsIdentBefore(m, i) <==> IsIdentBefore(s, i)))
  }

  lemma MaskedStep(s: Text, m: Text, i: nat)
    requires i < |s| && MaskedFrom(s, m, i)
    ensures var c := SpanAt(s, i);
            && (forall k :: i <= k < |s| && k < c.next ==>
                  m[k] == if c.from <= k < c.to && !IsSpace(s[k]) then SPACE else s[k])
            && (forall k :: c.next <= k < |s| ==> m[k] == Masked(s, c.next, k))
    ensures forall k :: i <= k < |s| ==> m[k] == s[k] || (m[k] == SPACE && !IsSpace(s[k]))
  {
    var c := SpanAt(s, i);
    forall k | i <= k < |s|
      ensures k < c.next ==> m[k] == if c.from <= k < c.to && !IsSpace(s[k]) then SPACE else s[k]
      ensures c.next <= k ==> m[k] == Masked(s, c.next, k)
    {
      assert m[k] == Masked(s, i, k);
    }
  }

  /** A quoted construct scans to the same place in the masked text, unless it breaks off. */
  lemma QuotedAgain(s: Text, m: Text, open: nat, quote: CodeUnit, escapes: bool)
    requires |m| == |s| && open <= |s| && !IsSpace(quote) && quote != BACKSLASH
    requires var e := QuoteEnd(s, open, quote, escapes);
             && (forall k :: open <= k < e - 1 && k < |s| ==> IsSpace(m[k]))
             && (open < e <= |s| ==> m[e - 1] == s[e - 1])
             && (e < |s| ==> m[e] == s[e] || m[e] == SPACE)
             && !(escapes && open < e == |s| && s[e - 1] == BACKSLASH)
    ensures var e := QuoteEnd(s, open, quote, escapes);
            QuoteEnd(m, open, quote, escapes) == if e <= |s| then e else |s|
  {
    var e := QuoteEnd(s, open, quote, escapes);
    if e > |s| {
      QuoteOverSpaces(m, open, |s|, quote, escapes);
    } else if open < e {
      QuoteOverSpaces(m, open, e - 1, quote, escapes);
      assert e < |s| ==> m[e - 1] == quote && m[e] != quote;
    }
  }

  lemma TagAgain(s: Text, m: Text, i: nat)
    requires |m| == |s| && i < |s| && s[i] == DOLLAR == m[i]
    requires forall k :: i <= k < |s| ==> m[k] == s[k] || (m[k] == SPACE && !IsSpace(s[k]))
    requires forall k :: i <= k < TagEnd(s, i) ==> m[k] == s[k]
    ensures TagEnd(m, i) == TagEnd(s, i)
  {
    var open := TagEnd(s, i);
    if open != i {
      assert TagRun(m, i + 1) == open - 1;
    } else {
      var t := TagRun(m, i + 1);
      assert forall k :: i + 1 <= k < t ==> IsTagUnit(m[k]) && IsTagUnit(s[k]);
    }
  }

  lemma FindIs(s: Text, tag: Text, p: nat, f: nat)
    requires p <= f <= |s| && |tag| > 0
    requires f < |s| ==> Occurs(s, tag, f)
    requires forall q :: p <= q < f ==> !Occurs(s, tag, q)
    ensures Find(s, tag, p) == f
  {
  }

  lemma DollarShape(s: Text, i: nat)
    requires i < |s| && s[i] == DOLLAR && TagEnd(s, i) != i
    ensures var open := TagEnd(s, i);
            var close := Find(s, s[i..open], open);
            SpanAt(s, i) == Span(open, close, if close == |s| then |s| else close + (open - i))
  {
  }

  lemma DollarAgain(s: Text, m: Text, i: nat)
    requires i < |s| && MaskedFrom(s, m, i)
    requires s[i] == DOLLAR && TagEnd(s, i) != i
    ensures SpanAt(m, i) == SpanAt(s, i)
  {
    MaskedStep(s, m, i);
    var open := TagEnd(s, i);
    var tag := s[i..open];
    var close := Find(s, tag, open);
    TagAgain(s, m, i);
    assert m[i..open] == tag;
    assert tag[0] == DOLLAR;
    forall q | open <= q < close ensures !Occurs(m, tag, q) {
      assert IsSpace(m[q]);
      assert q + |tag| <= |m| ==> m[q..q + |tag|][0] == m[q];
    }
    if close < |s| {
      assert m[close..close + |tag|] == s[close..close + |tag|];
      assert Occurs(m, tag, close);
    }
    FindIs(m, tag, open, close);
    DollarShape(s, i);
    DollarShape(m, i);
  }

  lemma PlainAgain(s: Text, m: Text, i: nat)
    requires i < |s| && MaskedFrom(s, m, i)
    requires SpanAt(s, i) == Span(i, i, i + 1)
    ensures SpanAt(m, i) == Span(i, i, i + 1)
  {
    MaskedStep(s, m, i);
    assert m[i] == s[i];
    if s[i] == DOLLAR {
      TagAgain(s, m, i);
    }
  }

  predicate IsComment(s: Text, i: nat) {
    Pair(s, i, DASH, DASH) || Pair(s, i, SLASH, STAR)
  }

  predicate IsPlain(s: Text, i: nat)
    requires i < |s|
  {
    !IsComment(s, i) && s[i] != QUOTE && !IsEString(s, i) && s[i] != DOUBLE_QUOTE
    && (s[i] == DOLLAR ==> TagEnd(s, i) == i)
  }

  /** Lexing the masked text blanks nothing further. */
  ghost predicate Quiet(m: Text, i: nat) {
    forall k :: i <= k < |m| ==> Masked(m, i, k) == m[k]
  }

  lemma QuietStep(m: Text, i: nat)
    requires i < |m|
    requires var c := SpanAt(m, i);
             && (forall k :: c.from <= k < c.to && k < c.next && k < |m| ==> IsSpace(m[k]))
             && Quiet(m, c.next)
    ensures Quiet(m, i)
  {
    var c := SpanAt(m, i);
    forall k | i <= k < |m| ensures Masked(m, i, k) == m[k] {
      if k >= c.next {
        assert Masked(m, c.next, k) == m[k];
      }
    }
  }

  predicate IsQuoted(s: Text, i: nat)
    requires i < |s|
  {
    !IsComment(s, i) && (s[i] == QUOTE || IsEString(s, i) || s[i] == DOUBLE_QUOTE)
  }

  function QuoteUnit(s: Text, i: nat): (q: CodeUnit)
    requires i < |s|
    ensures !IsSpace(q) && q != BACKSLASH
  {
    if s[i] == DOUBLE_QUOTE then DOUBLE_QUOTE else QUOTE
  }

  lemma QuoteShape(s: Text, i: nat)
    requires i < |s| && IsQuoted(s, i)
    ensures var open := i + (if IsEString(s, i) then 2 else 1);
            open <= |s| &&
            var e := QuoteEnd(s, open, QuoteUnit(s, i), IsEString(s, i));
            SpanAt(s, i) == Span(open, e - 1, e)
  {
  }

  lemma QuoteOpensAgain(s: Text, m: Text, i: nat)
    requires i < |s| && MaskedFrom(s, m, i) && IsQuoted(s, i)
    ensures m[i] == s[i] && IsQuoted(m, i) && (IsEString(m, i) <==> IsEString(s, i)) && QuoteUnit(m, i) == QuoteUnit(s, i)
  {
    MaskedStep(s, m, i);
    QuoteShape(s, i);
    assert IsEString(s, i) ==> m[i + 1] == s[i + 1];
  }

  lemma QuoteQuiet(s: Text, m: Text, i: nat)
    requires i < |s| && MaskedFrom(s, m, i) && IsQuoted(s, i)
    requires !(IsEString(s, i) && SpanAt(s, i).next == |s| && s[|s| - 1] == BACKSLASH)
    ensures var c := SpanAt(s, i);
            var e := if c.next <= |s| then c.next else |s|;
            SpanAt(m, i) == Span(c.from, e - 1, e)
  {
    MaskedStep(s, m, i);
    QuoteShape(s, i);
    var c := SpanAt(s, i);
    QuoteOpensAgain(s, m, i);
    QuoteShape(m, i);
    assert c.next < |s| ==> m[c.next] == s[c.next] || m[c.next] == SPACE;
    QuotedAgain(s, m, c.from, QuoteUnit(s, i), IsEString(s, i));
  }

  /** A construct that is not a comment keeps its last unit; a block comment ends in a slash, a line comment
      before a newline. */
  lemma LastUnit(s: Text, i: nat)
    requires i < |s| && SpanAt(s, i).next < |s|
    ensures var c := SpanAt(s, i);
            if Pair(s, i, DASH, DASH) then s[c.next] == NEWLINE
            else if Pair(s, i, SLASH, STAR) then c.from <= c.next - 1 < c.to && s[c.next - 1] == SLASH
            else c.to <= c.next - 1 || c.next - 1 < c.from
  {
  }

  /** The unit before the next construct reads the same to the escape-string test. */
  lemma NextBefore(s: Text, m: Text, i: nat)
    requires i < |s| && MaskedFrom(s, m, i)
    ensures MaskedFrom(s, m, SpanAt(s, i).next)
  {
    MaskedStep(s, m, i);
    var c := SpanAt(s, i);
    if c.next < |s| {
      LastUnit(s, i);
      assert s[c.next] == NEWLINE || m[c.next - 1] == s[c.next - 1] || (s[c.next - 1] == SLASH && m[c.next - 1] == SPACE);
    }
  }

  lemma {:induction false} MaskedIsQuiet(s: Text, m: Text, i: nat)
    requires MaskedFrom(s, m, i) && !BreaksOffOnEscape(s, i)
    ensures Quiet(m, i)
    decreases |s| - i
  {
    if i < |s| {
      var c := SpanAt(s, i);
      MaskedStep(s, m, i);
      NextBefore(s, m, i);
      MaskedIsQuiet(s, m, c.next);
      if IsComment(s, i) {
        SpacesAreQuiet(m, i, c.next);
        assert forall k :: c.next <= k < |m| ==> Masked(m, i, k) == Masked(m, c.next, k);
      } else {
        if IsPlain(s, i) {
          PlainAgain(s, m, i);
        } else if s[i] == DOLLAR {
          DollarAgain(s, m, i);
        } else {
          QuoteQuiet(s, m, i);
        }
        QuietStep(m, i);
      }
    }
  }

  /** Where the text breaks off, the second pass blanks the backslash the first pass left standing. */
  lemma {:induction false} MaskedIsNotQuiet(s: Text, m: Text, i: nat)
    requires MaskedFrom(s, m, i) && BreaksOffOnEscape(s, i)
    ensures m[|s| - 1] == BACKSLASH && Blanked(m, i, |s| - 1)
    decreases |s| - i
  {
    var c := SpanAt(s, i);
    MaskedStep(s, m, i);
    if c.next < |s| {
      NextBefore(s, m, i);
      MaskedIsNotQuiet(s, m, c.next);
      if IsComment(s, i) {
        SpacesAreQuiet(m, i, c.next);
      } else if IsPlain(s, i) {
        PlainAgain(s, m, i);
      } else if s[i] == DOLLAR {
        DollarAgain(s, m, i);
      } else {
        QuoteQuiet(s, m, i);
      }
    } else {
      assert m[i] == s[i] && m[i + 1] == s[i + 1] && IsEString(m, i);
      assert c.from == i + 2 && i + 2 < |s|;
      assert forall k :: c.from <= k < |s| - 1 ==> IsSpace(m[k]);
      QuoteOverSpaces(m, c.from, |s| - 1, QUOTE, true);
      assert m[|s| - 1] == BACKSLASH;
      assert SpanAt(m, i) == Span(i + 2, |s|, |s| + 1);
    }
  }

  /** Masking is idempotent exactly on the texts that do not break off inside an escape string right
      after an escaped backslash: unterminated constructs of every other kind are fine. */
  lemma MaskIdempotent(s: Text)
    ensures Mask(Mask(s)) == Mask(s) <==> !BreaksOffOnEscape(s, 0)
  {
    var m := Mask(s);
    assert MaskedFrom(s, m, 0);
    if BreaksOffOnEscape(s, 0) {
      MaskedIsNotQuiet(s, m, 0);
      assert Mask(m)[|s| - 1] == SPACE;
    } else {
      MaskedIsQuiet(s, m, 0);
      assert forall k :: 0 <= k < |m| ==> Mask(m)[k] == Masked(m, 0, k);
    }
  }

  /** In particular a text that does not end in a backslash masks once and for all. */
  lemma {:induction false} EndsElsewhere(s: Text, i: nat)
    requires |s| > 0 ==> s[|s| - 1] != BACKSLASH
    ensures !BreaksOffOnEscape(s, i)
    decreases |s| - i
  {
    if i < |s| {
      EndsElsewhere(s, SpanAt(s, i).next);
    }
  }

  /** `E'` followed by two backslashes: the shortest text on which a second pass changes the first. */
  lemma NotAlwaysIdempotent()
    ensures var s: Text := [UPPER_E, QUOTE, BACKSLASH, BACKSLASH];
            Mask(s) == [UPPER_E, QUOTE, SPACE, BACKSLASH] && Mask(Mask(s)) == [UPPER_E, QUOTE, SPACE, SPACE]
  {
    var s: Text := [UPPER_E, QUOTE, BACKSLASH, BACKSLASH];
    var m: Text := [UPPER_E, QUOTE, SPACE, BACKSLASH];
    assert QuoteEnd(s, 4, QUOTE, true) == 4;
    assert QuoteEnd(s, 2, QUOTE, true) == 4;
    assert SpanAt(s, 0) == Span(2, 3, 4);
    assert Mask(s) == m;
    assert QuoteEnd(m, 5, QUOTE, true) == 5;
    assert QuoteEnd(m, 3, QUOTE, true) == 5;
    assert QuoteEnd(m, 2, QUOTE, true) == 5;
    assert SpanAt(m, 0) == Span(2, 4, 5);
    assert Mask(m) == [UPPER_E, QUOTE, SPACE, SPACE];
  }

  // ---- trimming --------------------------------------------------------------------------------

  predicate IsTrimmed(u: CodeUnit) {
    u == SEMICOLON || IsSpace(u)
  }

  /** `trailingTrimIndex`: where the statement's real text ends. */
  function TrimIndex(t: Text): (k: nat)
    ensures k <= |t|
    ensures forall n :: k <= n < |t| ==> IsTrimmed(t[n])
    ensures k > 0 ==> !IsTrimmed(t[k - 1])
  {
    if |t| > 0 && IsTrimmed(t[|t| - 1]) then TrimIndex(t[..|t| - 1]) else |t|
  }

  method TrailingTrimIndex(masked: Text) returns (i: nat)
    ensures i == TrimIndex(masked)
  {
    i := |masked|;
    while i > 0 && IsTrimmed(masked[i - 1])
      invariant i <= |masked|
      invariant TrimIndex(masked[..i]) == TrimIndex(masked)
    {
      assert masked[..i][..i - 1] == masked[..i - 1];
      i := i - 1;
    }
  }

  predicate IsSingleStatement(masked: Text) {
    SEMICOLON !in masked[..TrimIndex(masked)]
  }

  /** `k` is where the text masked from `i` on is trimmed. */
  ghost predicate TrimsAt(s: Text, i: nat, k: nat) {
    && i <= k <= |s|
    && (forall n :: k <= n < |s| ==> IsTrimmed(Masked(s, i, n)))
    && (i < k ==> !IsTrimmed(Masked(s, i, k - 1)))
  }

  /** A unit that is not blanked and not trimmed lies before the cut. */
  lemma KeptBeforeCut(s: Text, i: nat, k: nat, n: nat)
    requires i < k && TrimsAt(s, i, k)
    requires i <= n < |s| && n < SpanAt(s, i).next && !(SpanAt(s, i).from <= n < SpanAt(s, i).to)
    requires !IsTrimmed(s[n])
    ensures n < k
  {
    assert Masked(s, i, n) == s[n];
  }

  /** The cut never falls inside a blanked range. */
  lemma CutOutsideBlanks(s: Text, i: nat, k: nat)
    requires i < k && TrimsAt(s, i, k)
    ensures !(SpanAt(s, i).from < k <= SpanAt(s, i).to && k <= SpanAt(s, i).next)
  {
    var c := SpanAt(s, i);
    assert Blanked(s, i, k - 1) ==> IsTrimmed(Masked(s, i, k - 1));
  }

  lemma {:induction false} BlockPrefix(s: Text, k: nat, j: nat, depth: nat)
    requires j <= k <= |s| && BlockEnd(s, j, depth) <= k
    ensures BlockEnd(s[..k], j, depth) == BlockEnd(s, j, depth)
    decreases |s| - j
  {
    var p := s[..k];
    if j < k && depth > 0 {
      if Pair(s, j, SLASH, STAR) {
        BlockPrefix(s, k, j + 2, depth + 1);
      } else if Pair(s, j, STAR, SLASH) {
        BlockPrefix(s, k, j + 2, depth - 1);
      } else {
        BlockPrefix(s, k, j + 1, depth);
      }
    }
  }

  lemma {:induction false} QuotePrefix(s: Text, k: nat, j: nat, quote: CodeUnit, escapes: bool)
    requires j <= k <= |s| && QuoteEnd(s, j, quote, escapes) <= k
    ensures QuoteEnd(s[..k], j, quote, escapes) == QuoteEnd(s, j, quote, escapes)
    decreases |s| - j
  {
    if j < k {
      if escapes && s[j] == BACKSLASH {
        QuotePrefix(s, k, j + 2, quote, escapes);
      } else if s[j] == quote {
        if j + 1 < |s| && s[j + 1] == quote {
          QuotePrefix(s, k, j + 2, quote, escapes);
        }
      } else {
        QuotePrefix(s, k, j + 1, quote, escapes);
      }
    }
  }

  lemma CommentCut(s: Text, i: nat, k: nat)
    requires i < k && TrimsAt(s, i, k) && IsComment(s, i)
    ensures SpanAt(s, i).next < k && SpanAt(s[..k], i) == SpanAt(s, i)
  {
    var p := s[..k];
    var c := SpanAt(s, i);
    CutOutsideBlanks(s, i, k);
    if Pair(s, i, DASH, DASH) {
      assert LineEnd(p, i) == c.next;
    } else {
      BlockPrefix(s, k, i + 2, 1);
    }
  }

  lemma QuoteCut(s: Text, i: nat, k: nat)
    requires i < k && TrimsAt(s, i, k) && IsQuoted(s, i)
    ensures var c := SpanAt(s, i);
            && c.from <= k
            && (c.next <= k ==> SpanAt(s[..k], i) == c)
            && (k < c.next ==> k == c.from && SpanAt(s[..k], i) == Span(k, k - 1, k))
  {
    var p := s[..k];
    var c := SpanAt(s, i);
    QuoteShape(s, i);
    KeptBeforeCut(s, i, k, c.from - 1);
    assert IsQuoted(p, i) && (IsEString(p, i) <==> IsEString(s, i)) && QuoteUnit(p, i) == QuoteUnit(s, i);
    QuoteShape(p, i);
    if c.next <= k {
      QuotePrefix(s, k, c.from, QuoteUnit(s, i), IsEString(s, i));
    } else {
      CutOutsideBlanks(s, i, k);
    }
  }

  lemma OccursPrefix(s: Text, k: nat, tag: Text, q: nat)
    requires q + |tag| <= k <= |s|
    ensures Occurs(s[..k], tag, q) <==> Occurs(s, tag, q)
  {
    assert s[..k][q..q + |tag|] == s[q..q + |tag|];
  }

  lemma FindPrefix(s: Text, k: nat, tag: Text, p: nat)
    requires p <= k <= |s| && |tag| > 0
    ensures Find(s, tag, p) + |tag| <= k ==> Find(s[..k], tag, p) == Find(s, tag, p)
    ensures p == k ==> Find(s[..k], tag, p) == k
  {
    var close := Find(s, tag, p);
    if close + |tag| <= k {
      forall q | p <= q <= close ensures Occurs(s[..k], tag, q) <==> Occurs(s, tag, q) {
        OccursPrefix(s, k, tag, q);
      }
      FindIs(s[..k], tag, p, close);
    }
  }

  lemma TagPrefix(s: Text, k: nat, i: nat)
    requires i < k <= |s| && s[i] == DOLLAR && i < TagEnd(s, i) <= k
    ensures TagEnd(s[..k], i) == TagEnd(s, i)
  {
    assert TagRun(s[..k], i + 1) == TagEnd(s, i) - 1;
  }

  lemma DollarHead(s: Text, i: nat, k: nat)
    requires i < k && TrimsAt(s, i, k) && s[i] == DOLLAR && TagEnd(s, i) != i
    ensures var open := TagEnd(s, i);
            open <= k && s[..k][i] == DOLLAR && TagEnd(s[..k], i) == open && s[..k][i..open] == s[i..open]
  {
    DollarShape(s, i);
    KeptBeforeCut(s, i, k, TagEnd(s, i) - 1);
    TagPrefix(s, k, i);
  }

  lemma DollarEnds(s: Text, i: nat, k: nat)
    requires i < k && TrimsAt(s, i, k) && s[i] == DOLLAR && TagEnd(s, i) != i
    ensures var c := SpanAt(s, i);
            if c.to < |s| then c.next <= k && c.to + (TagEnd(s, i) - i) == c.next
            else c.next == |s| && (k <= c.from || k == |s| == c.from)
  {
    var c := SpanAt(s, i);
    var tag := s[i..TagEnd(s, i)];
    DollarShape(s, i);
    if c.to < |s| {
      TagEndsInDollar(s, i, c.to);
      KeptBeforeCut(s, i, k, c.next - 1);
    } else {
      CutOutsideBlanks(s, i, k);
    }
  }

  lemma TagEndsInDollar(s: Text, i: nat, p: nat)
    requires i < |s| && s[i] == DOLLAR && TagEnd(s, i) != i && Occurs(s, s[i..TagEnd(s, i)], p)
    ensures p + (TagEnd(s, i) - i) <= |s| && s[p + (TagEnd(s, i) - i) - 1] == DOLLAR
  {
    var tag := s[i..TagEnd(s, i)];
    assert tag[|tag| - 1] == s[TagEnd(s, i) - 1] == DOLLAR;
    assert s[p..p + |tag|][|tag| - 1] == s[p + |tag| - 1];
  }

  lemma DollarCut(s: Text, i: nat, k: nat)
    requires i < k && TrimsAt(s, i, k) && s[i] == DOLLAR && TagEnd(s, i) != i
    ensures var c := SpanAt(s, i);
            && c.from <= k
            && (c.next <= k ==> SpanAt(s[..k], i) == c)
            && (k < c.next ==> k == c.from && SpanAt(s[..k], i) == Span(k, k, k))
  {
    var open := TagEnd(s, i);
    DollarShape(s, i);
    DollarHead(s, i, k);
    DollarEnds(s, i, k);
    DollarShape(s[..k], i);
    FindPrefix(s, k, s[i..open], open);
  }

  lemma PlainCut(s: Text, i: nat, k: nat)
    requires i < k <= |s| && IsPlain(s, i)
    ensures SpanAt(s[..k], i) == Span(i, i, i + 1)
  {
    var p := s[..k];
    if s[i] == DOLLAR {
      var t := TagRun(p, i + 1);
      assert forall n :: i + 1 <= n < t ==> IsTagUnit(p[n]) && IsTagUnit(s[n]);
    }
  }

  /** Lexing the cut text blanks exactly what lexing the whole text blanked before the cut. */
  lemma {:induction false} CutBlanksAlike(s: Text, i: nat, k: nat)
    requires TrimsAt(s, i, k)
    ensures forall n :: i <= n < k ==> (Blanked(s[..k], i, n) <==> Blanked(s, i, n))
    decreases |s| - i
  {
    var p := s[..k];
    if i < k {
      var c := SpanAt(s, i);
      if IsComment(s, i) {
        CommentCut(s, i, k);
      } else if IsQuoted(s, i) {
        QuoteCut(s, i, k);
      } else if IsPlain(s, i) {
        PlainCut(s, i, k);
      } else {
        DollarCut(s, i, k);
      }
      if c.next <= k {
        assert forall n :: c.next <= n < |s| ==> Masked(s, i, n) == Masked(s, c.next, n);
        CutBlanksAlike(s, c.next, k);
      }
    }
  }

  /** Cutting the text where its mask is trimmed commutes with masking, whatever the text. */
  lemma CutCommutesWithMask(s: Text)
    ensures var k := TrimIndex(Mask(s));
            Mask(s[..k]) == Mask(s)[..k]
  {
    var k := TrimIndex(Mask(s));
    assert TrimsAt(s, 0, k) by {
      assert forall n :: 0 <= n < |s| ==> Mask(s)[n] == Masked(s, 0, n);
    }
    CutBlanksAlike(s, 0, k);
    forall n | 0 <= n < k ensures Mask(s[..k])[n] == Mask(s)[n] {
      assert Blanked(s[..k], 0, n) <==> Blanked(s, 0, n);
    }
  }

  /** What the ad-hoc query route embeds in its row wrapper (src/engine.ts:3297-3306): the statement
      was accepted exactly when the embedded text shows no `;` of its own, and nothing of it would be
      trimmed a second time. */
  lemma EmbeddedStatement(s: Text)
    ensures var inner := s[..TrimIndex(Mask(s))];
            && (IsSingleStatement(Mask(s)) <==> SEMICOLON !in Mask(inner))
            && TrimIndex(Mask(inner)) == |inner|
  {
    CutCommutesWithMask(s);
  }
}
