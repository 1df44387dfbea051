/** The text the lexer of module SqlMask reads, as a grammar that mentions none of its scanners: comments
    that nest, quoted text with doubled quotes and escapes, dollar-quoted bodies, and everything else
    unit by unit. Every text is read as a list of such tokens, and its mask is what the list shows. */
module SqlMaskGrammar {
  import opened SqlMask
  import opened SqlMaskTheorems

  // ---- the tokens ------------------------------------------------------------------------------

  /** What stands in a block comment after its opener, up to the closer that ends it. */
  datatype Inside = End | Plain(unit: CodeUnit, rest: Inside) | Nested(inner: Inside, rest: Inside)

  const OPENER: Text := [SLASH, STAR]
  const CLOSER: Text := [STAR, SLASH]

  function Body(c: Inside): (t: Text)
    ensures |t| >= 2 && t[|t| - 1] == SLASH
  {
    match c
    case End => CLOSER
    case Plain(u, rest) => [u] + Body(rest)
    case Nested(inner, rest) => OPENER + Body(inner) + Body(rest)
  }

  /** A plain unit begins neither an opener nor a closer with the unit that follows it. */
  predicate Balanced(c: Inside) {
    match c
    case End => true
    case Plain(u, rest) =>
      var next := Body(rest)[0];
      !(u == SLASH && next == STAR) && !(u == STAR && next == SLASH) && Balanced(rest)
    case Nested(inner, rest) => Balanced(inner) && Balanced(rest)
  }

  /** A string, an escape string with its `e` or `E`, and a quoted identifier. */
  datatype Kind = Literal | Escape(prefix: CodeUnit) | Identifier

  function Mark(kind: Kind): (q: CodeUnit)
    ensures q == QUOTE || q == DOUBLE_QUOTE
  {
    if kind.Identifier? then DOUBLE_QUOTE else QUOTE
  }

  function Opening(kind: Kind): (t: Text)
    ensures 1 <= |t| <= 2 && t[|t| - 1] == Mark(kind)
  {
    match kind
    case Literal => [QUOTE]
    case Escape(prefix) => [prefix, QUOTE]
    case Identifier => [DOUBLE_QUOTE]
  }

  /** What quoted text is made of: only an escape string has escapes. */
  datatype Piece = Unit(u: CodeUnit) | Doubled | Escaped(u: CodeUnit)

  predicate Allows(kind: Kind, p: Piece) {
    match p
    case Unit(u) => u != Mark(kind) && (kind.Escape? ==> u != BACKSLASH)
    case Doubled => true
    case Escaped(_) => kind.Escape?
  }

  function PieceText(kind: Kind, p: Piece): (t: Text)
    ensures 1 <= |t| <= 2
  {
    match p
    case Unit(u) => [u]
    case Doubled => [Mark(kind), Mark(kind)]
    case Escaped(u) => [BACKSLASH, u]
  }

  function Pieces(kind: Kind, ps: seq<Piece>): Text {
    if ps == [] then [] else PieceText(kind, ps[0]) + Pieces(kind, ps[1..])
  }

  /** How quoted text ends: with its closing quote, with the text, or with the text right after a
      backslash. */
  datatype Close = Closed | Open | CutOff

  function Ending(kind: Kind, close: Close): (t: Text)
    ensures |t| <= 1
  {
    match close
    case Closed => [Mark(kind)]
    case Open => []
    case CutOff => [BACKSLASH]
  }

  datatype Token =
    | Line(body: Text)
    | Block(inside: Inside)
    | OpenBlock(body: Text)
    | Quoted(kind: Kind, pieces: seq<Piece>, close: Close)
    | Dollar(name: Text, body: Text)
    | OpenDollar(name: Text, body: Text)
    | Other(unit: CodeUnit)

  function Tag(name: Text): Text {
    [DOLLAR] + name + [DOLLAR]
  }

  /** A token shows what it has before and after, and hides what it has between. */
  datatype Parts = Parts(before: Text, hidden: Text, after: Text) {
    function Length(): nat {
      |before| + |hidden| + |after|
    }
  }

  /** The quotes stay. Of quoted text that never ends the last unit stays too, unless that is a backslash
      with nothing after it. */
  function QuotedParts(kind: Kind, pieces: seq<Piece>, close: Close): (p: Parts)
    ensures p.Length() > 0
  {
    var inner := Pieces(kind, pieces);
    match close
    case Closed => Parts(Opening(kind), inner, [Mark(kind)])
    case Open =>
      if inner == [] then Parts(Opening(kind), [], [])
      else Parts(Opening(kind), inner[..|inner| - 1], [inner[|inner| - 1]])
    case CutOff => Parts(Opening(kind), inner + [BACKSLASH], [])
  }

  /** Comments go with their markers, and dollar-quoted bodies without their tags. */
  function PartsOf(t: Token): (p: Parts)
    ensures p.Length() > 0
  {
    match t
    case Line(body) => Parts([], [DASH, DASH] + body, [])
    case Block(inside) => Parts([], OPENER + Body(inside), [])
    case OpenBlock(body) => Parts([], OPENER + body, [])
    case Quoted(kind, pieces, close) => QuotedParts(kind, pieces, close)
    case Dollar(name, body) => Parts(Tag(name), body, Tag(name))
    case OpenDollar(name, body) => Parts(Tag(name), body, [])
    case Other(u) => Parts([u], [], [])
  }

  const WHITESPACE: set<CodeUnit> :=
    {0x09, 0x0A, 0x0B, 0x0C, 0x0D, 0x20, 0xA0, 0x1680, 0x2000, 0x2001, 0x2002, 0x2003, 0x2004, 0x2005, 0x2006,
     0x2007, 0x2008, 0x2009, 0x200A, 0x2028, 0x2029, 0x202F, 0x205F, 0x3000, 0xFEFF}

  function Blanks(s: Text): (m: Text)
    ensures |m| == |s|
  {
    seq(|s|, k requires 0 <= k < |s| => if s[k] in WHITESPACE then s[k] else SPACE)
  }

  function TextOf(p: Parts): (s: Text)
    ensures |s| == p.Length()
  {
    p.before + p.hidden + p.after
  }

  function Shown(p: Parts): (s: Text)
    ensures |s| == p.Length()
  {
    p.before + Blanks(p.hidden) + p.after
  }

  function Show(ts: seq<Token>): Text {
    if ts == [] then [] else Shown(PartsOf(ts[0])) + Show(ts[1..])
  }

  // ---- where a token may stand -----------------------------------------------------------------

  predicate Among(u: CodeUnit, first: char, last: char) {
    first as int <= u <= last as int
  }

  predicate IsLetter(u: CodeUnit) {
    Among(u, 'a', 'z') || Among(u, 'A', 'Z')
  }

  /** `t` stands in `s` from `j` on. */
  predicate At(s: Text, j: nat, t: Text) {
    j + |t| <= |s| && forall k :: 0 <= k < |t| ==> s[j + k] == t[k]
  }

  /** The unit before `j` may belong to an identifier. */
  predicate InWord(s: Text, j: nat)
    requires j <= |s|
  {
    j > 0 && var u := s[j - 1]; IsLetter(u) || Among(u, '0', '9') || Among(u, '_', '_') || Among(u, '$', '$')
  }

  predicate IsName(name: Text) {
    forall u :: u in name ==> IsLetter(u) || Among(u, '_', '_')
  }

  predicate IsE(u: CodeUnit) {
    Among(u, 'e', 'e') || Among(u, 'E', 'E')
  }

  /** `t` begins nowhere in `s` from `from` up to `to`. */
  predicate Absent(s: Text, from: nat, to: nat, t: Text) {
    forall k :: from <= k < to ==> !At(s, k, t)
  }

  /** No comment opened before `j` ends. */
  ghost predicate NeverEnds(s: Text, j: nat) {
    forall c :: Balanced(c) ==> !At(s, j, Body(c))
  }

  /** Nothing that the other tokens describe begins at `i`. */
  ghost predicate Unremarkable(s: Text, i: nat)
    requires i < |s|
  {
    && !At(s, i, [DASH, DASH]) && !At(s, i, OPENER)
    && s[i] != QUOTE && s[i] != DOUBLE_QUOTE
    && !(IsE(s[i]) && At(s, i + 1, [QUOTE]) && !InWord(s, i))
    && forall name :: IsName(name) ==> !At(s, i, Tag(name))
  }

  /** Quoted text stands at `i` and ends at `n`. */
  predicate QuotedFits(s: Text, i: nat, kind: Kind, pieces: seq<Piece>, close: Close, n: nat)
    requires i <= |s|
  {
    && (kind.Escape? ==> IsE(kind.prefix) && !InWord(s, i))
    && (forall p :: p in pieces ==> Allows(kind, p))
    && (n < |s| ==> close.Closed? && s[n] != Mark(kind))
    && (close.CutOff? ==> kind.Escape?)
  }

  /** What stands from `i` to `n` may be read as `t`. */
  ghost predicate Fits(s: Text, i: nat, n: nat, t: Token)
    requires i < n <= |s|
  {
    match t
    case Line(body) => NEWLINE !in body && (n < |s| ==> s[n] == NEWLINE)
    case Block(inside) => Balanced(inside)
    case OpenBlock(body) => n == |s| && NeverEnds(s, i + 2)
    case Quoted(kind, pieces, close) => QuotedFits(s, i, kind, pieces, close, n)
    case Dollar(name, body) => IsName(name) && Absent(s, i + |Tag(name)|, i + |Tag(name)| + |body|, Tag(name))
    case OpenDollar(name, body) => n == |s| && IsName(name) && Absent(s, i + |Tag(name)|, n, Tag(name))
    case Other(_) => Unremarkable(s, i)
  }

  ghost predicate Stands(s: Text, i: nat, t: Token) {
    At(s, i, TextOf(PartsOf(t))) && Fits(s, i, i + PartsOf(t).Length(), t)
  }

  /** `ts` reads `s` from `i` to its end. */
  ghost predicate Reads(s: Text, i: nat, ts: seq<Token>)
    decreases |ts|
  {
    if ts == [] then i == |s|
    else Stands(s, i, ts[0]) && Reads(s, i + PartsOf(ts[0]).Length(), ts[1..])
  }

  // ---- the classes of units --------------------------------------------------------------------

  lemma Classes(u: CodeUnit)
    ensures IsSpace(u) <==> u in WHITESPACE
    ensures IsTagUnit(u) <==> IsLetter(u) || Among(u, '_', '_')
    ensures IsE(u) <==> u == LOWER_E || u == UPPER_E
  {
  }

  lemma Words(s: Text, i: nat)
    requires i <= |s|
    ensures IsIdentBefore(s, i) <==> InWord(s, i)
  {
    if i > 0 {
      Classes(s[i - 1]);
    }
  }

  lemma AtParts(s: Text, j: nat, a: Text, b: Text)
    requires At(s, j, a + b)
    ensures At(s, j, a) && At(s, j + |a|, b)
  {
    var t := a + b;
    forall k | 0 <= k < |a| ensures s[j + k] == a[k] {
      assert t[k] == a[k];
    }
    forall k | 0 <= k < |b| ensures s[j + |a| + k] == b[k] {
      assert s[j + (|a| + k)] == t[|a| + k] == b[k];
    }
  }

  lemma AtJoin(s: Text, j: nat, a: Text, b: Text)
    requires At(s, j, a) && At(s, j + |a|, b)
    ensures At(s, j, a + b)
  {
    var t := a + b;
    forall k | 0 <= k < |t| ensures s[j + k] == t[k] {
      if k >= |a| {
        assert s[j + |a| + (k - |a|)] == b[k - |a|];
      }
    }
  }

  lemma ThreeAt(s: Text, j: nat, a: Text, b: Text, c: Text)
    ensures At(s, j, a + b + c) <==> At(s, j, a) && At(s, j + |a|, b) && At(s, j + |a| + |b|, c)
  {
    if At(s, j, a + b + c) {
      AtParts(s, j, a + b, c);
      AtParts(s, j, a, b);
    } else if At(s, j, a) && At(s, j + |a|, b) && At(s, j + |a| + |b|, c) {
      AtJoin(s, j, a, b);
      AtJoin(s, j, a + b, c);
    }
  }

  // ---- block comments --------------------------------------------------------------------------

  lemma PlainAt(s: Text, j: nat, u: CodeUnit, rest: Inside)
    ensures At(s, j, Body(Plain(u, rest))) <==> j < |s| && s[j] == u && At(s, j + 1, Body(rest))
  {
    if At(s, j, Body(Plain(u, rest))) {
      AtParts(s, j, [u], Body(rest));
      assert s[j + 0] == [u][0];
    } else if j < |s| && s[j] == u && At(s, j + 1, Body(rest)) {
      AtJoin(s, j, [u], Body(rest));
    }
  }

  lemma NestedAt(s: Text, j: nat, inner: Inside, rest: Inside)
    ensures At(s, j, Body(Nested(inner, rest))) <==>
            At(s, j, OPENER) && At(s, j + 2, Body(inner)) && At(s, j + 2 + |Body(inner)|, Body(rest))
  {
    ThreeAt(s, j, OPENER, Body(inner), Body(rest));
  }

  lemma PairAt(s: Text, j: nat, a: CodeUnit, b: CodeUnit)
    ensures At(s, j, [a, b]) <==> Pair(s, j, a, b)
  {
    if At(s, j, [a, b]) {
      assert s[j + 0] == [a, b][0] && s[j + 1] == [a, b][1];
    }
  }

  lemma Deeper(s: Text, j: nat, depth: nat)
    requires At(s, j, OPENER) && depth > 0
    ensures BlockEnd(s, j, depth) == BlockEnd(s, j + 2, depth + 1)
  {
    PairAt(s, j, SLASH, STAR);
  }

  lemma Shallower(s: Text, j: nat, depth: nat)
    requires At(s, j, CLOSER) && depth > 0
    ensures BlockEnd(s, j, depth) == BlockEnd(s, j + 2, depth - 1)
  {
    PairAt(s, j, STAR, SLASH);
  }

  lemma Along(s: Text, j: nat, rest: Inside, depth: nat)
    requires j < |s| && At(s, j + 1, Body(rest)) && Balanced(Plain(s[j], rest)) && depth > 0
    ensures BlockEnd(s, j, depth) == BlockEnd(s, j + 1, depth)
  {
    assert s[j + 1 + 0] == Body(rest)[0];
  }

  /** A comment's body takes the depth down by one, whatever is nested in it. */
  lemma {:induction false} BodyEnds(s: Text, j: nat, c: Inside, depth: nat)
    requires Balanced(c) && At(s, j, Body(c))
    ensures BlockEnd(s, j, depth + 1) == BlockEnd(s, j + |Body(c)|, depth)
    decreases c, 1
  {
    match c
    case End =>
      Shallower(s, j, depth + 1);
    case Plain(u, rest) =>
      PlainAt(s, j, u, rest);
      Along(s, j, rest, depth + 1);
      BodyEnds(s, j + 1, rest, depth);
    case Nested(inner, rest) =>
      NestedEnds(s, j, inner, rest, depth);
  }

  lemma {:induction false} NestedEnds(s: Text, j: nat, inner: Inside, rest: Inside, depth: nat)
    requires var c := Nested(inner, rest); Balanced(c) && At(s, j, Body(c))
    ensures BlockEnd(s, j, depth + 1) == BlockEnd(s, j + |Body(Nested(inner, rest))|, depth)
    decreases Nested(inner, rest), 0
  {
    var a, b, e := NestedParts(s, j, inner, rest);
    BodyEnds(s, a, inner, depth + 1);
    BodyEnds(s, b, rest, depth);
    Deeper(s, j, depth + 1);
  }

  /** Where the two begin, and where the second ends. */
  lemma NestedParts(s: Text, j: nat, inner: Inside, rest: Inside) returns (a: nat, b: nat, e: nat)
    requires At(s, j, Body(Nested(inner, rest)))
    ensures a == j + 2 && b == a + |Body(inner)| && e == b + |Body(rest)| == j + |Body(Nested(inner, rest))|
    ensures At(s, j, OPENER) && At(s, a, Body(inner)) && At(s, b, Body(rest))
  {
    NestedAt(s, j, inner, rest);
    a := j + 2;
    b := a + |Body(inner)|;
    e := b + |Body(rest)|;
  }

  lemma PlainBegins(s: Text, j: nat, rest: Inside)
    requires j < |s| && Balanced(rest) && At(s, j + 1, Body(rest))
    requires !Pair(s, j, SLASH, STAR) && !Pair(s, j, STAR, SLASH)
    ensures Balanced(Plain(s[j], rest)) && At(s, j, Body(Plain(s[j], rest)))
  {
    PlainAt(s, j, s[j], rest);
    assert s[j + 1 + 0] == Body(rest)[0];
  }

  lemma NestedBegins(s: Text, j: nat, inner: Inside, rest: Inside)
    requires At(s, j, OPENER) && Balanced(inner) && Balanced(rest)
    requires At(s, j + 2, Body(inner)) && At(s, j + 2 + |Body(inner)|, Body(rest))
    ensures var c := Nested(inner, rest); Balanced(c) && At(s, j, Body(c))
  {
    NestedAt(s, j, inner, rest);
  }

  lemma EndBegins(s: Text, j: nat)
    requires Pair(s, j, STAR, SLASH)
    ensures Balanced(End) && At(s, j, Body(End))
  {
    PairAt(s, j, STAR, SLASH);
  }

  lemma InnerEnds(s: Text, j: nat, inner: Inside, depth: nat)
    requires j <= |s| && Balanced(inner) && At(s, j, Body(inner)) && BlockEnd(s, j, depth + 2) < |s|
    ensures j + |Body(inner)| <= |s| && BlockEnd(s, j + |Body(inner)|, depth + 1) < |s|
  {
    BodyEnds(s, j, inner, depth + 1);
  }

  /** What one unit or pair makes of a scan that goes on. */
  lemma ScansOn(s: Text, j: nat, depth: nat)
    requires j < |s|
    ensures BlockEnd(s, j, depth + 1) ==
            if Pair(s, j, SLASH, STAR) then BlockEnd(s, j + 2, depth + 2)
            else if Pair(s, j, STAR, SLASH) then BlockEnd(s, j + 2, depth)
            else BlockEnd(s, j + 1, depth + 1)
  {
  }

  /** And a scan that ends before the text does has read one. */
  lemma {:induction false} EndedIsBody(s: Text, j: nat, depth: nat) returns (c: Inside)
    requires j <= |s| && BlockEnd(s, j, depth + 1) < |s|
    ensures Balanced(c) && At(s, j, Body(c))
    decreases |s| - j
  {
    ScansOn(s, j, depth);
    if Pair(s, j, SLASH, STAR) {
      var inner := EndedIsBody(s, j + 2, depth + 1);
      InnerEnds(s, j + 2, inner, depth);
      var rest := EndedIsBody(s, j + 2 + |Body(inner)|, depth);
      c := Nested(inner, rest);
      PairAt(s, j, SLASH, STAR);
      NestedBegins(s, j, inner, rest);
    } else if Pair(s, j, STAR, SLASH) {
      c := End;
      EndBegins(s, j);
    } else {
      var rest := EndedIsBody(s, j + 1, depth);
      c := Plain(s[j], rest);
      PlainBegins(s, j, rest);
    }
  }

  // ---- quoted text -----------------------------------------------------------------------------

  /** A scan passes over every piece. */
  lemma {:induction false} PiecesPass(s: Text, j: nat, kind: Kind, ps: seq<Piece>)
    requires (forall p :: p in ps ==> Allows(kind, p)) && At(s, j, Pieces(kind, ps))
    ensures QuoteEnd(s, j, Mark(kind), kind.Escape?) == QuoteEnd(s, j + |Pieces(kind, ps)|, Mark(kind), kind.Escape?)
    decreases |ps|
  {
    if ps != [] {
      var head := PieceText(kind, ps[0]);
      AtParts(s, j, head, Pieces(kind, ps[1..]));
      PiecePasses(s, j, kind, ps[0]);
      PiecesPass(s, j + |head|, kind, ps[1..]);
    }
  }

  lemma PiecePasses(s: Text, j: nat, kind: Kind, p: Piece)
    requires Allows(kind, p) && At(s, j, PieceText(kind, p))
    ensures QuoteEnd(s, j, Mark(kind), kind.Escape?) == QuoteEnd(s, j + |PieceText(kind, p)|, Mark(kind), kind.Escape?)
  {
    var t := PieceText(kind, p);
    assert s[j + 0] == t[0];
    assert |t| == 2 ==> s[j + 1] == t[1];
  }

  lemma NextPiece(s: Text, j: nat, kind: Kind) returns (p: Piece)
    requires IsNextPiece(s, j, kind)
    ensures Allows(kind, p) && At(s, j, PieceText(kind, p))
  {
    p := if kind.Escape? && s[j] == BACKSLASH then Escaped(s[j + 1])
         else if s[j] == Mark(kind) then Doubled
         else Unit(s[j]);
  }

  /** From `e` on quoted text ends so. */
  predicate EndsAt(s: Text, e: nat, kind: Kind, close: Close) {
    && At(s, e, Ending(kind, close))
    && (e + |Ending(kind, close)| < |s| ==> close.Closed? && s[e + 1] != Mark(kind))
    && (close.CutOff? ==> kind.Escape?)
  }

  predicate AllAllowed(kind: Kind, ps: seq<Piece>) {
    forall p :: p in ps ==> Allows(kind, p)
  }

  predicate IsNextPiece(s: Text, j: nat, kind: Kind) {
    j < |s| && (s[j] == Mark(kind) ==> Pair(s, j, Mark(kind), Mark(kind))) && !(kind.Escape? && s[j] == BACKSLASH && j + 1 == |s|)
  }

  lemma EndingThere(s: Text, j: nat, kind: Kind) returns (close: Close)
    requires j <= |s| && !IsNextPiece(s, j, kind)
    ensures EndsAt(s, j, kind, close)
  {
    close := if j == |s| then Open else if s[j] == Mark(kind) then Closed else CutOff;
  }

  /** Whatever follows an opening quote is pieces and an ending. */
  lemma {:induction false} PiecesOf(s: Text, j: nat, kind: Kind) returns (ps: seq<Piece>, close: Close, e: nat)
    requires j <= |s|
    ensures AllAllowed(kind, ps) && At(s, j, Pieces(kind, ps)) && e == j + |Pieces(kind, ps)| && EndsAt(s, e, kind, close)
    decreases |s| - j
  {
    if IsNextPiece(s, j, kind) {
      var p := NextPiece(s, j, kind);
      var rest;
      rest, close, e := PiecesOf(s, j + |PieceText(kind, p)|, kind);
      ps := [p] + rest;
      OneMorePiece(s, j, kind, p, rest);
    } else {
      ps, e := [], j;
      close := EndingThere(s, j, kind);
    }
  }

  lemma OneMorePiece(s: Text, j: nat, kind: Kind, p: Piece, rest: seq<Piece>)
    requires At(s, j, PieceText(kind, p)) && At(s, j + |PieceText(kind, p)|, Pieces(kind, rest))
    ensures At(s, j, Pieces(kind, [p] + rest))
    ensures |Pieces(kind, [p] + rest)| == |PieceText(kind, p)| + |Pieces(kind, rest)|
  {
    assert ([p] + rest)[1..] == rest;
    AtJoin(s, j, PieceText(kind, p), Pieces(kind, rest));
  }

  // ---- dollar quotes ---------------------------------------------------------------------------

  lemma RunEnds(s: Text, j: nat, e: nat)
    requires j <= e <= |s|
    requires forall k :: j <= k < e ==> IsTagUnit(s[k])
    requires e < |s| ==> !IsTagUnit(s[e])
    ensures TagRun(s, j) == e
  {
  }

  lemma NameIsTagged(name: Text)
    ensures IsName(name) <==> forall k :: 0 <= k < |name| ==> IsTagUnit(name[k])
  {
    forall k | 0 <= k < |name| ensures name[k] in name {
      Classes(name[k]);
    }
    forall u | u in name ensures IsTagUnit(u) <==> IsLetter(u) || Among(u, '_', '_') {
      Classes(u);
    }
  }

  /** A tag is opened exactly where one stands. */
  lemma TagOpens(s: Text, i: nat, name: Text)
    requires At(s, i, Tag(name)) && IsName(name)
    ensures s[i] == DOLLAR && TagEnd(s, i) == i + |Tag(name)| && s[i..i + |Tag(name)|] == Tag(name)
  {
    var tag := Tag(name);
    assert s[i + 0] == tag[0];
    var e := i + |tag| - 1;
    assert s[i + (|tag| - 1)] == tag[|tag| - 1] == DOLLAR;
    NameIsTagged(name);
    forall k | i + 1 <= k < e ensures IsTagUnit(s[k]) {
      assert s[i + (k - i)] == tag[k - i] == name[k - i - 1];
    }
    RunEnds(s, i + 1, e);
    assert s[i..i + |tag|] == tag;
  }

  lemma TagThere(s: Text, i: nat) returns (name: Text)
    requires i < |s| && s[i] == DOLLAR && TagEnd(s, i) != i
    ensures IsName(name) && At(s, i, Tag(name))
  {
    var e := TagRun(s, i + 1);
    name := s[i + 1..e];
    NameIsTagged(name);
    var tag := Tag(name);
    forall k | 0 <= k < |tag| ensures s[i + k] == tag[k] {
    }
  }

  lemma AtOccurs(s: Text, tag: Text, p: nat)
    ensures At(s, p, tag) ==> Occurs(s, tag, p)
  {
    if At(s, p, tag) {
      assert s[p..p + |tag|] == tag;
    }
  }

  lemma OccursAt(s: Text, tag: Text, p: nat)
    ensures Occurs(s, tag, p) ==> At(s, p, tag)
  {
    if Occurs(s, tag, p) {
      forall k | 0 <= k < |tag| ensures s[p + k] == tag[k] {
        assert s[p..p + |tag|][k] == s[p + k];
      }
    }
  }

  lemma FindsAt(s: Text, tag: Text, p: nat, f: nat)
    requires p <= f <= |s| && |tag| > 0
    requires f < |s| ==> At(s, f, tag)
    requires Absent(s, p, f, tag)
    ensures Find(s, tag, p) == f
  {
    forall k: nat ensures Occurs(s, tag, k) <==> At(s, k, tag) {
      AtOccurs(s, tag, k);
      OccursAt(s, tag, k);
    }
  }

  // ---- one token is one turn -------------------------------------------------------------------

  /** The turn at `i` blanks what `p` hides and goes on behind it. */
  ghost predicate Turns(s: Text, i: nat, p: Parts)
    requires i < |s|
  {
    var c := SpanAt(s, i);
    var n := i + p.Length();
    && n <= |s| && (c.next == n || (n == |s| && c.next > |s|))
    && if p.hidden == [] then c.to <= c.from else c.from == i + |p.before| && c.to == c.from + |p.hidden|
  }

  lemma LineTurn(s: Text, i: nat, body: Text)
    requires At(s, i, [DASH, DASH] + body)
    requires var n := i + 2 + |body|; NEWLINE !in body && (n < |s| ==> s[n] == NEWLINE)
    ensures SpanAt(s, i) == Span(i, i + 2 + |body|, i + 2 + |body|)
  {
    var text := [DASH, DASH] + body;
    AtParts(s, i, [DASH, DASH], body);
    PairAt(s, i, DASH, DASH);
    forall k | i <= k < i + |text| ensures s[k] != NEWLINE {
      assert s[i + (k - i)] == text[k - i];
      assert k >= i + 2 ==> text[k - i] == body[k - i - 2];
    }
    assert LineEnd(s, i) == i + |text|;
  }

  lemma BlockSpan(s: Text, i: nat, e: nat)
    requires At(s, i, OPENER) && BlockEnd(s, i + 2, 1) == e
    ensures SpanAt(s, i) == Span(i, e, e)
  {
    PairAt(s, i, SLASH, STAR);
  }

  lemma BlockReaches(s: Text, i: nat, inside: Inside)
    requires Balanced(inside) && At(s, i, OPENER + Body(inside))
    ensures At(s, i, OPENER) && SpanAt(s, i) == Span(i, i + 2 + |Body(inside)|, i + 2 + |Body(inside)|)
  {
    AtParts(s, i, OPENER, Body(inside));
    var e := i + 2 + |Body(inside)|;
    assert BlockEnd(s, i + 2, 1) == e by {
      BodyEnds(s, i + 2, inside, 0);
      assert BlockEnd(s, e, 0) == e;
    }
    BlockSpan(s, i, e);
  }

  lemma OpenBlockReaches(s: Text, i: nat, body: Text)
    requires At(s, i, OPENER + body) && i + 2 + |body| == |s| && NeverEnds(s, i + 2)
    ensures SpanAt(s, i) == Span(i, |s|, |s|)
  {
    AtParts(s, i, OPENER, body);
    if BlockEnd(s, i + 2, 1) < |s| {
      var c := EndedIsBody(s, i + 2, 0);
      assert false;
    }
    BlockSpan(s, i, |s|);
  }

  lemma QuotedOpens(s: Text, i: nat, kind: Kind)
    requires i < |s| && At(s, i, Opening(kind)) && (kind.Escape? ==> IsE(kind.prefix) && !InWord(s, i))
    ensures var from := i + |Opening(kind)|;
            var e := QuoteEnd(s, from, Mark(kind), kind.Escape?);
            SpanAt(s, i) == Span(from, e - 1, e)
  {
    assert s[i + 0] == Opening(kind)[0];
    Words(s, i);
    if kind.Escape? {
      assert s[i + 1] == Opening(kind)[1];
      Classes(s[i]);
    }
  }

  lemma QuotedStops(s: Text, j: nat, kind: Kind, close: Close)
    requires At(s, j, Ending(kind, close)) && (close.CutOff? ==> kind.Escape?)
    requires var n := j + |Ending(kind, close)|; n < |s| ==> close.Closed? && s[n] != Mark(kind)
    ensures QuoteEnd(s, j, Mark(kind), kind.Escape?) == if close.CutOff? then |s| + 1 else j + |Ending(kind, close)|
  {
    if !close.Open? {
      assert s[j + 0] == Ending(kind, close)[0];
    }
  }

  lemma QuotedEnds(s: Text, from: nat, kind: Kind, ps: seq<Piece>, close: Close, n: nat)
    requires At(s, from, Pieces(kind, ps)) && (forall p :: p in ps ==> Allows(kind, p))
    requires At(s, from + |Pieces(kind, ps)|, Ending(kind, close)) && (close.CutOff? ==> kind.Escape?)
    requires n == from + |Pieces(kind, ps)| + |Ending(kind, close)|
    requires n < |s| ==> close.Closed? && s[n] != Mark(kind)
    ensures QuoteEnd(s, from, Mark(kind), kind.Escape?) == if close.CutOff? then |s| + 1 else n
  {
    PiecesPass(s, from, kind, ps);
    QuotedStops(s, from + |Pieces(kind, ps)|, kind, close);
  }

  lemma QuotedText(kind: Kind, ps: seq<Piece>, close: Close)
    ensures TextOf(QuotedParts(kind, ps, close)) == Opening(kind) + Pieces(kind, ps) + Ending(kind, close)
  {
    var inner := Pieces(kind, ps);
    if close.Open? && inner != [] {
      assert inner[..|inner| - 1] + [inner[|inner| - 1]] == inner;
    }
  }

  lemma QuotedSpan(s: Text, i: nat, kind: Kind, ps: seq<Piece>, close: Close, n: nat)
    requires At(s, i, Opening(kind) + Pieces(kind, ps) + Ending(kind, close)) && i < n <= |s|
    requires n == i + |Opening(kind) + Pieces(kind, ps) + Ending(kind, close)|
    requires QuotedFits(s, i, kind, ps, close, n)
    ensures var next := if close.CutOff? then |s| + 1 else n;
            SpanAt(s, i) == Span(i + |Opening(kind)|, next - 1, next)
  {
    ThreeAt(s, i, Opening(kind), Pieces(kind, ps), Ending(kind, close));
    QuotedOpens(s, i, kind);
    QuotedEnds(s, i + |Opening(kind)|, kind, ps, close, n);
  }

  lemma QuotedTurn(s: Text, i: nat, kind: Kind, ps: seq<Piece>, close: Close)
    requires var p := QuotedParts(kind, ps, close);
             At(s, i, TextOf(p)) && QuotedFits(s, i, kind, ps, close, i + p.Length())
    ensures Turns(s, i, QuotedParts(kind, ps, close))
  {
    QuotedText(kind, ps, close);
    QuotedSpan(s, i, kind, ps, close, i + QuotedParts(kind, ps, close).Length());
  }

  lemma TagSpan(s: Text, i: nat, name: Text, close: nat)
    requires At(s, i, Tag(name)) && IsName(name)
    requires var open := i + |Tag(name)|;
             open <= close <= |s| && Absent(s, open, close, Tag(name)) && (close < |s| ==> At(s, close, Tag(name)))
    ensures SpanAt(s, i) == Span(i + |Tag(name)|, close, if close == |s| then |s| else close + |Tag(name)|)
  {
    TagOpens(s, i, name);
    FindsAt(s, Tag(name), i + |Tag(name)|, close);
  }

  lemma DollarTurn(s: Text, i: nat, name: Text, body: Text)
    requires At(s, i, Tag(name) + body + Tag(name)) && IsName(name)
    requires Absent(s, i + |Tag(name)|, i + |Tag(name)| + |body|, Tag(name))
    ensures Turns(s, i, Parts(Tag(name), body, Tag(name)))
  {
    var tag := Tag(name);
    ThreeAt(s, i, tag, body, tag);
    TagSpan(s, i, name, i + |tag| + |body|);
  }

  lemma OpenDollarTurn(s: Text, i: nat, name: Text, body: Text)
    requires At(s, i, Tag(name) + body + []) && i + |Tag(name) + body| == |s| && IsName(name)
    requires Absent(s, i + |Tag(name)|, |s|, Tag(name))
    ensures Turns(s, i, Parts(Tag(name), body, []))
  {
    ThreeAt(s, i, Tag(name), body, []);
    TagSpan(s, i, name, |s|);
  }

  lemma OtherTurn(s: Text, i: nat)
    requires i < |s| && Unremarkable(s, i)
    ensures SpanAt(s, i) == Span(i, i, i + 1)
  {
    PairAt(s, i, DASH, DASH);
    PairAt(s, i, SLASH, STAR);
    if s[i] == DOLLAR && TagEnd(s, i) != i {
      var name := TagThere(s, i);
      assert false;
    }
    EscapeBegins(s, i);
  }

  lemma EscapeBegins(s: Text, i: nat)
    requires i < |s|
    ensures IsEString(s, i) <==> IsE(s[i]) && At(s, i + 1, [QUOTE]) && !InWord(s, i)
  {
    Words(s, i);
    Classes(s[i]);
    assert At(s, i + 1, [QUOTE]) ==> s[i + 1 + 0] == [QUOTE][0];
  }

  lemma CommentTurn(s: Text, i: nat, t: Token, x: Text)
    requires PartsOf(t) == Parts([], x, []) && At(s, i, x) && i < |s| && SpanAt(s, i) == Span(i, i + |x|, i + |x|)
    ensures Turns(s, i, PartsOf(t))
  {
  }

  lemma LineTokenTurn(s: Text, i: nat, body: Text)
    requires Stands(s, i, Line(body))
    ensures i < |s| && Turns(s, i, PartsOf(Line(body)))
  {
    ThreeAt(s, i, [], [DASH, DASH] + body, []);
    LineTurn(s, i, body);
    CommentTurn(s, i, Line(body), [DASH, DASH] + body);
  }

  lemma BlockTokenTurn(s: Text, i: nat, inside: Inside)
    requires Stands(s, i, Block(inside))
    ensures i < |s| && Turns(s, i, PartsOf(Block(inside)))
  {
    ThreeAt(s, i, [], OPENER + Body(inside), []);
    BlockReaches(s, i, inside);
    CommentTurn(s, i, Block(inside), OPENER + Body(inside));
  }

  lemma OpenBlockTokenTurn(s: Text, i: nat, body: Text)
    requires Stands(s, i, OpenBlock(body))
    ensures i < |s| && Turns(s, i, PartsOf(OpenBlock(body)))
  {
    ThreeAt(s, i, [], OPENER + body, []);
    OpenBlockReaches(s, i, body);
    CommentTurn(s, i, OpenBlock(body), OPENER + body);
  }

  /** One token is one turn. */
  lemma TokenTurn(s: Text, i: nat, t: Token)
    requires Stands(s, i, t)
    ensures i < |s| && Turns(s, i, PartsOf(t))
  {
    match t
    case Line(body) => LineTokenTurn(s, i, body);
    case Block(inside) => BlockTokenTurn(s, i, inside);
    case OpenBlock(body) => OpenBlockTokenTurn(s, i, body);
    case Quoted(kind, ps, close) => QuotedTurn(s, i, kind, ps, close);
    case Dollar(name, body) => DollarTurn(s, i, name, body);
    case OpenDollar(name, body) => OpenDollarTurn(s, i, name, body);
    case Other(u) => OtherTurn(s, i);
  }

  // ---- the mask follows the grammar ------------------------------------------------------------

  /** `shown` is what the mask has from `i` on. */
  ghost predicate Shows(s: Text, i: nat, shown: Text) {
    i + |shown| == |s| && forall k :: i <= k < |s| ==> Masked(s, i, k) == shown[k - i]
  }

  lemma PartShown(s: Text, i: nat, p: Parts, k: nat)
    requires At(s, i, TextOf(p)) && i <= k < i + p.Length()
    ensures var from := i + |p.before|;
            Shown(p)[k - i] == if from <= k < from + |p.hidden| && s[k] !in WHITESPACE then SPACE else s[k]
  {
    assert s[i + (k - i)] == TextOf(p)[k - i];
  }

  lemma WithinTurn(s: Text, i: nat, p: Parts, k: nat)
    requires At(s, i, TextOf(p)) && i <= k < i + p.Length() && Turns(s, i, p)
    ensures Masked(s, i, k) == Shown(p)[k - i]
  {
    PartShown(s, i, p, k);
    Classes(s[k]);
  }

  lemma BeyondTurn(s: Text, i: nat, p: Parts, k: nat)
    requires i < |s| && Turns(s, i, p) && i + p.Length() <= k < |s|
    ensures Masked(s, i, k) == Masked(s, i + p.Length(), k)
  {
  }

  lemma OneMoreTurn(s: Text, i: nat, p: Parts, shown: Text, rest: Text)
    requires At(s, i, TextOf(p)) && i < |s| && Turns(s, i, p) && shown == Shown(p)
    requires Shows(s, i + |shown|, rest)
    ensures Shows(s, i, shown + rest)
  {
    var n := i + |shown|;
    var all := shown + rest;
    forall k | i <= k < |s| ensures Masked(s, i, k) == all[k - i] {
      if k < n {
        WithinTurn(s, i, p, k);
      } else {
        BeyondTurn(s, i, p, k);
        assert Masked(s, n, k) == rest[k - n];
      }
    }
  }

  lemma OneMoreToken(s: Text, i: nat, t: Token, rest: Text)
    requires Stands(s, i, t) && Shows(s, i + PartsOf(t).Length(), rest)
    ensures Shows(s, i, Shown(PartsOf(t)) + rest)
  {
    TokenTurn(s, i, t);
    OneMoreTurn(s, i, PartsOf(t), Shown(PartsOf(t)), rest);
  }

  lemma {:induction false} ReadingIsShown(s: Text, i: nat, ts: seq<Token>)
    requires Reads(s, i, ts)
    ensures Shows(s, i, Show(ts))
    decreases |ts|
  {
    if ts != [] {
      var t, rest := ts[0], ts[1..];
      ReadingIsShown(s, i + PartsOf(t).Length(), rest);
      OneMoreToken(s, i, t, Show(rest));
    }
  }

  /** However a text is read, its mask is what the reading shows. */
  lemma MaskShowsTheReading(s: Text, ts: seq<Token>)
    requires Reads(s, 0, ts)
    ensures Mask(s) == Show(ts)
  {
    ReadingIsShown(s, 0, ts);
    var shown := Show(ts);
    forall k | 0 <= k < |s| ensures Mask(s)[k] == shown[k] {
      assert Masked(s, 0, k) == shown[k - 0];
    }
  }

  // ---- every text has a reading ----------------------------------------------------------------

  lemma SliceAt(s: Text, j: nat, e: nat)
    requires j <= e <= |s|
    ensures At(s, j, s[j..e])
  {
  }

  lemma LineThere(s: Text, i: nat) returns (t: Token)
    requires Pair(s, i, DASH, DASH)
    ensures Stands(s, i, t)
  {
    var e := LineEnd(s, i);
    PairAt(s, i, DASH, DASH);
    var body := s[i + 2..e];
    t := Line(body);
    SliceAt(s, i + 2, e);
    AtJoin(s, i, [DASH, DASH], body);
    ThreeAt(s, i, [], [DASH, DASH] + body, []);
  }

  lemma BlockThere(s: Text, i: nat) returns (t: Token)
    requires Pair(s, i, SLASH, STAR)
    ensures Stands(s, i, t)
  {
    PairAt(s, i, SLASH, STAR);
    if c :| Balanced(c) && At(s, i + 2, Body(c)) {
      t := Block(c);
      AtJoin(s, i, OPENER, Body(c));
      ThreeAt(s, i, [], OPENER + Body(c), []);
    } else {
      var body := s[i + 2..];
      t := OpenBlock(body);
      SliceAt(s, i + 2, |s|);
      AtJoin(s, i, OPENER, body);
      ThreeAt(s, i, [], OPENER + body, []);
    }
  }

  lemma QuotedStands(s: Text, i: nat, kind: Kind, ps: seq<Piece>, close: Close)
    requires i <= |s| && At(s, i, Opening(kind) + Pieces(kind, ps) + Ending(kind, close))
    requires QuotedFits(s, i, kind, ps, close, i + |Opening(kind) + Pieces(kind, ps) + Ending(kind, close)|)
    ensures Stands(s, i, Quoted(kind, ps, close))
  {
    QuotedText(kind, ps, close);
  }

  lemma QuotedThere(s: Text, i: nat, kind: Kind) returns (t: Token)
    requires i < |s| && At(s, i, Opening(kind)) && (kind.Escape? ==> IsE(kind.prefix) && !InWord(s, i))
    ensures Stands(s, i, t)
  {
    var from := i + |Opening(kind)|;
    var ps, close, e := PiecesOf(s, from, kind);
    t := Quoted(kind, ps, close);
    ThreeAt(s, i, Opening(kind), Pieces(kind, ps), Ending(kind, close));
    QuotedStands(s, i, kind, ps, close);
  }

  lemma DollarThere(s: Text, i: nat) returns (t: Token)
    requires i < |s| && s[i] == DOLLAR && TagEnd(s, i) != i
    ensures Stands(s, i, t)
  {
    var name := TagThere(s, i);
    var tag := Tag(name);
    TagOpens(s, i, name);
    var open := i + |tag|;
    var close := Find(s, tag, open);
    var body := s[open..close];
    SliceAt(s, open, close);
    forall k: nat ensures Occurs(s, tag, k) <==> At(s, k, tag) {
      AtOccurs(s, tag, k);
      OccursAt(s, tag, k);
    }
    if close < |s| {
      t := Dollar(name, body);
      ThreeAt(s, i, tag, body, tag);
    } else {
      t := OpenDollar(name, body);
      ThreeAt(s, i, tag, body, []);
    }
  }

  lemma PlainThere(s: Text, i: nat)
    requires i < |s| && SpanAt(s, i) == Span(i, i, i + 1)
    ensures Unremarkable(s, i)
  {
    PairAt(s, i, DASH, DASH);
    PairAt(s, i, SLASH, STAR);
    EscapeBegins(s, i);
    forall name | IsName(name) && At(s, i, Tag(name)) ensures false {
      TagOpens(s, i, name);
    }
  }

  lemma TokenThere(s: Text, i: nat) returns (t: Token)
    requires i < |s|
    ensures Stands(s, i, t)
  {
    EscapeBegins(s, i);
    if Pair(s, i, DASH, DASH) {
      t := LineThere(s, i);
    } else if Pair(s, i, SLASH, STAR) {
      t := BlockThere(s, i);
    } else if s[i] == QUOTE {
      t := QuotedThere(s, i, Literal);
    } else if IsEString(s, i) {
      t := QuotedThere(s, i, Escape(s[i]));
    } else if s[i] == DOUBLE_QUOTE {
      t := QuotedThere(s, i, Identifier);
    } else if s[i] == DOLLAR && TagEnd(s, i) != i {
      t := DollarThere(s, i);
    } else {
      PlainThere(s, i);
      t := Other(s[i]);
    }
  }

  lemma {:induction false} ReadingThere(s: Text, i: nat) returns (ts: seq<Token>)
    requires i <= |s|
    ensures Reads(s, i, ts)
    decreases |s| - i
  {
    if i == |s| {
      ts := [];
    } else {
      var t := TokenThere(s, i);
      var rest := ReadingThere(s, i + PartsOf(t).Length());
      ts := [t] + rest;
      TokenFirst(s, i, t, rest);
    }
  }

  lemma TokenFirst(s: Text, i: nat, t: Token, rest: seq<Token>)
    requires Stands(s, i, t) && Reads(s, i + PartsOf(t).Length(), rest)
    ensures Reads(s, i, [t] + rest) && Show([t] + rest) == Shown(PartsOf(t)) + Show(rest)
  {
    assert ([t] + rest)[1..] == rest;
  }

  /** The grammar leaves no text out, and so says what the mask of every text is. */
  lemma EveryTextIsRead(s: Text)
    ensures exists ts :: Reads(s, 0, ts) && Mask(s) == Show(ts)
  {
    var ts := ReadingThere(s, 0);
    MaskShowsTheReading(s, ts);
  }

  // ---- a comment and what follows it -----------------------------------------------------------

  lemma AtShifted(p: Text, s: Text, j: nat, t: Text)
    ensures At(p + s, |p| + j, t) <==> At(s, j, t)
  {
    var whole, there := p + s, |p| + j;
    if j + |t| <= |s| {
      forall k | 0 <= k < |t| ensures whole[there + k] == t[k] <==> s[j + k] == t[k] {
        assert whole[|p| + (j + k)] == s[j + k];
      }
    }
  }

  lemma WordShifted(p: Text, s: Text, j: nat)
    requires p != [] && p[|p| - 1] == SLASH && j <= |s|
    ensures InWord(p + s, |p| + j) <==> InWord(s, j)
  {
    assert (p + s)[|p| + j - 1] == if j == 0 then SLASH else s[j - 1];
  }

  lemma AbsentShifted(p: Text, s: Text, from: nat, to: nat, t: Text)
    requires Absent(s, from, to, t)
    ensures Absent(p + s, |p| + from, |p| + to, t)
  {
    var whole := p + s;
    forall k | |p| + from <= k < |p| + to ensures !At(whole, k, t) {
      AtShifted(p, s, k - |p|, t);
    }
  }

  lemma UnremarkableShifted(p: Text, s: Text, j: nat)
    requires p != [] && p[|p| - 1] == SLASH && j < |s| && Unremarkable(s, j)
    ensures Unremarkable(p + s, |p| + j)
  {
    AtShifted(p, s, j, [DASH, DASH]);
    AtShifted(p, s, j, OPENER);
    AtShifted(p, s, j + 1, [QUOTE]);
    WordShifted(p, s, j);
    forall name | IsName(name) ensures !At(p + s, |p| + j, Tag(name)) {
      AtShifted(p, s, j, Tag(name));
    }
  }

  lemma OpenBlockShifted(p: Text, s: Text, j: nat)
    requires NeverEnds(s, j)
    ensures NeverEnds(p + s, |p| + j)
  {
    forall c | Balanced(c) ensures !At(p + s, |p| + j, Body(c)) {
      AtShifted(p, s, j, Body(c));
    }
  }

  lemma FitsShifted(p: Text, s: Text, j: nat, n: nat, t: Token)
    requires p != [] && p[|p| - 1] == SLASH && j < n <= |s| && Fits(s, j, n, t)
    ensures Fits(p + s, |p| + j, |p| + n, t)
  {
    WordShifted(p, s, j);
    match t
    case Line(_) =>
    case Block(_) =>
    case OpenBlock(_) => OpenBlockShifted(p, s, j + 2);
    case Quoted(_, _, _) =>
    case Dollar(name, body) => AbsentShifted(p, s, j + |Tag(name)|, j + |Tag(name)| + |body|, Tag(name));
    case OpenDollar(name, body) => AbsentShifted(p, s, j + |Tag(name)|, n, Tag(name));
    case Other(_) => UnremarkableShifted(p, s, j);
  }

  /** After a comment a text is read as it is from its start. */
  lemma {:induction false} ReadsShifted(p: Text, s: Text, j: nat, ts: seq<Token>)
    requires p != [] && p[|p| - 1] == SLASH && Reads(s, j, ts)
    ensures Reads(p + s, |p| + j, ts)
    decreases |ts|
  {
    if ts != [] {
      var n := j + PartsOf(ts[0]).Length();
      AtShifted(p, s, j, TextOf(PartsOf(ts[0])));
      FitsShifted(p, s, j, n, ts[0]);
      ReadsShifted(p, s, n, ts[1..]);
    }
  }

  lemma BlanksAlone(s: Text)
    ensures Shown(Parts([], s, [])) == Blanks(s)
  {
  }

  lemma CommentStands(p: Text, c: Inside, rest: Text)
    requires Balanced(c) && p == OPENER + Body(c)
    ensures Stands(p + rest, 0, Block(c))
  {
    assert At(p + rest, 0, p);
    ThreeAt(p + rest, 0, [], p, []);
  }

  lemma HiddenThenReading(s: Text, p: Text, t: Token, ts: seq<Token>)
    requires PartsOf(t) == Parts([], p, []) && Stands(s, 0, t) && Reads(s, |p|, ts)
    ensures Mask(s) == Blanks(p) + Show(ts)
  {
    TokenFirst(s, 0, t, ts);
    MaskShowsTheReading(s, [t] + ts);
    BlanksAlone(p);
  }

  lemma CommentThenReading(p: Text, t: Token, rest: Text, ts: seq<Token>)
    requires p != [] && p[|p| - 1] == SLASH && Reads(rest, 0, ts)
    requires PartsOf(t) == Parts([], p, []) && Stands(p + rest, 0, t)
    ensures Mask(p + rest) == Blanks(p) + Show(ts)
  {
    ReadsShifted(p, rest, 0, ts);
    assert |p| + 0 == |p|;
    HiddenThenReading(p + rest, p, t, ts);
  }

  /** The whole comment goes, however deep it nests, and what follows it is masked as if the text began
      there. */
  lemma AfterAComment(c: Inside, rest: Text)
    requires Balanced(c)
    ensures Mask(OPENER + Body(c) + rest) == Blanks(OPENER + Body(c)) + Mask(rest)
  {
    var ts := ReadingThere(rest, 0);
    MaskShowsTheReading(rest, ts);
    CommentStands(OPENER + Body(c), c, rest);
    CommentThenReading(OPENER + Body(c), Block(c), rest, ts);
  }

  lemma OpenCommentStands(rest: Text)
    requires NeverEnds(rest, 0)
    ensures Stands(OPENER + rest, 0, OpenBlock(rest))
  {
    var s := OPENER + rest;
    OpenBlockShifted(OPENER, rest, 0);
    assert At(s, 0, s);
    ThreeAt(s, 0, [], s, []);
  }

  /** A comment that nothing ends takes the rest of the text. */
  lemma CommentThatNeverEnds(rest: Text)
    requires NeverEnds(rest, 0)
    ensures Mask(OPENER + rest) == Blanks(OPENER + rest)
  {
    var s := OPENER + rest;
    OpenCommentStands(rest);
    TokenFirst(s, 0, OpenBlock(rest), []);
    MaskShowsTheReading(s, [OpenBlock(rest)] + []);
    BlanksAlone(s);
  }

  // ---- where the statement ends ----------------------------------------------------------------

  /** What is trimmed off a masked statement is semicolons and blanks, and all of them. */
  lemma OnlyBlanksAndSemicolonsGo(t: Text)
    ensures var k := TrimIndex(t);
            && (forall n :: k <= n < |t| ==> t[n] == SEMICOLON || t[n] in WHITESPACE)
            && (k > 0 ==> t[k - 1] != SEMICOLON && t[k - 1] !in WHITESPACE)
  {
    forall n | 0 <= n < |t| ensures IsTrimmed(t[n]) <==> t[n] == SEMICOLON || t[n] in WHITESPACE {
      Classes(t[n]);
    }
  }
}
