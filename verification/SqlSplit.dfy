/**
 * The splitter of SQL scripts: a one-pass scan with mode flags, against a
 * definition by tokens, and what splitting and joining do to each other.
 */
module SqlSplit {

  /** What the scan asks of characters and words; a semicolon is neither letter nor digit. */
  datatype Alphabet = Alphabet(letter: char -> bool, digit: char -> bool, space: char -> bool, upper: string -> string)

  predicate WordStart(abc: Alphabet, c: char) {
    (abc.letter(c) && c != ';') || c == '_'
  }

  predicate WordPart(abc: Alphabet, c: char) {
    ((abc.letter(c) || abc.digit(c)) && c != ';') || c == '_'
  }

  // ----- tokens

  datatype Mode = Plain | Line | Block | Quoted(quote: char)

  /** How far the next character takes an open comment or string, and whether that closes it. */
  function Consume(mode: Mode, s: string): (r: (nat, bool))
    requires mode != Plain && s != ""
    ensures 0 < r.0 <= |s|
  {
    match mode
    case Line => (1, s[0] == '\n')
    case Block => if |s| >= 2 && s[0] == '*' && s[1] == '/' then (2, true) else (1, false)
    case Quoted(q) => if s[0] != q then (1, false) else if |s| >= 2 && s[1] == q then (2, false) else (1, true)
  }

  /** How much of `s` still belongs to a comment or string that is open before it. */
  function RestLen(mode: Mode, s: string): (n: nat)
    requires mode != Plain
    ensures n <= |s| && (s != "" ==> n > 0)
    decreases |s|
  {
    if s == "" then 0
    else
      var (k, closed) := Consume(mode, s);
      if closed then k else k + RestLen(mode, s[k..])
  }

  function WordLen(abc: Alphabet, s: string): (n: nat)
    ensures n <= |s|
  {
    if s == "" || !WordPart(abc, s[0]) then 0 else 1 + WordLen(abc, s[1..])
  }

  /** The mode a token opens with, and how long its opening is. */
  function Opens(s: string): (r: (Mode, nat))
    requires s != ""
    ensures r.1 <= |s| && (r.0 != Plain <==> r.1 > 0)
  {
    if |s| >= 2 && s[0] == '-' && s[1] == '-' then (Line, 2)
    else if |s| >= 2 && s[0] == '/' && s[1] == '*' then (Block, 2)
    else if s[0] == '\'' then (Quoted('\''), 1)
    else if s[0] == '"' then (Quoted('"'), 1)
    else (Plain, 0)
  }

  /** The length of the first token: a comment, a string, a word, or one other character. */
  function TokenLen(abc: Alphabet, s: string): (n: nat)
    requires s != ""
    ensures 0 < n <= |s|
  {
    var (mode, opening) := Opens(s);
    if mode != Plain then opening + RestLen(mode, s[opening..])
    else if WordStart(abc, s[0]) then 1 + WordLen(abc, s[1..])
    else 1
  }

  /** Nesting of BEGIN ... END after a token. */
  function DepthAfter(abc: Alphabet, depth: nat, token: string): nat
    requires token != ""
  {
    if !WordStart(abc, token[0]) || Opens(token).0 != Plain then depth
    else if abc.upper(token) == "BEGIN" then depth + 1
    else if abc.upper(token) == "END" && depth > 0 then depth - 1
    else depth
  }

  // ----- pieces

  function Prepend(text: string, pieces: seq<string>): seq<string>
    requires pieces != []
  {
    [text + pieces[0]] + pieces[1..]
  }

  /** The text cut at every semicolon token outside BEGIN ... END. */
  function Pieces(abc: Alphabet, s: string, depth: nat): (pieces: seq<string>)
    ensures pieces != []
    decreases |s|
  {
    if s == "" then [""]
    else
      var n := TokenLen(abc, s);
      if s[..n] == ";" && depth == 0 then [""] + Pieces(abc, s[n..], 0)
      else Prepend(s[..n], Pieces(abc, s[n..], DepthAfter(abc, depth, s[..n])))
  }

  predicate Blank(abc: Alphabet, s: string) {
    forall i :: 0 <= i < |s| ==> abc.space(s[i])
  }

  function NonBlank(abc: Alphabet, pieces: seq<string>): seq<string> {
    if pieces == [] then []
    else (if Blank(abc, pieces[0]) then [] else [pieces[0]]) + NonBlank(abc, pieces[1..])
  }

  /** _split_sql_statements. */
  function Split(abc: Alphabet, s: string): seq<string> {
    NonBlank(abc, Pieces(abc, s, 0))
  }

  function Join(pieces: seq<string>): string {
    if pieces == [] then "" else if |pieces| == 1 then pieces[0] else pieces[0] + ";" + Join(pieces[1..])
  }

  // ----- the lexical definition the cuts are measured by

  function Tokens(abc: Alphabet, s: string): (tokens: seq<string>)
    ensures forall i :: 0 <= i < |tokens| ==> tokens[i] != ""
    decreases |s|
  {
    if s == "" then [] else [s[..TokenLen(abc, s)]] + Tokens(abc, s[TokenLen(abc, s)..])
  }

  function Nesting(abc: Alphabet, depth: nat, tokens: seq<string>): nat
    requires forall i :: 0 <= i < |tokens| ==> tokens[i] != ""
    decreases |tokens|
  {
    if tokens == [] then depth else Nesting(abc, DepthAfter(abc, depth, tokens[0]), tokens[1..])
  }

  function Total(tokens: seq<string>): nat {
    if tokens == [] then 0 else |tokens[0]| + Total(tokens[1..])
  }

  /** Token `i` is a semicolon outside every BEGIN ... END. */
  ghost predicate TopLevel(abc: Alphabet, tokens: seq<string>, depth: nat, i: nat)
    requires forall k :: 0 <= k < |tokens| ==> tokens[k] != ""
  {
    i < |tokens| && tokens[i] == ";" && Nesting(abc, depth, tokens[..i]) == 0
  }

  /** A comment ends at its first closing mark, or with the text. */
  lemma {:induction false} RestEnds(mode: Mode, s: string)
    requires mode == Line || mode == Block
    ensures
      var n := RestLen(mode, s);
      if mode == Line then
        (forall i :: 0 <= i < n - 1 ==> s[i] != '\n') && (n == |s| || (n > 0 && s[n - 1] == '\n'))
      else
        (forall i :: 0 <= i < n - 2 ==> !(s[i] == '*' && s[i + 1] == '/')) &&
        (n == |s| || (n > 1 && s[n - 2] == '*' && s[n - 1] == '/'))
  {
    if s != "" && !Consume(mode, s).1 {
      RestEnds(mode, s[1..]);
    }
  }

  /** The quotes right before position `i`. */
  function QuotesBefore(q: char, s: string, i: nat): (n: nat)
    requires i <= |s|
  {
    if i == 0 || s[i - 1] != q then 0 else QuotesBefore(q, s, i - 1) + 1
  }

  /** The quote at position `i` is the last of a run of odd length: doubled quotes paired off, it stands alone. */
  ghost predicate Unpaired(q: char, s: string, i: nat)
    requires i < |s|
  {
    s[i] == q && (i + 1 == |s| || s[i + 1] != q) && QuotesBefore(q, s, i) % 2 == 0
  }

  /** Dropping an ordinary character, or a doubled quote, pairs the later quotes as before. */
  lemma {:induction false} PairsStay(q: char, s: string, k: nat, i: nat)
    requires k + i <= |s| && ((k == 1 && s[0] != q) || (k == 2 && s[0] == q && s[1] == q))
    ensures QuotesBefore(q, s, k + i) % 2 == QuotesBefore(q, s[k..], i) % 2
  {
    if i == 0 {
      assert k == 2 ==> QuotesBefore(q, s, 1) == 1 && QuotesBefore(q, s, 2) == 2;
    } else {
      PairsStay(q, s, k, i - 1);
    }
  }

  lemma UnpairedStays(q: char, s: string, k: nat, i: nat)
    requires k + i < |s| && ((k == 1 && s[0] != q) || (k == 2 && s[0] == q && s[1] == q))
    ensures Unpaired(q, s, k + i) <==> Unpaired(q, s[k..], i)
  {
    PairsStay(q, s, k, i);
  }

  /** What the next step of an open string consumes holds no unpaired quote, and the rest pairs up as before. */
  lemma QuotedStep(q: char, s: string, k: nat, i: nat)
    requires s != "" && Consume(Quoted(q), s) == (k, false) && i < |s|
    ensures i < k ==> !Unpaired(q, s, i)
    ensures i >= k ==> (Unpaired(q, s, i) <==> Unpaired(q, s[k..], i - k))
  {
    if i < k {
      assert QuotesBefore(q, s, 0) == 0;
      assert i == 1 ==> QuotesBefore(q, s, 1) == 1;
    } else {
      UnpairedStays(q, s, k, i - k);
    }
  }

  ghost predicate HasUnpaired(q: char, s: string) {
    exists i :: 0 <= i < |s| && Unpaired(q, s, i)
  }

  /** The first `n` characters reach the first unpaired quote, or are all there is. */
  ghost predicate EndsUnpaired(q: char, s: string, n: nat) {
    && n <= |s| && (forall i :: 0 <= i < n - 1 ==> !Unpaired(q, s, i))
    && (if HasUnpaired(q, s) then n > 0 && Unpaired(q, s, n - 1) else n == |s|)
  }

  lemma QuotedShift(q: char, s: string, k: nat, n: nat)
    requires s != "" && Consume(Quoted(q), s) == (k, false) && EndsUnpaired(q, s[k..], n)
    ensures EndsUnpaired(q, s, k + n)
  {
    hide Unpaired, Consume;
    var rest := s[k..];
    forall i | 0 <= i < |s|
      ensures i < k ==> !Unpaired(q, s, i)
      ensures i >= k ==> (Unpaired(q, s, i) <==> Unpaired(q, rest, i - k))
    {
      QuotedStep(q, s, k, i);
    }
    if HasUnpaired(q, s) {
      var i :| 0 <= i < |s| && Unpaired(q, s, i);
      assert Unpaired(q, rest, i - k);
    }
    assert forall i :: 0 <= i < |rest| ==> (Unpaired(q, rest, i) <==> Unpaired(q, s, k + i));
  }

  /** A quoted string or name ends at its first unpaired quote, or with the text. */
  lemma {:induction false} QuotedEnds(q: char, s: string)
    ensures EndsUnpaired(q, s, RestLen(Quoted(q), s))
    decreases |s|
  {
    if s != "" {
      var (k, closed) := Consume(Quoted(q), s);
      if closed {
        AloneUnpaired(q, s);
      } else {
        hide Unpaired, EndsUnpaired;
        QuotedEnds(q, s[k..]);
        QuotedShift(q, s, k, RestLen(Quoted(q), s[k..]));
      }
    }
  }

  lemma AloneUnpaired(q: char, s: string)
    requires s != "" && Consume(Quoted(q), s) == (1, true)
    ensures Unpaired(q, s, 0)
  {
  }

  /** Where the pieces end. */
  function Ends(pieces: seq<string>, from: nat): seq<nat> {
    if |pieces| <= 1 then [] else [from + |pieces[0]|] + Ends(pieces[1..], from + |pieces[0]| + 1)
  }

  lemma EndsPrepend(text: string, pieces: seq<string>, from: nat)
    requires pieces != []
    ensures Ends(Prepend(text, pieces), from) == Ends(pieces, from + |text|)
  {
    assert Prepend(text, pieces)[1..] == pieces[1..];
  }

  ghost predicate CutAt(abc: Alphabet, tokens: seq<string>, depth: nat, from: nat, p: nat)
    requires forall k :: 0 <= k < |tokens| ==> tokens[k] != ""
  {
    exists i: nat :: TopLevel(abc, tokens, depth, i) && p == from + Total(tokens[..i])
  }

  /** Stepping over the first token. */
  lemma CutAfter(abc: Alphabet, tokens: seq<string>, depth: nat, from: nat, p: nat)
    requires tokens != [] && forall k :: 0 <= k < |tokens| ==> tokens[k] != ""
    ensures CutAt(abc, tokens, depth, from, p) <==>
      (tokens[0] == ";" && depth == 0 && p == from) ||
      CutAt(abc, tokens[1..], DepthAfter(abc, depth, tokens[0]), from + |tokens[0]|, p)
  {
    hide DepthAfter;
    var rest, depth', from' := tokens[1..], DepthAfter(abc, depth, tokens[0]), from + |tokens[0]|;
    if CutAt(abc, tokens, depth, from, p) {
      var i: nat :| TopLevel(abc, tokens, depth, i) && p == from + Total(tokens[..i]);
      if i > 0 {
        assert tokens[..i][1..] == rest[..i - 1];
        assert TopLevel(abc, rest, depth', i - 1);
      }
    }
    if tokens[0] == ";" && depth == 0 && p == from {
      assert TopLevel(abc, tokens, depth, 0);
    }
    if CutAt(abc, rest, depth', from', p) {
      var i: nat :| TopLevel(abc, rest, depth', i) && p == from' + Total(rest[..i]);
      assert tokens[..i + 1][1..] == rest[..i];
      assert TopLevel(abc, tokens, depth, i + 1);
    }
  }

  /** The pieces of a text that starts with a top-level semicolon. */
  lemma PiecesAtCut(abc: Alphabet, s: string)
    requires s != "" && s[..TokenLen(abc, s)] == ";"
    ensures Pieces(abc, s, 0) == [""] + Pieces(abc, s[1..], 0) && TokenLen(abc, s) == 1
  {
    assert |s[..TokenLen(abc, s)]| == 1;
    hide TokenLen;
  }

  /** The pieces of an ordinary token and a text. */
  lemma OneMoreToken(abc: Alphabet, u: string, depth: nat, n: nat, t: string, rest: string)
    requires u == t + rest && u != "" && TokenLen(abc, u) == n == |t| && !(t == ";" && depth == 0)
    ensures Pieces(abc, u, depth) == Prepend(t, Pieces(abc, rest, DepthAfter(abc, depth, t)))
  {
    hide TokenLen, DepthAfter;
    assert u[..n] == t && u[n..] == rest;
  }

  lemma EndsAtCut(rest: seq<string>, from: nat, p: nat)
    requires rest != []
    ensures p in Ends([""] + rest, from) <==> p == from || p in Ends(rest, from + 1)
  {
    assert ([""] + rest)[1..] == rest;
    assert Ends([""] + rest, from) == [from] + Ends(rest, from + 1);
  }

  lemma SemicolonDepth(abc: Alphabet)
    ensures DepthAfter(abc, 0, ";") == 0
  {
  }

  /** One token further, in the pieces and in their ends. */
  lemma EndsStep(abc: Alphabet, s: string, depth: nat, from: nat, p: nat)
    requires s != ""
    ensures
      var n := TokenLen(abc, s);
      var depth' := DepthAfter(abc, depth, s[..n]);
      p in Ends(Pieces(abc, s, depth), from) <==>
        (s[..n] == ";" && depth == 0 && p == from) || p in Ends(Pieces(abc, s[n..], depth'), from + n)
  {
    hide TokenLen, DepthAfter, Pieces, Ends;
    var n := TokenLen(abc, s);
    var t, rest := s[..n], s[n..];
    var depth' := DepthAfter(abc, depth, t);
    if t == ";" && depth == 0 {
      PiecesAtCut(abc, s);
      SemicolonDepth(abc);
      EndsAtCut(Pieces(abc, rest, 0), from, p);
    } else {
      OneMoreToken(abc, s, depth, n, t, rest);
      EndsPrepend(t, Pieces(abc, rest, depth'), from);
    }
  }

  /** The cuts fall exactly at the top-level semicolons. */
  lemma {:induction false} PiecesEndAtTopLevel(abc: Alphabet, s: string, depth: nat, from: nat, p: nat)
    ensures p in Ends(Pieces(abc, s, depth), from) <==> CutAt(abc, Tokens(abc, s), depth, from, p)
    decreases |s|
  {
    hide TokenLen, DepthAfter, CutAt, Pieces, Ends, Tokens;
    if s == "" {
      NoCuts(abc, depth, from, p);
    } else {
      var n := TokenLen(abc, s);
      FirstToken(abc, s);
      CutAfter(abc, Tokens(abc, s), depth, from, p);
      EndsStep(abc, s, depth, from, p);
      PiecesEndAtTopLevel(abc, s[n..], DepthAfter(abc, depth, s[..n]), from + n, p);
    }
  }

  lemma FirstToken(abc: Alphabet, s: string)
    requires s != ""
    ensures
      var n := TokenLen(abc, s);
      Tokens(abc, s) != [] && Tokens(abc, s)[0] == s[..n] && Tokens(abc, s)[1..] == Tokens(abc, s[n..])
  {
    hide TokenLen;
  }

  lemma NoCuts(abc: Alphabet, depth: nat, from: nat, p: nat)
    ensures Ends(Pieces(abc, "", depth), from) == [] && Tokens(abc, "") == [] && !CutAt(abc, [], depth, from, p)
  {
  }

  lemma JoinPrepend(text: string, pieces: seq<string>)
    requires pieces != []
    ensures Join(Prepend(text, pieces)) == text + Join(pieces)
  {
    var r := Prepend(text, pieces);
    assert r[1..] == pieces[1..];
    if |pieces| > 1 {
      assert r[0] + ";" + Join(r[1..]) == text + (pieces[0] + ";" + Join(pieces[1..]));
    }
  }

  /** Rejoined with semicolons, the pieces are the input. */
  lemma {:induction false} PiecesRejoin(abc: Alphabet, s: string, depth: nat)
    ensures Join(Pieces(abc, s, depth)) == s
    decreases |s|
  {
    if s != "" {
      var n := TokenLen(abc, s);
      assert s == s[..n] + s[n..];
      if s[..n] == ";" && depth == 0 {
        PiecesRejoin(abc, s[n..], 0);
        var rest := Pieces(abc, s[n..], 0);
        assert ([""] + rest)[1..] == rest;
        assert "" + ";" + Join(rest) == s;
      } else {
        PiecesRejoin(abc, s[n..], DepthAfter(abc, depth, s[..n]));
        JoinPrepend(s[..n], Pieces(abc, s[n..], DepthAfter(abc, depth, s[..n])));
      }
    }
  }

  // ----- a token does not see far

  /** A text that agrees with `s` on the first `n` characters and one more. */
  predicate Agrees(s: string, u: string, n: nat) {
    n < |s| && n < |u| && s[..n + 1] == u[..n + 1]
  }

  lemma {:induction false} RestLenLocal(mode: Mode, s: string, u: string)
    requires mode != Plain && Agrees(s, u, RestLen(mode, s))
    ensures RestLen(mode, u) == RestLen(mode, s)
    decreases |s|
  {
    var n := RestLen(mode, s);
    assert forall i :: 0 <= i <= n ==> s[i] == s[..n + 1][i] == u[i];
    var (k, closed) := Consume(mode, s);
    assert Consume(mode, u) == (k, closed);
    if !closed {
      assert s[k..][..n + 1 - k] == s[..n + 1][k..] && u[k..][..n + 1 - k] == u[..n + 1][k..];
      RestLenLocal(mode, s[k..], u[k..]);
    }
  }

  lemma {:induction false} RestLenPrefix(mode: Mode, s: string)
    requires mode != Plain
    ensures RestLen(mode, s[..RestLen(mode, s)]) == RestLen(mode, s)
    decreases |s|
  {
    var n := RestLen(mode, s);
    if s != "" {
      var (k, closed) := Consume(mode, s);
      assert Consume(mode, s[..n]) == (k, closed);
      if !closed {
        RestLenPrefix(mode, s[k..]);
        assert s[..n][k..] == s[k..][..n - k];
      }
    }
  }

  lemma {:induction false} WordLenLocal(abc: Alphabet, s: string, u: string)
    requires Agrees(s, u, WordLen(abc, s))
    ensures WordLen(abc, u) == WordLen(abc, s)
  {
    var n := WordLen(abc, s);
    assert forall i :: 0 <= i <= n ==> s[i] == s[..n + 1][i] == u[i];
    if n > 0 {
      assert s[1..][..n] == s[..n + 1][1..] && u[1..][..n] == u[..n + 1][1..];
      WordLenLocal(abc, s[1..], u[1..]);
    }
  }

  lemma {:induction false} WordLenPrefix(abc: Alphabet, s: string)
    ensures WordLen(abc, s[..WordLen(abc, s)]) == WordLen(abc, s)
  {
    var n := WordLen(abc, s);
    if n > 0 {
      WordLenPrefix(abc, s[1..]);
      assert s[..n][1..] == s[1..][..n - 1];
    }
  }

  lemma TokenLenLocal(abc: Alphabet, s: string, u: string)
    requires s != "" && Agrees(s, u, TokenLen(abc, s))
    ensures TokenLen(abc, u) == TokenLen(abc, s)
  {
    var n := TokenLen(abc, s);
    assert forall i :: 0 <= i <= n ==> s[i] == s[..n + 1][i] == u[i];
    assert Opens(u) == Opens(s);
    var (mode, opening) := Opens(s);
    if mode != Plain {
      assert s[opening..][..n + 1 - opening] == s[..n + 1][opening..] &&
        u[opening..][..n + 1 - opening] == u[..n + 1][opening..];
      RestLenLocal(mode, s[opening..], u[opening..]);
    } else if WordStart(abc, s[0]) {
      assert s[1..][..n] == s[..n + 1][1..] && u[1..][..n] == u[..n + 1][1..];
      WordLenLocal(abc, s[1..], u[1..]);
    }
  }

  /** A token by itself is one token. */
  lemma TokenLenPrefix(abc: Alphabet, s: string)
    requires s != ""
    ensures TokenLen(abc, s[..TokenLen(abc, s)]) == TokenLen(abc, s)
  {
    var n := TokenLen(abc, s);
    var t := s[..n];
    var (mode, opening) := Opens(s);
    OpensPrefix(abc, s);
    hide Opens, RestLen, WordLen, WordStart;
    if mode != Plain {
      Within(s, opening, n);
      RestLenPrefix(mode, s[opening..]);
    } else if WordStart(abc, s[0]) {
      Within(s, 1, n);
      WordLenPrefix(abc, s[1..]);
    }
  }

  lemma OpensPrefix(abc: Alphabet, s: string)
    requires s != ""
    ensures var t := s[..TokenLen(abc, s)]; Opens(t) == Opens(s) && t[0] == s[0]
  {
  }

  lemma Within(s: string, k: nat, n: nat)
    requires k <= n <= |s|
    ensures s[..n][k..] == s[k..][..n - k]
  {
  }

  // ----- a piece by itself, and before another

  /** Cut off at a semicolon after it, whatever follows. */
  ghost predicate Closing(abc: Alphabet, piece: string, depth: nat) {
    forall r: string :: Pieces(abc, piece + ";" + r, depth) == [piece] + Pieces(abc, r, 0)
  }

  lemma SemicolonFirst(abc: Alphabet)
    ensures Closing(abc, "", 0)
  {
    forall r: string ensures Pieces(abc, "" + ";" + r, 0) == [""] + Pieces(abc, r, 0) {
      var u := "" + ";" + r;
      assert Opens(u).0 == Plain && TokenLen(abc, u) == 1;
      assert u[..1] == ";" && u[1..] == r;
    }
  }

  /** A token in front of a piece that stands by itself. */
  lemma AloneStep(abc: Alphabet, s: string, depth: nat, t: string, piece: string)
    requires t != "" && t + piece + ";" <= s && TokenLen(abc, s) == |t| && !(t == ";" && depth == 0)
    requires Pieces(abc, piece, DepthAfter(abc, depth, t)) == [piece]
    ensures Pieces(abc, t + piece, depth) == [t + piece]
  {
    assert s[..|t|] == t;
    if piece == "" {
      TokenLenPrefix(abc, s);
      assert t + piece == t;
    } else {
      SharedStart(s, t + piece, t + piece, |t|);
      TokenLenLocal(abc, s, t + piece);
    }
    hide TokenLen, DepthAfter, Agrees, Pieces;
    OneMoreToken(abc, t + piece, depth, |t|, t, piece);
  }

  /** A token in front of a closing piece. */
  lemma ClosingStep(abc: Alphabet, s: string, depth: nat, t: string, piece: string, r: string)
    requires t != "" && t + piece + ";" <= s && TokenLen(abc, s) == |t| && !(t == ";" && depth == 0)
    requires Pieces(abc, piece + ";" + r, DepthAfter(abc, depth, t)) == [piece] + Pieces(abc, r, 0)
    ensures Pieces(abc, t + piece + ";" + r, depth) == [t + piece] + Pieces(abc, r, 0)
  {
    var u, tail := t + piece + ";" + r, piece + ";" + r;
    SharedStart(s, u, t + piece + ";", |t|);
    TokenLenLocal(abc, s, u);
    Regroup(t, piece + ";", r);
    Regroup(t, piece, ";");
    hide TokenLen, DepthAfter, Agrees, Pieces, Prepend;
    OneMoreToken(abc, u, depth, |t|, t, tail);
    PrependTo(t, piece, Pieces(abc, r, 0));
  }

  lemma Regroup(a: string, b: string, c: string)
    ensures a + b + c == a + (b + c)
  {
  }

  lemma PrependTo(text: string, first: string, rest: seq<string>)
    ensures Prepend(text, [first] + rest) == [text + first] + rest
  {
    assert ([first] + rest)[1..] == rest;
  }

  lemma SharedStart(s: string, u: string, start: string, n: nat)
    requires start <= s && start <= u && n < |start|
    ensures Agrees(s, u, n)
  {
    assert s[..n + 1] == start[..n + 1] == u[..n + 1];
  }

  /** What is known of the first piece when there are several. */
  ghost predicate FirstCloses(abc: Alphabet, s: string, depth: nat, pieces: seq<string>)
    requires pieces != []
  {
    && pieces[0] + ";" <= s && pieces[1..] == Pieces(abc, s[|pieces[0]| + 1..], 0)
    && Closing(abc, pieces[0], depth) && Pieces(abc, pieces[0], depth) == [pieces[0]]
  }

  lemma FirstIsEmpty(abc: Alphabet, s: string)
    requires s != "" && s[..TokenLen(abc, s)] == ";"
    ensures FirstCloses(abc, s, 0, Pieces(abc, s, 0))
  {
    SemicolonFirst(abc);
    PiecesAtCut(abc, s);
    NothingPieces(abc);
    hide TokenLen, Pieces;
    assert s[..1] == ";";
  }

  lemma FirstGrows(abc: Alphabet, s: string, depth: nat, t: string, rest: string)
    requires t != "" && s == t + rest && TokenLen(abc, s) == |t| && !(t == ";" && depth == 0)
    requires FirstCloses(abc, rest, DepthAfter(abc, depth, t), Pieces(abc, rest, DepthAfter(abc, depth, t)))
    ensures FirstCloses(abc, s, depth, Pieces(abc, s, depth))
  {
    hide TokenLen, DepthAfter, Pieces;
    var after := Pieces(abc, rest, DepthAfter(abc, depth, t));
    OneMoreToken(abc, s, depth, |t|, t, rest);
    var pieces := Pieces(abc, s, depth);
    assert pieces[0] == t + after[0] && pieces[1..] == after[1..];
    assert t + after[0] + ";" <= s;
    assert rest[|after[0]| + 1..] == s[|pieces[0]| + 1..];
    AloneStep(abc, s, depth, t, after[0]);
    forall r: string ensures Pieces(abc, pieces[0] + ";" + r, depth) == [pieces[0]] + Pieces(abc, r, 0) {
      ClosingStep(abc, s, depth, t, after[0], r);
    }
  }

  /** The first piece of several closes, stands by itself, and is followed by the pieces of the rest. */
  lemma {:induction false} FirstPiece(abc: Alphabet, s: string, depth: nat)
    requires |Pieces(abc, s, depth)| > 1
    ensures FirstCloses(abc, s, depth, Pieces(abc, s, depth))
    decreases |s|
  {
    hide FirstCloses;
    var n := TokenLen(abc, s);
    if s[..n] == ";" && depth == 0 {
      FirstIsEmpty(abc, s);
    } else {
      FirstPiece(abc, s[n..], DepthAfter(abc, depth, s[..n]));
      FirstGrows(abc, s, depth, s[..n], s[n..]);
    }
  }

  lemma {:induction false} NonBlankAgain(abc: Alphabet, pieces: seq<string>)
    ensures NonBlank(abc, NonBlank(abc, pieces)) == NonBlank(abc, pieces)
  {
    hide Blank;
    if pieces != [] {
      NonBlankAgain(abc, pieces[1..]);
      var kept, rest := NonBlank(abc, pieces), NonBlank(abc, pieces[1..]);
      if Blank(abc, pieces[0]) {
        assert kept == rest;
      } else {
        assert kept == [pieces[0]] + rest && kept[1..] == rest;
      }
    }
  }

  /** Joining the statements kept gives exactly their pieces back. */
  lemma {:induction false} KeptPieces(abc: Alphabet, s: string)
    ensures
      var kept := Split(abc, s);
      Pieces(abc, Join(kept), 0) == if kept == [] then [""] else kept
    decreases |s|
  {
    var pieces := Pieces(abc, s, 0);
    if |pieces| == 1 {
      PiecesRejoin(abc, s, 0);
      hide Blank, TokenLen, DepthAfter;
      assert pieces == [s] && pieces[1..] == [];
      assert NonBlank(abc, pieces) == if Blank(abc, s) then [] else [s];
    } else {
      FirstPiece(abc, s, 0);
      hide Blank, Pieces;
      var rest := s[|pieces[0]| + 1..];
      KeptPieces(abc, rest);
      KeptStep(abc, pieces[0], Split(abc, rest));
      assert Split(abc, s) == (if Blank(abc, pieces[0]) then [] else [pieces[0]]) + Split(abc, rest);
      NothingPieces(abc);
    }
  }

  lemma NothingPieces(abc: Alphabet)
    ensures Pieces(abc, "", 0) == [""] && Join([]) == ""
  {
  }

  lemma KeptStep(abc: Alphabet, first: string, kept: seq<string>)
    requires Closing(abc, first, 0) && Pieces(abc, first, 0) == [first]
    requires Pieces(abc, Join(kept), 0) == if kept == [] then [""] else kept
    ensures Pieces(abc, Join([first] + kept), 0) == [first] + kept
    ensures [] + kept == kept
  {
    hide Pieces;
    if kept == [] {
      assert [first] + kept == [first];
    } else {
      assert ([first] + kept)[1..] == kept;
      assert Join([first] + kept) == first + ";" + Join(kept);
    }
  }

  /** Splitting what was split and joined changes nothing. */
  lemma SplitJoinSplit(abc: Alphabet, s: string)
    ensures Split(abc, Join(Split(abc, s))) == Split(abc, s)
  {
    KeptPieces(abc, s);
    NonBlankAgain(abc, Pieces(abc, s, 0));
    if Split(abc, s) == [] {
      assert [""][1..] == [];
      assert Blank(abc, "");
    }
  }

  // ----- the scan

  /** The pieces of what follows inside an open comment or string. */
  function PiecesIn(abc: Alphabet, mode: Mode, s: string, depth: nat): (pieces: seq<string>)
    ensures pieces != []
  {
    if mode == Plain then Pieces(abc, s, depth)
    else Prepend(s[..RestLen(mode, s)], Pieces(abc, s[RestLen(mode, s)..], depth))
  }

  lemma PrependTwice(a: string, b: string, pieces: seq<string>)
    requires pieces != []
    ensures Prepend(a, Prepend(b, pieces)) == Prepend(a + b, pieces)
  {
    assert Prepend(b, pieces)[1..] == pieces[1..];
    assert a + (b + pieces[0]) == a + b + pieces[0];
  }

  lemma PrependNothing(pieces: seq<string>)
    requires pieces != []
    ensures Prepend("", pieces) == pieces
  {
    assert "" + pieces[0] == pieces[0];
  }

  /** One character, or one doubled mark, further inside a comment or string. */
  lemma StepInside(abc: Alphabet, mode: Mode, s: string, depth: nat)
    requires mode != Plain && s != ""
    ensures
      var (k, closed) := Consume(mode, s);
      PiecesIn(abc, mode, s, depth) == Prepend(s[..k], PiecesIn(abc, if closed then Plain else mode, s[k..], depth))
  {
    var (k, closed) := Consume(mode, s);
    var n := RestLen(mode, s);
    RestStep(mode, s);
    hide Pieces, Consume, RestLen, Prepend;
    if closed {
      assert s[..n] == s[..k];
    } else {
      Slices(s, k, n - k);
      Front(s, k, n);
      PrependTwice(s[..k], s[k..][..n - k], Pieces(abc, s[n..], depth));
    }
  }

  lemma RestStep(mode: Mode, s: string)
    requires mode != Plain && s != ""
    ensures
      var (k, closed) := Consume(mode, s);
      RestLen(mode, s) == if closed then k else k + RestLen(mode, s[k..])
  {
  }

  /** Entering a comment or string. */
  lemma StepOpening(abc: Alphabet, s: string, depth: nat)
    requires s != "" && Opens(s).0 != Plain
    ensures
      var (mode, opening) := Opens(s);
      Pieces(abc, s, depth) == Prepend(s[..opening], PiecesIn(abc, mode, s[opening..], depth))
  {
    hide TokenLen, DepthAfter, RestLen, Opens, Pieces, Prepend;
    var (mode, opening) := Opens(s);
    var n := TokenLen(abc, s);
    OpeningToken(abc, s, depth);
    OneMoreToken(abc, s, depth, n, s[..n], s[n..]);
    Slices(s, opening, n - opening);
    Front(s, opening, n);
    PrependTwice(s[..opening], s[opening..][..n - opening], Pieces(abc, s[n..], depth));
  }

  lemma Front(s: string, k: nat, n: nat)
    requires k <= n <= |s|
    ensures s[..k] + s[k..][..n - k] == s[..n] && s == s[..n] + s[n..]
  {
  }

  /** A comment or string is a token that leaves the nesting alone. */
  lemma OpeningToken(abc: Alphabet, s: string, depth: nat)
    requires s != "" && Opens(s).0 != Plain
    ensures
      var (mode, opening) := Opens(s);
      var n := TokenLen(abc, s);
      && 0 < opening <= n && n == opening + RestLen(mode, s[opening..]) && DepthAfter(abc, depth, s[..n]) == depth
      && s[..n] != ";"
  {
    assert Opens(s[..TokenLen(abc, s)]).0 == Opens(s).0;
    assert s[..TokenLen(abc, s)][0] == s[0];
  }

  /** A semicolon that ends a statement. */
  lemma StepCut(abc: Alphabet, s: string, statements: seq<string>, chunk: string)
    requires s != "" && s[0] == ';'
    ensures statements + Prepend(chunk, Pieces(abc, s, 0)) == statements + [chunk] + Prepend("", Pieces(abc, s[1..], 0))
  {
    assert TokenLen(abc, s) == 1 && s[..1] == ";";
    PiecesAtCut(abc, s);
    PrependNothing(Pieces(abc, s[1..], 0));
    hide Pieces;
    PrependTo(chunk, "", Pieces(abc, s[1..], 0));
    assert chunk + "" == chunk;
  }

  /** A word, or any other character. */
  lemma StepToken(abc: Alphabet, s: string, depth: nat, n: nat)
    requires s != "" && Opens(s).0 == Plain && !(s[0] == ';' && depth == 0)
    requires n == if WordStart(abc, s[0]) then 1 + WordLen(abc, s[1..]) else 1
    ensures
      var depth' := if !WordStart(abc, s[0]) then depth
        else if abc.upper(s[..n]) == "BEGIN" then depth + 1
        else if abc.upper(s[..n]) == "END" && depth > 0 then depth - 1 else depth;
      Pieces(abc, s, depth) == Prepend(s[..n], Pieces(abc, s[n..], depth'))
  {
    assert TokenLen(abc, s) == n;
    assert Opens(s[..n]).0 == Plain;
    OneMoreToken(abc, s, depth, n, s[..n], s[n..]);
  }

  ghost function ModeOf(inLine: bool, inBlock: bool, inSingle: bool, inDouble: bool): Mode {
    if inLine then Line else if inBlock then Block else if inSingle then Quoted('\'') else if inDouble
      then Quoted('"') else Plain
  }

  /** What the scan has still to do, given what it holds. */
  ghost predicate Scanned(abc: Alphabet, sql: string, statements: seq<string>, chunk: string, mode: Mode, pos: nat,
                          depth: nat)
    requires pos <= |sql|
  {
    Pieces(abc, sql, 0) == statements + Prepend(chunk, PiecesIn(abc, mode, sql[pos..], depth))
  }

  /** Taking `k` characters into the chunk. */
  lemma ScannedFurther(abc: Alphabet, sql: string, statements: seq<string>, chunk: string, mode: Mode, pos: nat,
                       depth: nat, k: nat, mode': Mode, depth': nat)
    requires pos + k <= |sql| && Scanned(abc, sql, statements, chunk, mode, pos, depth)
    requires PiecesIn(abc, mode, sql[pos..], depth) ==
      Prepend(sql[pos..pos + k], PiecesIn(abc, mode', sql[pos + k..], depth'))
    ensures Scanned(abc, sql, statements, chunk + sql[pos..pos + k], mode', pos + k, depth')
  {
    hide PiecesIn, Pieces, Prepend;
    PrependTwice(chunk, sql[pos..pos + k], PiecesIn(abc, mode', sql[pos + k..], depth'));
  }

  lemma ScannedNothing(abc: Alphabet, sql: string)
    ensures Scanned(abc, sql, [], "", Plain, 0, 0)
  {
    hide Pieces;
    assert sql[0..] == sql;
    PrependNothing(Pieces(abc, sql, 0));
  }

  lemma NothingInside(abc: Alphabet, mode: Mode, depth: nat)
    ensures PiecesIn(abc, mode, "", depth) == [""]
  {
    assert Pieces(abc, "", depth) == [""];
    if mode != Plain {
      assert RestLen(mode, "") == 0;
      assert ""[..0] == "" && ""[0..] == "";
      PrependNothing([""]);
    }
  }

  lemma ScannedAll(abc: Alphabet, sql: string, statements: seq<string>, chunk: string, mode: Mode, depth: nat)
    requires Scanned(abc, sql, statements, chunk, mode, |sql|, depth)
    ensures Pieces(abc, sql, 0) == statements + [chunk]
  {
    assert sql[|sql|..] == "";
    NothingInside(abc, mode, depth);
    hide PiecesIn, Pieces;
    assert chunk + "" == chunk;
  }

  lemma Slices(sql: string, pos: nat, k: nat)
    requires pos + k <= |sql|
    ensures sql[pos..][..k] == sql[pos..pos + k] && sql[pos..][k..] == sql[pos + k..]
  {
  }

  lemma ScannedInside(abc: Alphabet, sql: string, statements: seq<string>, chunk: string, mode: Mode, pos: nat,
                      depth: nat)
    requires pos < |sql| && mode != Plain && Scanned(abc, sql, statements, chunk, mode, pos, depth)
    ensures
      var (k, closed) := Consume(mode, sql[pos..]);
      Scanned(abc, sql, statements, chunk + sql[pos..pos + k], if closed then Plain else mode, pos + k, depth)
  {
    hide PiecesIn, Pieces, Scanned, Consume, RestLen, Prepend;
    var s := sql[pos..];
    var (k, closed) := Consume(mode, s);
    StepInside(abc, mode, s, depth);
    Slices(sql, pos, k);
    ScannedFurther(abc, sql, statements, chunk, mode, pos, depth, k, if closed then Plain else mode, depth);
  }

  lemma ScannedOpening(abc: Alphabet, sql: string, statements: seq<string>, chunk: string, pos: nat, depth: nat)
    requires pos < |sql| && Opens(sql[pos..]).0 != Plain && Scanned(abc, sql, statements, chunk, Plain, pos, depth)
    ensures
      var (mode, k) := Opens(sql[pos..]);
      Scanned(abc, sql, statements, chunk + sql[pos..pos + k], mode, pos + k, depth)
  {
    hide PiecesIn, Pieces, Scanned, Opens, RestLen, Prepend;
    var s := sql[pos..];
    var (mode, k) := Opens(s);
    PlainPieces(abc, s, depth);
    StepOpening(abc, s, depth);
    Slices(sql, pos, k);
    ScannedFurther(abc, sql, statements, chunk, Plain, pos, depth, k, mode, depth);
  }

  lemma PlainPieces(abc: Alphabet, s: string, depth: nat)
    ensures PiecesIn(abc, Plain, s, depth) == Pieces(abc, s, depth)
  {
  }

  lemma ScannedCut(abc: Alphabet, sql: string, statements: seq<string>, chunk: string, pos: nat)
    requires pos < |sql| && sql[pos] == ';' && Scanned(abc, sql, statements, chunk, Plain, pos, 0)
    ensures Scanned(abc, sql, statements + [chunk], "", Plain, pos + 1, 0)
  {
    StepCut(abc, sql[pos..], statements, chunk);
    assert sql[pos..][1..] == sql[pos + 1..];
  }

  lemma ScannedToken(abc: Alphabet, sql: string, statements: seq<string>, chunk: string, pos: nat, depth: nat, n: nat)
    requires pos < |sql| && Opens(sql[pos..]).0 == Plain && !(sql[pos] == ';' && depth == 0)
    requires Scanned(abc, sql, statements, chunk, Plain, pos, depth)
    requires n == if WordStart(abc, sql[pos]) then 1 + WordLen(abc, sql[pos + 1..]) else 1
    ensures
      var word := sql[pos..pos + n];
      var depth' := if !WordStart(abc, sql[pos]) then depth
        else if abc.upper(word) == "BEGIN" then depth + 1
        else if abc.upper(word) == "END" && depth > 0 then depth - 1 else depth;
      Scanned(abc, sql, statements, chunk + word, Plain, pos + n, depth')
  {
    hide PiecesIn, Pieces, Scanned, WordLen, Opens, Prepend, WordStart;
    var s, word := sql[pos..], sql[pos..pos + n];
    Slices(sql, pos, 1);
    assert s[0] == sql[pos];
    StepToken(abc, s, depth, n);
    Slices(sql, pos, n);
    var depth' := if !WordStart(abc, sql[pos]) then depth
      else if abc.upper(word) == "BEGIN" then depth + 1
      else if abc.upper(word) == "END" && depth > 0 then depth - 1 else depth;
    PlainPieces(abc, s, depth);
    PlainPieces(abc, sql[pos + n..], depth');
    ScannedFurther(abc, sql, statements, chunk, Plain, pos, depth, n, Plain, depth');
  }

  /** The scan of _split_sql_statements with its four flags. */
  method SplitSqlStatements(abc: Alphabet, sql: string) returns (kept: seq<string>)
    ensures kept == Split(abc, sql)
  {
    hide Pieces, PiecesIn, RestLen, WordLen, Scanned, WordStart;
    var statements: seq<string>, chunk := [], "";
    var depth, pos := 0, 0;
    var inLine, inBlock, inSingle, inDouble := false, false, false, false;
    ScannedNothing(abc, sql);
    while pos < |sql|
      invariant pos <= |sql|
      invariant inLine ==> !inBlock && !inSingle && !inDouble
      invariant inBlock ==> !inSingle && !inDouble
      invariant inSingle ==> !inDouble
      invariant Scanned(abc, sql, statements, chunk, ModeOf(inLine, inBlock, inSingle, inDouble), pos, depth)
      decreases |sql| - pos
    {
      var ch := sql[pos];
      var doubled := pos + 1 < |sql|;
      if inLine {
        ScannedInside(abc, sql, statements, chunk, Line, pos, depth);
        chunk := chunk + sql[pos..pos + 1];
        if ch == '\n' {
          inLine := false;
        }
        pos := pos + 1;
        continue;
      }
      if inBlock {
        ScannedInside(abc, sql, statements, chunk, Block, pos, depth);
        if ch == '*' && doubled && sql[pos + 1] == '/' {
          chunk, pos := chunk + sql[pos..pos + 2], pos + 2;
          inBlock := false;
        } else {
          chunk, pos := chunk + sql[pos..pos + 1], pos + 1;
        }
        continue;
      }
      if inSingle || inDouble {
        var quote := if inSingle then '\'' else '"';
        ScannedInside(abc, sql, statements, chunk, Quoted(quote), pos, depth);
        if ch == quote && doubled && sql[pos + 1] == quote {
          chunk, pos := chunk + sql[pos..pos + 2], pos + 2;
        } else {
          chunk, pos := chunk + sql[pos..pos + 1], pos + 1;
          if ch == quote {
            inSingle, inDouble := false, false;
          }
        }
        continue;
      }
      if ch == '-' && doubled && sql[pos + 1] == '-' {
        ScannedOpening(abc, sql, statements, chunk, pos, depth);
        chunk, pos := chunk + sql[pos..pos + 2], pos + 2;
        inLine := true;
        continue;
      }
      if ch == '/' && doubled && sql[pos + 1] == '*' {
        ScannedOpening(abc, sql, statements, chunk, pos, depth);
        chunk, pos := chunk + sql[pos..pos + 2], pos + 2;
        inBlock := true;
        continue;
      }
      if ch == '\'' || ch == '"' {
        ScannedOpening(abc, sql, statements, chunk, pos, depth);
        chunk, pos := chunk + sql[pos..pos + 1], pos + 1;
        inSingle, inDouble := ch == '\'', ch == '"';
        continue;
      }
      if ch == ';' && depth == 0 {
        ScannedCut(abc, sql, statements, chunk, pos);
        statements, chunk, pos := statements + [chunk], "", pos + 1;
        continue;
      }
      if WordStart(abc, ch) {
        var end := WordEnd(abc, sql, pos);
        ScannedToken(abc, sql, statements, chunk, pos, depth, end - pos);
        var upper := abc.upper(sql[pos..end]);
        chunk := chunk + sql[pos..end];
        if upper == "BEGIN" {
          depth := depth + 1;
        } else if upper == "END" && depth > 0 {
          depth := depth - 1;
        }
        pos := end;
        continue;
      }
      ScannedToken(abc, sql, statements, chunk, pos, depth, 1);
      chunk, pos := chunk + sql[pos..pos + 1], pos + 1;
    }
    ScannedAll(abc, sql, statements, chunk, ModeOf(inLine, inBlock, inSingle, inDouble), depth);
    return NonBlank(abc, statements + [chunk]);
  }

  /** Where the word that starts at `start` ends. */
  method WordEnd(abc: Alphabet, sql: string, start: nat) returns (end: nat)
    requires start < |sql| && WordStart(abc, sql[start])
    ensures start < end <= |sql| && end - start == 1 + WordLen(abc, sql[start + 1..])
  {
    end := start;
    assert WordLen(abc, sql[start..]) == 1 + WordLen(abc, sql[start..][1..]);
    assert sql[start..][1..] == sql[start + 1..];
    while end < |sql| && WordPart(abc, sql[end])
      invariant start <= end <= |sql|
      invariant WordLen(abc, sql[start..]) == end - start + WordLen(abc, sql[end..])
    {
      assert sql[end..][1..] == sql[end + 1..];
      end := end + 1;
    }
    assert WordLen(abc, sql[end..]) == 0;
  }
}
