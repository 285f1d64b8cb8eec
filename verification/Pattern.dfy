/** What `LogFormatter::init` (source/log.cpp:474-595) makes of a pattern, and how patterns and tokens correspond. */
module Pattern {
  import opened Types

  /** A piece of a pattern: literal text, a conversion with or without a braced option, or an unterminated brace. */
  datatype Token = Lit(text: string) | Conv(name: string, option: Option<string>) | Bad

  predicate IsAlpha(c: char) { 'a' <= c <= 'z' || 'A' <= c <= 'Z' }

  /** A closing brace does not end a conversion name (498-499). */
  predicate NameChar(c: char) { IsAlpha(c) || c == '}' }

  /** Length of the conversion name at the front of s. */
  function NameLen(s: string): (n: nat)
    ensures n <= |s| && (forall i :: 0 <= i < n ==> NameChar(s[i])) && (n < |s| ==> !NameChar(s[n]))
  {
    if s == "" || !NameChar(s[0]) then 0 else 1 + NameLen(s[1..])
  }

  /** Index of the first closing brace of s, or |s|. */
  function CloseAt(s: string): (n: nat)
    ensures n <= |s| && (forall i :: 0 <= i < n ==> s[i] != '}') && (n < |s| ==> s[n] == '}')
  {
    if s == "" || s[0] == '}' then 0 else 1 + CloseAt(s[1..])
  }

  datatype Piece = Piece(token: Token, len: nat)

  /** The conversion whose text, after the '%', is at the front of s; len is what it consumes. */
  function Conversion(s: string): (p: Piece)
    ensures p.len <= |s| && !p.token.Lit?
  {
    var n := NameLen(s);
    if n < |s| && s[n] == '{' then
      var c := n + 1 + CloseAt(s[n + 1..]);
      if c < |s| then Piece(Conv(s[..n], Some(s[n + 1..c])), c + 1) else Piece(Bad, 0)
    else Piece(Conv(s[..n], None), n)
  }

  function Flush(lit: string): seq<Token> { if lit == "" then [] else [Lit(lit)] }

  /** A conversion, after the literal collected before it (532-538). */
  function Emit(lit: string, t: Token): (r: seq<Token>)
    ensures r != [] && r[|r| - 1] == t
  {
    if lit == "" then [t] else [Lit(lit), t]
  }

  /** The front character of s is literal: it is not '%', or it is followed by another '%', which is not consumed (480-488). */
  predicate LiteralFront(s: string)
    requires s != ""
  {
    s[0] != '%' || (|s| > 1 && s[1] == '%')
  }

  /** The tokens of s, given the literal collected so far. */
  function Tokens(s: string, lit: string): seq<Token>
    decreases |s|
  {
    if s == "" then Flush(lit)
    else if LiteralFront(s) then Tokens(s[1..], lit + [s[0]])
    else
      var p := Conversion(s[1..]);
      // an unterminated brace consumes the '%' only and does not flush the literal (541-545)
      if p.token.Bad? then [Bad] + Tokens(s[1..], lit)
      else Emit(lit, p.token) + Tokens(s[1 + p.len..], "")
  }

  function Compile(pattern: string): seq<Token> { Tokens(pattern, "") }

  // ---- printing ---------------------------------------------------------------------------------------

  function PrintToken(t: Token): string {
    match t
    case Lit(text) => text
    case Conv(name, None) => "%" + name
    case Conv(name, Some(o)) => "%" + name + "{" + o + "}"
    case Bad => ""
  }

  function Print(ts: seq<Token>): string {
    if ts == [] then "" else PrintToken(ts[0]) + Print(ts[1..])
  }

  lemma {:induction false} PrintConcat(a: seq<Token>, b: seq<Token>)
    ensures Print(a + b) == Print(a) + Print(b)
  {
    if a == [] {
      assert a + b == b;
    } else {
      assert (a + b)[1..] == a[1..] + b;
      PrintConcat(a[1..], b);
    }
  }

  predicate WellFormed(ts: seq<Token>) { Bad !in ts }

  /** The characters of a conversion name, by their codes: A to Z, a to z, and the closing brace (498-499). */
  lemma NameCharExact(c: char)
    ensures NameChar(c) <==> 65 <= c as int <= 90 || 97 <= c as int <= 122 || c as int == 125
  {
  }

  // ---- tiling: parse, then print ----------------------------------------------------------------------

  /** What a conversion consumes is what it prints. */
  lemma ConversionPrints(s: string)
    requires !Conversion(s).token.Bad?
    ensures "%" + s[..Conversion(s).len] == PrintToken(Conversion(s).token)
  {
    var n := NameLen(s);
    if n < |s| && s[n] == '{' {
      var c := n + 1 + CloseAt(s[n + 1..]);
      assert s[..c + 1] == s[..n] + "{" + s[n + 1..c] + "}";
    }
  }

  lemma TileConversion(s: string, lit: string, rest: seq<Token>)
    requires s != "" && s[0] == '%' && !Conversion(s[1..]).token.Bad?
    requires Print(rest) == s[1 + Conversion(s[1..]).len..]
    ensures Print(Emit(lit, Conversion(s[1..]).token) + rest) == lit + s
  {
    var p := Conversion(s[1..]);
    ConversionPrints(s[1..]);
    PrintAfterFlush(lit, p.token, rest);
    FrontSplit(s, p.len);
  }

  lemma FrontSplit(s: string, len: nat)
    requires s != "" && s[0] == '%' && len < |s|
    ensures s == "%" + s[1..][..len] + s[1 + len..]
  {
  }

  lemma Uncons(lit: string, s: string)
    requires s != ""
    ensures lit + s == lit + [s[0]] + s[1..]
  {
  }

  lemma PrintAfterFlush(lit: string, t: Token, rest: seq<Token>)
    ensures Print(Emit(lit, t) + rest) == lit + (PrintToken(t) + Print(rest))
  {
    PrintConcat(Emit(lit, t), rest);
    PrintEmit(lit, t);
    Associative(lit, PrintToken(t), Print(rest));
  }

  lemma PrintEmit(lit: string, t: Token)
    ensures Print(Emit(lit, t)) == lit + PrintToken(t)
  {
    assert Print([t]) == PrintToken(t) + Print([]);
    if lit != "" { assert [Lit(lit), t][1..] == [t]; }
  }

  lemma PrintFlush(lit: string)
    ensures Print(Flush(lit)) == lit
  {
    assert lit != "" ==> Print([Lit(lit)]) == lit + Print([]);
  }

  lemma {:induction false} TokensTile(s: string, lit: string)
    requires WellFormed(Tokens(s, lit))
    ensures Print(Tokens(s, lit)) == lit + s
    decreases |s|
  {
    if s == "" {
      PrintFlush(lit);
    } else if LiteralFront(s) {
      TokensTile(s[1..], lit + [s[0]]);
      Uncons(lit, s);
    } else {
      var p := Conversion(s[1..]);
      RestWellFormed(s, lit);
      TokensTile(s[1 + p.len..], "");
      TileConversion(s, lit, Tokens(s[1 + p.len..], ""));
    }
  }

  /** The source text of the tokens is the pattern itself: nothing is dropped, duplicated or reordered. */
  lemma Tiling(pattern: string)
    requires WellFormed(Compile(pattern))
    ensures Print(Compile(pattern)) == pattern
  {
    TextTiles(pattern);
  }

  /** Hence two well-formed patterns that compile alike are the same. */
  lemma CompileInjective(a: string, b: string)
    requires WellFormed(Compile(a)) && Compile(a) == Compile(b)
    ensures a == b
  {
    Tiling(a);
    Tiling(b);
  }

  // ---- canonical token lists: print, then parse -------------------------------------------------------

  /** In text followed by rest, every '%' is followed by another one. */
  predicate PercentsDoubled(text: string, rest: string) {
    forall k | 0 <= k < |text| && text[k] == '%' :: k + 1 < |text| + |rest| && (text + rest)[k + 1] == '%'
  }

  predicate AllName(name: string) { forall k | 0 <= k < |name| :: NameChar(name[k]) }

  /** The token can be told apart from what is printed after it. */
  predicate Separated(t: Token, rest: string) {
    match t
    case Lit(text) => text != "" && PercentsDoubled(text, rest)
    case Conv(name, Some(o)) => AllName(name) && '}' !in o
    case Conv(name, None) =>
      AllName(name) && (rest != "" ==> !NameChar(rest[0]) && rest[0] != '{' && (name == "" ==> rest[0] != '%'))
    case Bad => false
  }

  predicate Canonical(ts: seq<Token>) {
    ts == [] ||
    (Separated(ts[0], Print(ts[1..])) && (ts[0].Lit? && |ts| > 1 ==> !ts[1].Lit?) && Canonical(ts[1..]))
  }

  lemma {:induction false} NameLenOf(name: string, rest: string)
    requires AllName(name) && (rest != "" ==> !NameChar(rest[0]))
    ensures NameLen(name + rest) == |name|
  {
    if name == "" {
      assert name + rest == rest;
    } else {
      assert (name + rest)[1..] == name[1..] + rest;
      NameLenOf(name[1..], rest);
    }
  }

  lemma {:induction false} CloseAtOf(o: string, rest: string)
    requires '}' !in o
    ensures CloseAt(o + "}" + rest) == |o|
  {
    if o == "" {
      assert o + "}" + rest == "}" + rest;
    } else {
      assert (o + "}" + rest)[1..] == o[1..] + "}" + rest;
      CloseAtOf(o[1..], rest);
    }
  }

  lemma BareReads(name: string, rest: string)
    requires Separated(Conv(name, None), rest)
    ensures
      var s := "%" + name + rest;
      !LiteralFront(s) && Conversion(s[1..]) == Piece(Conv(name, None), |name|) && s[1 + |name|..] == rest
  {
    var s := "%" + name + rest;
    assert s[1..] == name + rest;
    NameLenOf(name, rest);
    assert (name + rest)[..|name|] == name;
  }

  lemma BracedReads(name: string, o: string, rest: string)
    requires Separated(Conv(name, Some(o)), rest)
    ensures
      var s := "%" + name + "{" + o + "}" + rest;
      && !LiteralFront(s) && Conversion(s[1..]) == Piece(Conv(name, Some(o)), |name| + |o| + 2)
      && s[|name| + |o| + 3..] == rest
  {
    var s, tail := "%" + name + "{" + o + "}" + rest, "{" + o + "}" + rest;
    var u := name + tail;
    BracedText(name, o, rest);
    NameLenOf(name, tail);
    CloseAtOf(o, rest);
  }

  /** The parts of a braced conversion. */
  lemma BracedText(name: string, o: string, rest: string)
    ensures
      var s, u := "%" + name + "{" + o + "}" + rest, name + ("{" + o + "}" + rest);
      && s[1..] == u && u[|name|] == '{' && u[|name| + 1..] == o + "}" + rest
      && u[..|name|] == name && u[|name| + 1..|name| + 1 + |o|] == o && s[|name| + |o| + 3..] == rest
  {
  }

  /** A separated conversion is read back from the front of the text. */
  lemma ConversionReads(t: Token, rest: string)
    requires t.Conv? && Separated(t, rest)
    ensures
      var s := PrintToken(t) + rest;
      && !LiteralFront(s) && Conversion(s[1..]) == Piece(t, |PrintToken(t)| - 1) && s[|PrintToken(t)|..] == rest
  {
    match t.option
    case None => BareReads(t.name, rest);
    case Some(o) => BracedReads(t.name, o, rest);
  }

  lemma PercentsMove(text: string, rest: string)
    requires text != "" && PercentsDoubled(text, rest)
    ensures PercentsDoubled(text[1..], rest) && LiteralFront(text + rest)
  {
    assert text[0] == text[0];
    assert (text + rest)[1..] == text[1..] + rest;
    forall k | 0 <= k < |text[1..]| && text[1..][k] == '%'
      ensures k + 1 < |text[1..]| + |rest| && (text[1..] + rest)[k + 1] == '%'
    {
      assert text[k + 1] == '%';
    }
  }

  /** A literal is collected character by character. */
  lemma {:induction false} LiteralReads(text: string, rest: string, lit: string)
    requires PercentsDoubled(text, rest)
    ensures Tokens(text + rest, lit) == Tokens(rest, lit + text)
    decreases |text|
  {
    if text == "" {
      assert text + rest == rest && lit + text == lit;
    } else {
      var s := text + rest;
      assert s[1..] == text[1..] + rest;
      PercentsMove(text, rest);
      assert lit + [text[0]] + text[1..] == lit + text;
      LiteralReads(text[1..], rest, lit + [text[0]]);
    }
  }

  /** In front of a conversion, or of nothing, the literal is flushed. */
  lemma EmitFront(lit: string, t: Token, rest: seq<Token>)
    ensures Emit(lit, t) + rest == Flush(lit) + (Emit("", t) + rest)
  {
  }

  lemma FlushFirst(s: string, lit: string)
    requires s == "" || (!LiteralFront(s) && !Conversion(s[1..]).token.Bad?)
    ensures Tokens(s, lit) == Flush(lit) + Tokens(s, "")
  {
    if s == "" {
      assert Flush(lit) + [] == Flush(lit);
    } else {
      var p := Conversion(s[1..]);
      var rest := Tokens(s[1 + p.len..], "");
      TokensConv(s, lit);
      TokensConv(s, "");
      EmitFront(lit, p.token, rest);
    }
  }

  /** The step for a conversion. */
  lemma PrintThenCompileConv(t: Token, rest: seq<Token>)
    requires t.Conv? && Separated(t, Print(rest)) && Compile(Print(rest)) == rest
    ensures Compile(PrintToken(t) + Print(rest)) == [t] + rest
  {
    ConversionReads(t, Print(rest));
  }

  /** The step for a literal, which is followed by a conversion or by nothing. */
  lemma PrintThenCompileLit(text: string, rest: seq<Token>)
    requires Separated(Lit(text), Print(rest)) && Compile(Print(rest)) == rest
    requires rest != [] ==> rest[0].Conv? && Separated(rest[0], Print(rest[1..]))
    ensures Compile(text + Print(rest)) == [Lit(text)] + rest
  {
    LiteralReads(text, Print(rest), "");
    assert "" + text == text;
    if rest != [] {
      ConversionReads(rest[0], Print(rest[1..]));
    }
    FlushFirst(Print(rest), text);
  }

  lemma {:induction false} PrintThenCompile(ts: seq<Token>)
    requires Canonical(ts)
    ensures Compile(Print(ts)) == ts
  {
    if ts != [] {
      PrintThenCompile(ts[1..]);
      if ts[0].Lit? {
        PrintThenCompileLit(ts[0].text, ts[1..]);
      } else {
        PrintThenCompileConv(ts[0], ts[1..]);
      }
      assert [ts[0]] + ts[1..] == ts;
    }
  }

  /** What is compiled is canonical. */
  lemma {:induction false} TokensCanonical(s: string, lit: string)
    requires WellFormed(Tokens(s, lit)) && PercentsDoubled(lit, s)
    ensures Canonical(Tokens(s, lit))
    decreases |s|
  {
    if s == "" {
    } else if LiteralFront(s) {
      PercentsCollect(lit, s);
      TokensCanonical(s[1..], lit + [s[0]]);
    } else {
      var p := Conversion(s[1..]);
      RestWellFormed(s, lit);
      TokensCanonical(s[1 + p.len..], "");
      CanonicalConv(s, lit, Tokens(s[1 + p.len..], ""));
    }
  }

  lemma RestWellFormed(s: string, lit: string)
    requires s != "" && !LiteralFront(s) && WellFormed(Tokens(s, lit))
    ensures
      var p := Conversion(s[1..]);
      var rest := Tokens(s[1 + p.len..], "");
      !p.token.Bad? && WellFormed(rest) && Tokens(s, lit) == Emit(lit, p.token) + rest
  {
    if Conversion(s[1..]).token.Bad? { BadShows(s, lit); }
    var p := Conversion(s[1..]);
    NoBad(Emit(lit, p.token), Tokens(s[1 + p.len..], ""));
  }

  lemma BadShows(s: string, lit: string)
    requires s != "" && !LiteralFront(s) && Conversion(s[1..]).token.Bad?
    ensures Bad in Tokens(s, lit)
  {
    assert Tokens(s, lit)[0] == Bad;
  }

  lemma NoBad(a: seq<Token>, b: seq<Token>)
    requires WellFormed(a + b)
    ensures WellFormed(a) && WellFormed(b)
  {
    assert forall t | t in a :: t in a + b;
    assert forall t | t in b :: t in a + b;
  }

  lemma CanonicalConv(s: string, lit: string, rest: seq<Token>)
    requires s != "" && !LiteralFront(s) && !Conversion(s[1..]).token.Bad? && PercentsDoubled(lit, s)
    requires rest == Tokens(s[1 + Conversion(s[1..]).len..], "") && WellFormed(rest) && Canonical(rest)
    ensures Canonical(Emit(lit, Conversion(s[1..]).token) + rest)
  {
    var p := Conversion(s[1..]);
    TextTiles(s[1 + p.len..]);
    ConversionText(s, rest);
    CanonicalFront(lit, p.token, rest);
  }

  lemma TextTiles(s: string)
    requires WellFormed(Tokens(s, ""))
    ensures Print(Tokens(s, "")) == s
  {
    TokensTile(s, "");
    assert "" + s == s;
  }

  /** A conversion and what follows it, as text. */
  lemma ConversionText(s: string, rest: seq<Token>)
    requires s != "" && !LiteralFront(s) && !Conversion(s[1..]).token.Bad?
    requires Print(rest) == s[1 + Conversion(s[1..]).len..]
    ensures Separated(Conversion(s[1..]).token, Print(rest))
    ensures PrintToken(Conversion(s[1..]).token) + Print(rest) == s
  {
    ConversionSeparated(s);
    ConversionPrints(s[1..]);
    FrontSplit(s, Conversion(s[1..]).len);
  }

  lemma PercentsCollect(lit: string, s: string)
    requires s != "" && LiteralFront(s) && PercentsDoubled(lit, s)
    ensures PercentsDoubled(lit + [s[0]], s[1..])
  {
    assert lit + [s[0]] + s[1..] == lit + s;
    forall k | 0 <= k < |lit| + 1 && (lit + [s[0]])[k] == '%'
      ensures k + 1 < |lit| + |s| && (lit + s)[k + 1] == '%'
    {
      assert k < |lit| ==> lit[k] == '%';
    }
  }

  lemma ConversionSeparated(s: string)
    requires s != "" && !LiteralFront(s) && !Conversion(s[1..]).token.Bad?
    ensures Separated(Conversion(s[1..]).token, s[1 + Conversion(s[1..]).len..])
  {
    var u := s[1..];
    var n := NameLen(u);
    assert forall k | 0 <= k < n :: u[..n][k] == u[k];
    if n < |u| && u[n] == '{' {
      var v := u[n + 1..];
      assert forall k | 0 <= k < CloseAt(v) :: v[k] != '}';
    } else if n < |u| {
      assert s[1 + n..][0] == u[n];
    }
  }

  lemma CanonicalFront(lit: string, t: Token, rest: seq<Token>)
    requires t.Conv? && Separated(t, Print(rest)) && Canonical(rest) && PercentsDoubled(lit, PrintToken(t) + Print(rest))
    ensures Canonical(Emit(lit, t) + rest)
  {
    var tail := [t] + rest;
    assert tail[1..] == rest;
    assert Canonical(tail);
    if lit != "" {
      assert Emit(lit, t) + rest == [Lit(lit)] + tail;
      assert ([Lit(lit)] + tail)[1..] == tail;
    }
  }

  /** A token list is the compilation of its own text exactly when it is canonical. */
  lemma RoundTrip(ts: seq<Token>)
    requires WellFormed(ts)
    ensures Compile(Print(ts)) == ts <==> Canonical(ts)
  {
    if Canonical(ts) {
      PrintThenCompile(ts);
    } else if Compile(Print(ts)) == ts {
      TokensCanonical(Print(ts), "");
    }
  }

  // ---- unterminated braces ------------------------------------------------------------------------------

  /**
   A brace that is not closed gives an error token for its percent sign, in front of the text collected before it, and the
   rest is read as text (541-549).
   */
  lemma UnterminatedExact(text: string, name: string, rest: string)
    requires '%' !in text && AllName(name) && '%' !in name && '%' !in rest && '}' !in rest
    ensures
      var after := name + "{" + rest;
      Compile(text + ("%" + after)) == [Bad, Lit(text + after)]
  {
    var after := name + "{" + rest;
    var s := "%" + after;
    UnclosedConversion(name, rest);
    PlainReads(text, s, "");
    assert "" + text == text && s[1..] == after;
    assert !LiteralFront(s) by {
      assert after[0] == if name == "" then '{' else name[0];
      assert name != "" ==> name[0] in name;
    }
    assert '%' !in after;
    PlainReads(after, "", text);
    assert after + "" == after && text + after != "";
    assert Tokens("", text + after) == [Lit(text + after)];
    assert Tokens(s, text) == [Bad] + Tokens(after, text);
  }

  lemma UnclosedConversion(name: string, rest: string)
    requires AllName(name) && '}' !in rest
    ensures Conversion(name + "{" + rest).token.Bad?
  {
    var u := name + "{" + rest;
    assert u == name + ("{" + rest);
    NameLenOf(name, "{" + rest);
    assert u[|name| + 1..] == rest;
    assert forall i | 0 <= i < |rest| :: rest[i] != '}';
  }

  /** Text without percent signs is collected. */
  lemma {:induction false} PlainReads(text: string, rest: string, lit: string)
    requires '%' !in text
    ensures Tokens(text + rest, lit) == Tokens(rest, lit + text)
    decreases |text|
  {
    if text == "" {
      assert text + rest == rest && lit + text == lit;
    } else {
      var s := text + rest;
      assert s[1..] == text[1..] + rest && text[0] in text;
      assert lit + [text[0]] + text[1..] == lit + text;
      PlainReads(text[1..], rest, lit + [text[0]]);
    }
  }

  // ---- compositional compilation ------------------------------------------------------------------------

  /** b starts with a conversion whose name is not empty, and which is closed. */
  predicate StartsConversion(b: string) {
    |b| > 1 && b[0] == '%' && IsAlpha(b[1]) && !Conversion(b[1..]).token.Bad?
  }

  lemma {:induction false} NameLenAppend(u: string, b: string)
    requires b != "" && b[0] == '%'
    ensures NameLen(u + b) == NameLen(u)
  {
    if u == "" {
      assert u + b == b;
    } else {
      assert (u + b)[1..] == u[1..] + b;
      NameLenAppend(u[1..], b);
    }
  }

  lemma {:induction false} CloseAtAppend(u: string, b: string)
    requires CloseAt(u) < |u|
    ensures CloseAt(u + b) == CloseAt(u)
  {
    if u[0] != '}' {
      assert (u + b)[1..] == u[1..] + b;
      CloseAtAppend(u[1..], b);
    }
  }

  lemma ConversionAppend(u: string, b: string)
    requires b != "" && b[0] == '%' && !Conversion(u).token.Bad?
    ensures Conversion(u + b) == Conversion(u)
  {
    var n := NameLen(u);
    NameLenAppend(u, b);
    assert (u + b)[..n] == u[..n];
    if n < |u| && u[n] == '{' {
      assert (u + b)[n + 1..] == u[n + 1..] + b;
      CloseAtAppend(u[n + 1..], b);
      var c := n + 1 + CloseAt(u[n + 1..]);
      assert (u + b)[n + 1..c] == u[n + 1..c];
    }
  }

  /** Text appended after a conversion at the front of s does not change how s is read. */
  lemma FrontAppend(s: string, b: string)
    requires StartsConversion(b) && |s| > 1 && !LiteralFront(s) && !Conversion(s[1..]).token.Bad?
    ensures !LiteralFront(s + b) && Conversion((s + b)[1..]) == Conversion(s[1..])
    ensures (s + b)[1 + Conversion(s[1..]).len..] == s[1 + Conversion(s[1..]).len..] + b
  {
    assert (s + b)[1..] == s[1..] + b;
    ConversionAppend(s[1..], b);
  }

  lemma TokensConv(s: string, lit: string)
    requires s != "" && !LiteralFront(s) && !Conversion(s[1..]).token.Bad?
    ensures
      var p := Conversion(s[1..]);
      Tokens(s, lit) == Emit(lit, p.token) + Tokens(s[1 + p.len..], "")
  {
  }

  /** The step for a conversion at the front of s. */
  lemma AppendConversion(s: string, lit: string, b: string)
    requires StartsConversion(b) && |s| > 1 && !LiteralFront(s) && !Conversion(s[1..]).token.Bad?
    requires var r := s[1 + Conversion(s[1..]).len..]; Tokens(r + b, "") == Tokens(r, "") + Tokens(b, "")
    ensures Tokens(s + b, lit) == Tokens(s, lit) + Tokens(b, "")
  {
    FrontAppend(s, b);
    TokensConv(s, lit);
    TokensConv(s + b, lit);
    var p := Conversion(s[1..]);
    Associative(Emit(lit, p.token), Tokens(s[1 + p.len..], ""), Tokens(b, ""));
  }

  lemma {:induction false} TokensAppend(s: string, lit: string, b: string)
    requires WellFormed(Tokens(s, lit)) && StartsConversion(b) && (s != "" ==> s[|s| - 1] != '%')
    ensures Tokens(s + b, lit) == Tokens(s, lit) + Tokens(b, "")
    decreases |s|
  {
    if s == "" {
      assert s + b == b;
      FlushFirst(b, lit);
    } else {
      assert (s + b)[1..] == s[1..] + b;
      if LiteralFront(s) {
        TokensAppend(s[1..], lit + [s[0]], b);
      } else {
        RestWellFormed(s, lit);
        TokensAppend(s[1 + Conversion(s[1..]).len..], "", b);
        AppendConversion(s, lit, b);
      }
    }
  }

  /** A pattern that ends in '%' compiles to a last conversion with an empty name. */
  lemma {:induction false} LastIsEmpty(s: string, lit: string)
    requires s != "" && s[|s| - 1] == '%' && WellFormed(Tokens(s, lit))
    ensures EndsEmpty(Tokens(s, lit))
    decreases |s|
  {
    if LiteralFront(s) {
      LastChar(s, 1);
      LastIsEmpty(s[1..], lit + [s[0]]);
    } else if 1 + Conversion(s[1..]).len < |s| {
      RestWellFormed(s, lit);
      LastChar(s, 1 + Conversion(s[1..]).len);
      LastIsEmpty(s[1 + Conversion(s[1..]).len..], "");
      EndsWithRest(s, lit);
    } else {
      RestWellFormed(s, lit);
      LastAlone(s, lit);
    }
  }

  predicate EndsEmpty(ts: seq<Token>) { ts != [] && ts[|ts| - 1] == Conv("", None) }

  lemma EndsWithRest(s: string, lit: string)
    requires s != "" && !LiteralFront(s) && !Conversion(s[1..]).token.Bad?
    requires EndsEmpty(Tokens(s[1 + Conversion(s[1..]).len..], ""))
    ensures EndsEmpty(Tokens(s, lit))
  {
    TokensConv(s, lit);
    LastOf(Emit(lit, Conversion(s[1..]).token), Tokens(s[1 + Conversion(s[1..]).len..], ""));
  }

  /** A conversion that takes all of s is the percent sign alone. */
  lemma LastAlone(s: string, lit: string)
    requires s != "" && s[|s| - 1] == '%' && !LiteralFront(s) && !Conversion(s[1..]).token.Bad?
    requires 1 + Conversion(s[1..]).len == |s|
    ensures EndsEmpty(Tokens(s, lit))
  {
    LastConsumed(s[1..]);
    assert s == "%" && s[1..] == "";
    assert Conversion("") == Piece(Conv("", None), 0);
    TokensConv(s, lit);
    assert Tokens("", "") == [];
  }

  lemma LastChar(s: string, k: nat)
    requires k < |s|
    ensures s[k..] != "" && s[k..][|s[k..]| - 1] == s[|s| - 1]
  {
  }

  lemma LastOf<T>(a: seq<T>, b: seq<T>)
    requires b != []
    ensures (a + b)[|a + b| - 1] == b[|b| - 1]
  {
  }

  /** A conversion that consumes everything does not end in '%'. */
  lemma LastConsumed(u: string)
    requires Conversion(u).len == |u| && !Conversion(u).token.Bad?
    ensures u == "" || u[|u| - 1] != '%'
  {
  }

  lemma {:induction false} CanonicalSplit(a: seq<Token>, b: seq<Token>)
    requires a != [] && Canonical(a + b)
    ensures Separated(a[|a| - 1], Print(b))
  {
    assert (a + b)[1..] == a[1..] + b;
    if |a| == 1 {
      assert a[1..] + b == b;
    } else {
      CanonicalSplit(a[1..], b);
    }
  }

  /** Compiling the parts is compiling the whole exactly when the first part does not end in '%'. */
  lemma Compositional(a: string, b: string)
    requires WellFormed(Compile(a)) && WellFormed(Compile(b)) && StartsConversion(b)
    ensures Compile(a + b) == Compile(a) + Compile(b) <==> (a == "" || a[|a| - 1] != '%')
  {
    if a == "" || a[|a| - 1] != '%' {
      TokensAppend(a, "", b);
    } else if Compile(a + b) == Compile(a) + Compile(b) {
      TokensCanonical(a + b, "");
      LastIsEmpty(a, "");
      CanonicalSplit(Compile(a), Compile(b));
      Tiling(b);
    }
  }

  /** `%%` does not escape: the second '%' is scanned again, so no pattern compiles to plain text holding a '%'. */
  lemma NoPercentEscape(pattern: string, text: string)
    requires Compile(pattern) == [Lit(text)]
    ensures '%' !in text
  {
    TokensCanonical(pattern, "");
    if '%' in text {
      PercentsRun(text);
    }
  }

  lemma {:induction false} PercentsRun(text: string)
    requires PercentsDoubled(text, "") && '%' in text
    ensures false
  {
    if text[0] == '%' {
      assert |text| > 1 && text[1] == '%';
      assert '%' in text[1..];
    }
    PercentsMove(text, "");
    PercentsRun(text[1..]);
  }
}
