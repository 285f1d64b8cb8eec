/** `LogFormatter` (source/log.hpp:142-179, source/log.cpp:474-595): the two loops of `init`, proved against `Pattern`. */
module LogFormatterModel {
  import opened Types
  import opened Pattern

  /** An entry of `vec`: text or name, option, and 1 for a conversion (475). */
  datatype Split = Split(str: string, fmt: string, kind: int)

  /** A formatter item: fixed text, or the item class of a known conversion with its option. */
  datatype Item = StringItem(text: string) | KnownItem(name: string, fmt: string)

  /** The twelve conversions (557-568). */
  predicate Known(name: string) {
    name in {"m", "p", "r", "c", "t", "n", "d", "f", "l", "T", "F", "N"}
  }

  const PATTERN_ERROR := "<<pattern_error>>"

  function SplitOf(t: Token): Split {
    match t
    case Lit(text) => Split(text, "", 0)
    case Conv(name, option) => Split(name, option.GetOr(""), 1)
    case Bad => Split(PATTERN_ERROR, "", 0)
  }

  function ItemOf(t: Token): Item {
    match t
    case Lit(text) => StringItem(text)
    case Conv(name, option) =>
      if Known(name) then KnownItem(name, option.GetOr("")) else StringItem("<<error_format %" + name + ">>")
    case Bad => StringItem(PATTERN_ERROR)
  }

  function Splits(ts: seq<Token>): (r: seq<Split>)
    ensures |r| == |ts| && forall i | 0 <= i < |ts| :: r[i] == SplitOf(ts[i])
  {
    seq(|ts|, i requires 0 <= i < |ts| => SplitOf(ts[i]))
  }

  function Items(ts: seq<Token>): (r: seq<Item>)
    ensures |r| == |ts| && forall i | 0 <= i < |ts| :: r[i] == ItemOf(ts[i])
  {
    seq(|ts|, i requires 0 <= i < |ts| => ItemOf(ts[i]))
  }

  predicate Faulty(t: Token) { t.Bad? || (t.Conv? && !Known(t.name)) }

  /** A brace is not closed, or some conversion is not one of the twelve. */
  predicate IsErrorPattern(pattern: string) { exists t | t in Compile(pattern) :: Faulty(t) }

  // ---- what the items are -------------------------------------------------------------------------------

  /** The item of a token, written out (574-588). */
  predicate ItemFor(item: Item, t: Token) {
    match t
    case Lit(text) => item == StringItem(text)
    case Bad => item == StringItem("<<pattern_error>>")
    case Conv(name, option) =>
      if name in ["m", "p", "r", "c", "t", "n", "d", "f", "l", "T", "F", "N"] then
        item == KnownItem(name, if option.Some? then option.value else "")
      else item == StringItem("<<error_format %" + name + ">>")
  }

  predicate ItemsFor(items: seq<Item>, ts: seq<Token>) {
    |items| == |ts| && forall k | 0 <= k < |ts| :: ItemFor(items[k], ts[k])
  }

  lemma ItemsExact(ts: seq<Token>)
    ensures ItemsFor(Items(ts), ts)
  {
  }

  /** An item written as a pattern. */
  function ItemText(item: Item): string {
    match item
    case StringItem(text) => text
    case KnownItem(name, fmt) => "%" + name + (if fmt == "" then "" else "{" + fmt + "}")
  }

  function ItemsText(items: seq<Item>): string {
    if items == [] then "" else ItemText(items[0]) + ItemsText(items[1..])
  }

  /** A pattern's tokens without empty braces. */
  function Trimmed(ts: seq<Token>): (r: seq<Token>)
    ensures |r| == |ts|
  {
    if ts == [] then []
    else [if ts[0].Conv? && ts[0].option == Some("") then Conv(ts[0].name, None) else ts[0]] + Trimmed(ts[1..])
  }

  lemma {:induction false} ItemsTextTrimmed(ts: seq<Token>)
    requires forall t | t in ts :: !Faulty(t)
    ensures ItemsText(Items(ts)) == Print(Trimmed(ts))
  {
    if ts != [] {
      assert Items(ts)[1..] == Items(ts[1..]) && ts[0] in ts;
      ItemsTextTrimmed(ts[1..]);
      var t := Trimmed(ts)[0];
      assert Trimmed(ts)[1..] == Trimmed(ts[1..]);
      OneItemText(ts[0]);
    }
  }

  lemma OneItemText(t: Token)
    requires !Faulty(t)
    ensures ItemText(ItemOf(t)) == PrintToken(Trimmed([t])[0])
  {
    assert Trimmed([t])[0] == if t.Conv? && t.option == Some("") then Conv(t.name, None) else t;
    match t
    case Lit(text) =>
    case Conv(name, None) => assert "%" + name + "" == "%" + name;
    case Conv(name, Some(o)) =>
      if o == "" {
        assert "%" + name + "" == "%" + name;
      } else {
        assert "%" + name + ("{" + o + "}") == "%" + name + "{" + o + "}";
      }
  }

  /** The items of a pattern without errors, written as a pattern, are the pattern up to empty braces. */
  lemma ItemsPrint(pattern: string)
    requires !IsErrorPattern(pattern)
    ensures Print(Compile(pattern)) == pattern
    ensures ItemsText(Items(Compile(pattern))) == Print(Trimmed(Compile(pattern)))
  {
    assert WellFormed(Compile(pattern)) by {
      assert forall t | t in Compile(pattern) :: !Faulty(t);
    }
    Tiling(pattern);
    ItemsTextTrimmed(Compile(pattern));
  }

  predicate NoEmptyBraces(s: string) { forall i | 0 <= i && i + 1 < |s| && s[i] == '{' :: s[i + 1] != '}' }

  /** Without empty braces they are the pattern itself. */
  lemma ItemsRoundTrip(pattern: string)
    requires !IsErrorPattern(pattern) && NoEmptyBraces(pattern)
    ensures ItemsText(Items(Compile(pattern))) == pattern
  {
    ItemsPrint(pattern);
    NothingTrimmed(Compile(pattern));
  }

  lemma EmptyBracesShow(ts: seq<Token>)
    requires ts != [] && ts[0].Conv? && ts[0].option == Some("")
    ensures !NoEmptyBraces(Print(ts))
  {
    var p, k := PrintToken(ts[0]), 1 + |ts[0].name|;
    assert p == "%" + ts[0].name + "{" + "" + "}";
    assert p[k] == '{' && p[k + 1] == '}';
    assert Print(ts)[k] == p[k] && Print(ts)[k + 1] == p[k + 1];
  }

  lemma {:induction false} NothingTrimmed(ts: seq<Token>)
    requires NoEmptyBraces(Print(ts))
    ensures Trimmed(ts) == ts
  {
    if ts != [] {
      var p, q := PrintToken(ts[0]), Print(ts[1..]);
      if ts[0].Conv? && ts[0].option == Some("") { EmptyBracesShow(ts); }
      forall i | 0 <= i && i + 1 < |q| && q[i] == '{'
        ensures q[i + 1] != '}'
      {
        assert Print(ts)[|p| + i] == q[i] && Print(ts)[|p| + i + 1] == q[i + 1];
      }
      NothingTrimmed(ts[1..]);
    }
  }

  /** Two patterns without errors that give the same items differ in empty braces only. */
  lemma ItemsInjective(a: string, b: string)
    requires !IsErrorPattern(a) && !IsErrorPattern(b) && Items(Compile(a)) == Items(Compile(b))
    ensures Print(Trimmed(Compile(a))) == Print(Trimmed(Compile(b)))
  {
    ItemsPrint(a);
    ItemsPrint(b);
  }

  /** A percent sign and one more character are a pattern without errors exactly for the twelve letters (557-568). */
  lemma SingleConversionExact(c: char)
    ensures IsErrorPattern("%" + [c]) <==> !(c in {'m', 'p', 'r', 'c', 't', 'n', 'd', 'f', 'l', 'T', 'F', 'N'})
  {
    if c == '%' {
      PercentAlone();
      assert "%" + [c] == "%%";
    } else if c == '{' {
      BraceAlone();
      assert "%" + [c] == "%{";
    } else if NameChar(c) {
      OneLetter(c);
      KnownLetter(c);
      assert Conv([c], None) in Compile("%" + [c]);
    } else {
      NoName(c);
    }
  }

  lemma BraceAlone()
    ensures IsErrorPattern("%{")
  {
    var s := "%{";
    assert s[1..] == "{" && "{"[1..] == "";
    assert Conversion("{").token.Bad?;
    assert Tokens(s, "") == [Bad] + Tokens("{", "");
    assert Bad in Compile(s) && Faulty(Bad);
  }

  lemma NoName(c: char)
    requires !NameChar(c) && c != '%' && c != '{'
    ensures IsErrorPattern("%" + [c])
  {
    var s := "%" + [c];
    assert s[1..] == [c];
    assert NameLen([c]) == 0 && Conversion([c]) == Piece(Conv("", None), 0);
    TokensConv(s, "");
    assert Conv("", None) in Compile(s) && Faulty(Conv("", None));
  }

  lemma KnownLetter(c: char)
    ensures Known([c]) <==> c in {'m', 'p', 'r', 'c', 't', 'n', 'd', 'f', 'l', 'T', 'F', 'N'}
  {
    assert forall x: string | |x| == 1 :: [c] == x <==> c == x[0];
  }

  lemma PercentAlone()
    ensures IsErrorPattern("%%")
  {
    assert "%%"[1..] == "%" && "%"[1..] == "";
    assert Conversion("") == Piece(Conv("", None), 0);
    assert "" + ['%'] == "%" && LiteralFront("%%");
    assert Compile("%%") == Tokens("%", "%");
    TokensConv("%", "%");
    assert Conv("", None) in Compile("%%") && Faulty(Conv("", None));
  }

  lemma OneLetter(c: char)
    requires NameChar(c)
    ensures Compile("%" + [c]) == [Conv([c], None)]
  {
    var s := "%" + [c];
    assert s[1..] == [c] && [c][1..] == "" && s[2..] == "";
    assert NameLen([c]) == 1 + NameLen("") && [c][..1] == [c];
    assert Conversion([c]) == Piece(Conv([c], None), 1);
    TokensConv(s, "");
    assert Tokens("", "") == [];
  }

  /** What the inner loop finds for the '%' at i: the conversion, and where scanning goes on. */
  datatype Found = Found(str: string, fmt: string, open: bool, n: nat)

  lemma SplitsConcat(a: seq<Token>, b: seq<Token>)
    ensures Splits(a + b) == Splits(a) + Splits(b)
  {
  }

  /** The effect on tokens and entries of a closed conversion at position i. */
  lemma ConversionStep(done: seq<Token>, p: string, i: nat, nstr: string, next: nat)
    requires i < |p| && p[i] == '%' && !LiteralFront(p[i..]) && !Conversion(p[i + 1..]).token.Bad?
    requires next == i + 1 + Conversion(p[i + 1..]).len
    ensures
      var t := Conversion(p[i + 1..]).token;
      && next <= |p| && done + Tokens(p[i..], nstr) == done + Emit(nstr, t) + Tokens(p[next..], "")
      && Splits(done + Emit(nstr, t)) == Splits(done) + (Splits(Flush(nstr)) + [SplitOf(t)])
  {
    var t := Conversion(p[i + 1..]).token;
    assert p[i..][1..] == p[i + 1..] && p[i..][next - i..] == p[next..];
    TokensConv(p[i..], nstr);
    Associative(done, Emit(nstr, t), Tokens(p[next..], ""));
    SplitsConcat(done, Emit(nstr, t));
    SplitsEmit(nstr, t);
  }

  lemma SplitsEmit(nstr: string, t: Token)
    ensures Splits(Emit(nstr, t)) == Splits(Flush(nstr)) + [SplitOf(t)]
  {
  }

  /** The end of the pattern. */
  lemma LastFlush(done: seq<Token>, rest: string, nstr: string)
    requires rest == ""
    ensures done + Tokens(rest, nstr) == done + Flush(nstr)
    ensures Splits(done + Flush(nstr)) == if nstr == "" then Splits(done) else Splits(done) + [Split(nstr, "", 0)]
    ensures Bad in done + Flush(nstr) <==> Bad in done
  {
    SplitsConcat(done, Flush(nstr));
    assert nstr == "" ==> done + Flush(nstr) == done;
  }

  /** The effect of an unterminated brace. */
  lemma UnclosedStep(done: seq<Token>, p: string, i: nat, nstr: string)
    requires i < |p| && !LiteralFront(p[i..]) && Conversion(p[i + 1..]).token.Bad?
    ensures done + Tokens(p[i..], nstr) == done + [Bad] + Tokens(p[i + 1..], nstr)
    ensures Splits(done + [Bad]) == Splits(done) + [SplitOf(Bad)]
  {
    assert p[i..][1..] == p[i + 1..];
    Associative(done, [Bad], Tokens(p[i + 1..], nstr));
    SplitsConcat(done, [Bad]);
  }

  class LogFormatter {
    var m_pattern: string
    var m_items: seq<Item>
    var m_error: bool

    constructor (pattern: string)
      ensures m_pattern == pattern
      ensures m_items == Items(Compile(pattern)) && ItemsFor(m_items, Compile(pattern))
      ensures m_error <==> IsErrorPattern(pattern)
      ensures !m_error ==> ItemsText(m_items) == Print(Trimmed(Compile(pattern))) && Print(Compile(pattern)) == pattern
    {
      m_pattern, m_items, m_error := pattern, [], false;
      new;
      Init();
    }

    /** The scan of one conversion (491-530). */
    static method ScanConversion(p: string, i: nat) returns (r: Found)
      requires i < |p| && p[i] == '%'
      ensures
        var c := Conversion(p[i + 1..]);
        if c.token.Bad? then r.open && r.fmt == ""
        else !r.open && SplitOf(c.token) == Split(r.str, r.fmt, 1) && r.n == i + 1 + c.len
    {
      ghost var u := p[i + 1..];
      var n := i + 1;
      var fmtStatus := 0;
      var fmtBegin := 0;
      var str, fmt := "", "";
      while n < |p|
        invariant i + 1 <= n <= |p|
        invariant fmtStatus == 0 || fmtStatus == 1
        invariant fmtStatus == 0 ==> NameLen(u) >= n - i - 1 && fmt == ""
        invariant fmtStatus == 0 ==> str == if n == |p| then u else ""
        invariant fmtStatus == 1 ==> i + 1 <= fmtBegin < n && NameLen(u) == fmtBegin - i - 1 && p[fmtBegin] == '{' && fmt == ""
        invariant fmtStatus == 1 ==> forall k | fmtBegin < k < n :: p[k] != '}'
        invariant fmtStatus == 1 ==> (str == u[..NameLen(u)] || n == |p|)
        decreases |p| - n
      {
        if fmtStatus == 0 && !IsAlpha(p[n]) && p[n] != '{' && p[n] != '}' {
          str := p[i + 1..n];
          break;
        }
        if fmtStatus == 0 {
          if p[n] == '{' {
            str := p[i + 1..n];
            fmtStatus := 1;
            fmtBegin := n;
            n := n + 1;
            continue;
          }
        }
        if fmtStatus == 1 {
          if p[n] == '}' {
            fmt := p[fmtBegin + 1..n];
            fmtStatus := 0;
            n := n + 1;
            break;
          }
        }
        n := n + 1;
        if n == |p| {
          if str == "" {
            str := p[i + 1..];
          }
        }
      }
      r := Found(str, fmt, fmtStatus == 1, n);
    }

    /** The first loop (475-550): split the pattern into `vec`. */
    static method SplitPattern(p: string) returns (vec: seq<Split>, error: bool)
      ensures vec == Splits(Compile(p))
      ensures error <==> !WellFormed(Compile(p))
    {
      vec, error := [], false;
      var nstr := "";
      var i := 0;
      ghost var done: seq<Token> := [];
      assert p[0..] == p;
      while i < |p|
        invariant 0 <= i <= |p|
        invariant Compile(p) == done + Tokens(p[i..], nstr)
        invariant vec == Splits(done) && (error <==> Bad in done)
        decreases |p| - i
      {
        assert p[i..][1..] == p[i + 1..];
        if p[i] != '%' {
          nstr := nstr + [p[i]];
          i := i + 1;
          continue;
        }
        if i + 1 < |p| && p[i + 1] == '%' {
          nstr := nstr + "%";
          i := i + 1;
          continue;
        }
        var r := ScanConversion(p, i);
        if !r.open {
          ghost var c := Conversion(p[i + 1..]);
          ConversionStep(done, p, i, nstr, r.n);
          vec := Emitted(vec, nstr, r);
          done := done + Emit(nstr, c.token);
          nstr := "";
          i := r.n;
        } else {
          UnclosedStep(done, p, i, nstr);
          vec := vec + [Split(PATTERN_ERROR, r.fmt, 0)];
          done := done + [Bad];
          error := true;
          i := i + 1;
        }
      }
      if nstr != "" {
        vec := vec + [Split(nstr, "", 0)];
      }
      LastFlush(done, p[i..], nstr);
    }

    /** The pending literal, then the conversion (532-538). */
    static method Emitted(vec: seq<Split>, nstr: string, r: Found) returns (vec': seq<Split>)
      ensures vec' == vec + (Splits(Flush(nstr)) + [Split(r.str, r.fmt, 1)])
    {
      vec' := vec;
      if nstr != "" {
        vec' := vec' + [Split(nstr, "", 0)];
      }
      vec' := vec' + [Split(r.str, r.fmt, 1)];
    }

    /** The second loop (574-594): look every conversion up in the table of items. */
    method BuildItems(vec: seq<Split>, ghost ts: seq<Token>)
      requires vec == Splits(ts) && m_items == []
      modifies this`m_items, this`m_error
      ensures m_items == Items(ts)
      ensures m_error <==> old(m_error) || exists t | t in ts :: t.Conv? && !Known(t.name)
    {
      var k := 0;
      while k < |vec|
        invariant 0 <= k <= |vec|
        invariant m_items == Items(ts)[..k]
        invariant m_error <==> old(m_error) || exists j | 0 <= j < k :: ts[j].Conv? && !Known(ts[j].name)
        decreases |vec| - k
      {
        var e := vec[k];
        if e.kind == 0 {
          m_items := m_items + [StringItem(e.str)];
        } else if Known(e.str) {
          m_items := m_items + [KnownItem(e.str, e.fmt)];
        } else {
          m_items := m_items + [StringItem("<<error_format %" + e.str + ">>")];
          m_error := true;
        }
        k := k + 1;
      }
    }

    /** The formatter's items and error flag are those of its pattern. */
    method Init()
      requires m_items == [] && !m_error
      modifies this
      ensures m_pattern == old(m_pattern)
      ensures m_items == Items(Compile(m_pattern)) && ItemsFor(m_items, Compile(m_pattern))
      ensures m_error <==> IsErrorPattern(m_pattern)
      ensures !m_error ==> ItemsText(m_items) == Print(Trimmed(Compile(m_pattern))) && Print(Compile(m_pattern)) == m_pattern
    {
      var vec, error := SplitPattern(m_pattern);
      m_error := error;
      BuildItems(vec, Compile(m_pattern));
      ItemsExact(Compile(m_pattern));
      if !m_error { ItemsPrint(m_pattern); }
    }
  }
}
