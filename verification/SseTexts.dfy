/**
 What the text functions of the stream parser amount to: joining is undone by splitting,
 decimals are read back, trimming removes exactly the white space at both ends.
 */
module SseTexts {
  import opened Wrappers
  import opened SseStream

  // Joining.

  /** Joining two lists puts one separator between their texts. */
  lemma {:induction false} JoinConcat(a: seq<string>, b: seq<string>, separator: string)
    requires a != [] && b != []
    ensures Join(a + b, separator) == Join(a, separator) + separator + Join(b, separator)
    decreases |a|
  {
    assert (a + b)[0] == a[0] && (a + b)[1..] == a[1..] + b;
    if |a| == 1 {
      assert a[1..] + b == b;
    } else {
      JoinConcat(a[1..], b, separator);
      var rest := Join(a[1..], separator);
      assert a[0] + separator + (rest + separator + Join(b, separator))
          == a[0] + separator + rest + separator + Join(b, separator);
    }
  }

  /** The texts with one newline between any two neighbours. */
  function Glued(texts: seq<string>): string {
    if texts == [] then ""
    else if |texts| == 1 then texts[0]
    else Glued(texts[..|texts| - 1]) + "\n" + texts[|texts| - 1]
  }

  lemma {:induction false} JoinIsGlued(texts: seq<string>)
    ensures Join(texts, "\n") == Glued(texts)
    decreases |texts|
  {
    if |texts| > 1 {
      var n := |texts| - 1;
      var init, last := texts[..n], texts[n];
      JoinIsGlued(init);
      assert texts == init + [last];
      JoinConcat(init, [last], "\n");
      assert Join([last], "\n") == last;
    }
  }

  /** The pieces of a text between its newlines. */
  function Split(text: string): seq<string>
    decreases |text|
  {
    var k := FirstNewline(text);
    if k == |text| then [text] else [text[..k]] + Split(text[k + 1..])
  }

  lemma FirstNewlineIs(s: string, k: nat)
    requires k <= |s| && (forall i :: 0 <= i < k ==> s[i] != '\n') && (k < |s| ==> s[k] == '\n')
    ensures FirstNewline(s) == k
  {
    var r := FirstNewline(s);
    if r != k {
      assert false;
    }
  }

  /** Splitting undoes joining: no text is lost, added or moved. */
  lemma {:induction false} SplitJoin(texts: seq<string>)
    requires texts != [] && forall t :: t in texts ==> '\n' !in t
    ensures Split(Join(texts, "\n")) == texts
    decreases |texts|
  {
    var text := Join(texts, "\n");
    assert texts[0] in texts;
    if |texts| == 1 {
      FirstNewlineIs(text, |text|);
    } else {
      FirstNewlineIs(text, |texts[0]|);
      assert text[..|texts[0]|] == texts[0] && text[|texts[0]| + 1..] == Join(texts[1..], "\n");
      SplitJoin(texts[1..]);
    }
  }

  // Dropping empty texts.

  /** The texts that are not empty, in their order. */
  function Kept(texts: seq<string>): (kept: seq<string>)
    ensures forall t :: t in kept <==> t in texts && t != ""
    ensures |kept| <= |texts|
  {
    if texts == [] then []
    else
      var n := |texts| - 1;
      assert texts == texts[..n] + [texts[n]];
      Kept(texts[..n]) + if texts[n] == "" then [] else [texts[n]]
  }

  lemma {:induction false} NonEmptyIsKept(texts: seq<string>)
    ensures NonEmpty(texts) == Kept(texts)
    decreases |texts|
  {
    if texts != [] {
      var n := |texts| - 1;
      NonEmptyIsKept(texts[..n]);
      assert texts == texts[..n] + [texts[n]];
      NonEmptyConcat(texts[..n], [texts[n]]);
      NonEmptySingleton(texts[n]);
    }
  }

  lemma NonEmptySingleton(t: string)
    ensures NonEmpty([t]) == if t == "" then [] else [t]
  {
    assert NonEmpty([t][1..]) == [];
  }

  // Decimals.

  predicate IsDigit(c: char) {
    '0' <= c <= '9'
  }

  /** Digits without a leading zero. */
  predicate IsNatural(s: string) {
    s != "" && (forall c :: c in s ==> IsDigit(c)) && (|s| > 1 ==> s[0] != '0')
  }

  function ValueOf(s: string): nat
    requires forall c :: c in s ==> IsDigit(c)
  {
    if s == "" then 0
    else
      var n := |s| - 1;
      assert IsDigit(s[n]);
      10 * ValueOf(s[..n]) + (s[n] as int - '0' as int)
  }

  lemma {:induction false} DigitsReadBack(n: nat)
    ensures IsNatural(Digits(n)) && ValueOf(Digits(n)) == n
    ensures n > 0 ==> Digits(n)[0] != '0'
  {
    if n < 10 {
      assert Digits(n)[..0] == "";
    } else {
      DigitsReadBack(n / 10);
      var init, last := Digits(n / 10), ('0' as int + n % 10) as char;
      assert Digits(n) == init + [last] && Digits(n)[..|init|] == init;
    }
  }

  lemma {:induction false} NaturalPositive(s: string)
    requires IsNatural(s) && s[0] != '0'
    ensures ValueOf(s) > 0
    decreases |s|
  {
    var n := |s| - 1;
    assert s[n] in s;
    if n > 0 {
      assert IsNatural(s[..n]);
      NaturalPositive(s[..n]);
    } else {
      assert s[..n] == "";
    }
  }

  lemma {:induction false} NaturalIsDigits(s: string)
    requires IsNatural(s)
    ensures Digits(ValueOf(s)) == s
    decreases |s|
  {
    var n := |s| - 1;
    assert s[n] in s;
    var d := s[n] as int - '0' as int;
    assert ('0' as int + d) as char == s[n];
    if n == 0 {
      assert s[..n] == "" && s == [s[0]];
    } else {
      assert IsNatural(s[..n]);
      NaturalIsDigits(s[..n]);
      NaturalPositive(s[..n]);
      var v := ValueOf(s[..n]);
      assert ValueOf(s) == 10 * v + d && (10 * v + d) / 10 == v && (10 * v + d) % 10 == d;
      assert s == s[..n] + [s[n]];
    }
  }

  /** An integer as it is written: an optional minus sign, digits, no leading zero, no negative zero. */
  predicate IsNumeral(s: string) {
    IsNatural(s) || (|s| > 1 && s[0] == '-' && IsNatural(s[1..]) && s[1] != '0')
  }

  function NumeralValue(s: string): int
    requires IsNumeral(s)
  {
    if s[0] == '-' then
      assert s[0] in s;
      0 - ValueOf(s[1..])
    else ValueOf(s)
  }

  /** Decimals are read back, and every numeral is the decimal of its value. */
  lemma DecimalReadBack(n: int)
    ensures IsNumeral(Decimal(n)) && NumeralValue(Decimal(n)) == n
  {
    if n < 0 {
      DigitsReadBack(-n);
      assert Decimal(n)[1..] == Digits(-n);
    } else {
      DigitsReadBack(n);
      assert Decimal(n)[0] in Decimal(n);
    }
  }

  lemma NumeralIsDecimal(s: string)
    requires IsNumeral(s)
    ensures Decimal(NumeralValue(s)) == s
  {
    if s[0] == '-' {
      assert s[0] in s;
      NaturalIsDigits(s[1..]);
      NaturalPositive(s[1..]);
      assert s == "-" + s[1..];
    } else {
      NaturalIsDigits(s);
    }
  }

  /** The text an RPC error is reported with. */
  ghost predicate IsRpcErrorText(e: RpcError, text: string) {
    exists code :: IsNumeral(code) && NumeralValue(code) == e.code
                   && text == "A2A RPC error " + code + ": " + e.message
  }

  lemma RpcErrorTextIs(e: RpcError)
    ensures IsRpcErrorText(e, RpcErrorText(e))
  {
    DecimalReadBack(e.code);
    assert RpcErrorText(e) == "A2A RPC error " + Decimal(e.code) + ": " + e.message;
  }

  // Trimming.

  /** The code points with the Unicode property White_Space, which is what Go trims. */
  const WHITE_SPACE: set<int> := {
    0x09, 0x0A, 0x0B, 0x0C, 0x0D, 0x20, 0x85, 0xA0, 0x1680,
    0x2000, 0x2001, 0x2002, 0x2003, 0x2004, 0x2005, 0x2006, 0x2007, 0x2008, 0x2009, 0x200A,
    0x2028, 0x2029, 0x202F, 0x205F, 0x3000
  }

  lemma SpaceIff(c: char)
    ensures IsSpace(c) <==> c as int in WHITE_SPACE
  {
  }

  predicate AllSpace(s: string) {
    forall c :: c in s ==> IsSpace(c)
  }

  lemma {:induction false} TrimLeftIs(a: string, t: string)
    requires AllSpace(a) && (t != "" ==> !IsSpace(t[0]))
    ensures TrimLeft(a + t) == t
    decreases |a|
  {
    if a == "" {
      assert a + t == t;
    } else {
      assert a[0] in a;
      assert (a + t)[0] == a[0] && (a + t)[1..] == a[1..] + t;
      TrimLeftIs(a[1..], t);
    }
  }

  lemma {:induction false} TrimRightIs(t: string, b: string)
    requires AllSpace(b) && (t != "" ==> !IsSpace(t[|t| - 1]))
    ensures TrimRight(t + b) == t
    decreases |b|
  {
    if b == "" {
      assert t + b == t;
    } else {
      var n := |b| - 1;
      assert b[n] in b;
      assert (t + b)[|t + b| - 1] == b[n] && (t + b)[..|t + b| - 1] == t + b[..n];
      TrimRightIs(t, b[..n]);
    }
  }

  /** Trimming gives back any trimmed text from any white space around it. */
  lemma TrimSpaceIs(a: string, t: string, b: string)
    requires AllSpace(a) && AllSpace(b) && Trimmed(t)
    ensures TrimSpace(a + t + b) == t
  {
    if t == "" {
      assert a + t + b == (a + b) + "";
      TrimLeftIs(a + b, "");
    } else {
      assert a + t + b == a + (t + b);
      assert (t + b)[0] == t[0];
      TrimLeftIs(a, t + b);
      TrimRightIs(t, b);
    }
  }

  lemma {:induction false} TrimLeftSplits(s: string) returns (a: string)
    ensures s == a + TrimLeft(s) && AllSpace(a)
    ensures TrimLeft(s) != "" ==> !IsSpace(TrimLeft(s)[0])
    decreases |s|
  {
    if s != "" && IsSpace(s[0]) {
      var rest := TrimLeftSplits(s[1..]);
      a := [s[0]] + rest;
      assert s == [s[0]] + s[1..];
    } else {
      a := "";
    }
  }

  lemma {:induction false} TrimRightSplits(s: string) returns (b: string)
    ensures s == TrimRight(s) + b && AllSpace(b)
    ensures TrimRight(s) != "" ==> !IsSpace(TrimRight(s)[|TrimRight(s)| - 1])
    decreases |s|
  {
    if s != "" && IsSpace(s[|s| - 1]) {
      var n := |s| - 1;
      var rest := TrimRightSplits(s[..n]);
      b := rest + [s[n]];
      assert s == s[..n] + [s[n]];
    } else {
      b := "";
    }
  }

  /** Trimming removes exactly a prefix and a suffix of white space. */
  lemma TrimSpaceSplits(s: string) returns (a: string, b: string)
    ensures s == a + TrimSpace(s) + b
    ensures AllSpace(a) && AllSpace(b) && Trimmed(TrimSpace(s))
  {
    a := TrimLeftSplits(s);
    b := TrimRightSplits(TrimLeft(s));
    assert TrimSpace(s) != "" ==> TrimSpace(s)[0] == TrimLeft(s)[0];
    assert s == a + (TrimSpace(s) + b) == a + TrimSpace(s) + b;
  }
}
