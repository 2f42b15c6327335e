/** The pieces of .NET string behaviour that Channel.ProcessReply relies on:
    `char.IsWhiteSpace` and `String.Split()` with no separators (used on the
    names list), `String.IndexOf(char)` and `Substring` (used to cut the nick
    out of a `nick!user@host` prefix) and `int.TryParse` with the default
    `NumberStyles.Integer` (used to recognise numeric reply codes). */
module Strings {

  datatype Option<T> = None | Some(value: T)

  // ---------------------------------------------------------------------
  // char.IsWhiteSpace and String.Split()
  // ---------------------------------------------------------------------

  /** `char.IsWhiteSpace`: the Unicode space, line and paragraph separators
      plus the control characters U+0009..U+000D and U+0085. */
  predicate IsWhiteSpace(c: char) {
    ('\t' <= c <= '\r') || c == ' ' || c == '\U{85}' || c == '\U{A0}' || c == '\U{1680}'
    || ('\U{2000}' <= c <= '\U{200A}') || c == '\U{2028}' || c == '\U{2029}'
    || c == '\U{202F}' || c == '\U{205F}' || c == '\U{3000}'
  }

  predicate NoWhiteSpace(s: string) {
    forall i :: 0 <= i < |s| ==> !IsWhiteSpace(s[i])
  }

  /** `s.Split()`: every single white-space character separates two tokens,
      so two separators in a row give an empty token and the empty string
      gives one empty token. */
  function Split(s: string): (tokens: seq<string>)
    ensures |tokens| >= 1
    ensures forall i :: 0 <= i < |tokens| ==> NoWhiteSpace(tokens[i])
  {
    if s == [] then [""]
    else
      var rest := Split(s[1..]);
      if IsWhiteSpace(s[0]) then [""] + rest
      else [[s[0]] + rest[0]] + rest[1..]
  }

  /** The tokens written back with one separator between neighbours. */
  function JoinWith(tokens: seq<string>, sep: char): string {
    if |tokens| == 0 then ""
    else if |tokens| == 1 then tokens[0]
    else tokens[0] + [sep] + JoinWith(tokens[1..], sep)
  }

  /** The white-space characters of `s`, in order: the separators `Split` cuts at. */
  function Seps(s: string): (seps: string)
    ensures forall i :: 0 <= i < |seps| ==> IsWhiteSpace(seps[i])
  {
    if s == [] then []
    else (if IsWhiteSpace(s[0]) then [s[0]] else []) + Seps(s[1..])
  }

  /** The tokens written back with the i-th separator between token i and token i + 1. */
  function Interleave(tokens: seq<string>, seps: string): string
    requires |tokens| == |seps| + 1
  {
    if seps == [] then tokens[0]
    else tokens[0] + [seps[0]] + Interleave(tokens[1..], seps[1..])
  }

  /** Putting a character in front of the first token puts it in front of the whole text. */
  lemma {:induction false} InterleaveExtendFirst(c: char, tokens: seq<string>, seps: string)
    requires |tokens| == |seps| + 1
    ensures Interleave([[c] + tokens[0]] + tokens[1..], seps) == [c] + Interleave(tokens, seps)
  {
    var tokens' := [[c] + tokens[0]] + tokens[1..];
    if seps != [] {
      assert tokens'[1..] == tokens[1..];
      assert [c] + tokens[0] + [seps[0]] + Interleave(tokens[1..], seps[1..])
          == [c] + (tokens[0] + [seps[0]] + Interleave(tokens[1..], seps[1..]));
    }
  }

  /** `Split` is lossless for every input: it cuts `s` at each of its white-space
      characters, one more token than separators, and the tokens written back
      between those separators give `s` again. With the contract of `Split`
      (no token holds white space) this fixes the result of `Split` completely. */
  lemma {:induction false} SplitInterleave(s: string)
    ensures |Split(s)| == |Seps(s)| + 1
    ensures Interleave(Split(s), Seps(s)) == s
  {
    if s != [] {
      var rest := Split(s[1..]);
      SplitInterleave(s[1..]);
      if IsWhiteSpace(s[0]) {
        assert Seps(s) == [s[0]] + Seps(s[1..]);
        assert ([""] + rest)[1..] == rest;
        assert Interleave(Split(s), Seps(s)) == "" + [s[0]] + s[1..];
        assert s == [s[0]] + s[1..];
      } else {
        assert Seps(s) == Seps(s[1..]);
        InterleaveExtendFirst(s[0], rest, Seps(s[1..]));
        assert s == [s[0]] + s[1..];
      }
    }
  }

  /** Splitting a word glued to the front of a string extends the first token. */
  lemma {:induction false} SplitAfterWord(w: string, s: string)
    requires NoWhiteSpace(w)
    ensures Split(w + s) == [w + Split(s)[0]] + Split(s)[1..]
  {
    if w != [] {
      assert (w + s)[1..] == w[1..] + s;
      SplitAfterWord(w[1..], s);
      assert [w[0]] + (w[1..] + Split(s)[0]) == w + Split(s)[0];
    } else {
      var tokens := Split(s);
      assert w + s == s && w + tokens[0] == tokens[0];
      assert [tokens[0]] + tokens[1..] == tokens;
    }
  }

  /** Split undoes JoinWith when the separator is white space and no token holds any. */
  lemma {:induction false} SplitJoinWith(tokens: seq<string>, sep: char)
    requires |tokens| >= 1 && IsWhiteSpace(sep)
    requires forall i :: 0 <= i < |tokens| ==> NoWhiteSpace(tokens[i])
    ensures Split(JoinWith(tokens, sep)) == tokens
  {
    if |tokens| == 1 {
      SplitAfterWord(tokens[0], "");
      assert tokens[0] + "" == tokens[0];
    } else {
      var rest := JoinWith(tokens[1..], sep);
      SplitJoinWith(tokens[1..], sep);
      assert Split([sep] + rest) == [""] + tokens[1..] by {
        assert ([sep] + rest)[1..] == rest;
      }
      assert tokens[0] + [sep] + rest == tokens[0] + ([sep] + rest);
      SplitAfterWord(tokens[0], [sep] + rest);
      assert tokens[0] + "" == tokens[0];
      assert [tokens[0]] + tokens[1..] == tokens;
    }
  }

  /** JoinWith undoes Split when `sep` is the only white space in `s`. */
  lemma {:induction false} JoinWithSplit(s: string, sep: char)
    requires forall i :: 0 <= i < |s| && IsWhiteSpace(s[i]) ==> s[i] == sep
    ensures JoinWith(Split(s), sep) == s
  {
    if s != [] {
      var rest := Split(s[1..]);
      JoinWithSplit(s[1..], sep);
      if IsWhiteSpace(s[0]) {
        assert ([""] + rest)[1..] == rest;
        assert s == [sep] + s[1..];
      } else {
        var first := [s[0]] + rest[0];
        var tokens := [first] + rest[1..];
        if |rest| == 1 {
          assert rest == [rest[0]];
          assert s == [s[0]] + s[1..];
        } else {
          assert tokens[1..] == rest[1..];
          assert s == [s[0]] + s[1..];
        }
      }
    }
  }

  // ---------------------------------------------------------------------
  // String.IndexOf(char)
  // ---------------------------------------------------------------------

  /** `s.IndexOf(c)`: the first position of `c` in `s`, or -1. */
  function IndexOf(s: string, c: char): (i: int)
    ensures -1 <= i < |s|
    ensures i == -1 <==> c !in s
    ensures 0 <= i ==> s[i] == c && c !in s[..i]
  {
    if s == [] then -1
    else if s[0] == c then 0
    else
      var k := IndexOf(s[1..], c);
      if k == -1 then -1
      else
        assert s[..k + 1] == [s[0]] + s[1..][..k];
        k + 1
  }

  // ---------------------------------------------------------------------
  // int.TryParse(s, out code) with NumberStyles.Integer
  // ---------------------------------------------------------------------

  const Int32Min: int := -0x8000_0000
  const Int32Max: int := 0x7FFF_FFFF

  /** The white space number parsing skips around a number: U+0009..U+000D and U+0020. */
  predicate IsNumberWhite(c: char) {
    ('\t' <= c <= '\r') || c == ' '
  }

  predicate IsDigit(c: char) {
    '0' <= c <= '9'
  }

  predicate AllDigits(s: string) {
    forall i :: 0 <= i < |s| ==> IsDigit(s[i])
  }

  function TrimStart(s: string): string {
    if s != [] && IsNumberWhite(s[0]) then TrimStart(s[1..]) else s
  }

  function TrimEnd(s: string): string {
    if s != [] && IsNumberWhite(s[|s| - 1]) then TrimEnd(s[..|s| - 1]) else s
  }

  /** The value of a run of decimal digits, most significant first. */
  function DigitsValue(ds: string): nat
    requires AllDigits(ds)
  {
    if ds == [] then 0
    else DigitsValue(ds[..|ds| - 1]) * 10 + (ds[|ds| - 1] as int - '0' as int)
  }

  /** `int.TryParse(s, out v)`: optional surrounding white space, an optional
      `+` or `-`, then one or more decimal digits whose value fits in 32 bits. */
  function TryParseInt32(s: string): (v: Option<int>)
    ensures v.Some? ==> Int32Min <= v.value <= Int32Max
  {
    var t := TrimEnd(TrimStart(s));
    var negative := t != [] && t[0] == '-';
    var body := if t != [] && (t[0] == '-' || t[0] == '+') then t[1..] else t;
    if body == [] || !AllDigits(body) then None
    else
      var magnitude: int := DigitsValue(body);
      var value: int := if negative then -magnitude else magnitude;
      if Int32Min <= value <= Int32Max then Some(value) else None
  }

  /** The canonical decimal text of a natural number. */
  function DecimalString(n: nat): (s: string)
    ensures |s| >= 1 && AllDigits(s)
  {
    var d := ('0' as int + n % 10) as char;
    if n < 10 then [d] else DecimalString(n / 10) + [d]
  }

  lemma {:induction false} DecimalStringValue(n: nat)
    ensures DigitsValue(DecimalString(n)) == n
  {
    if n >= 10 {
      var s := DecimalString(n);
      assert s[..|s| - 1] == DecimalString(n / 10);
      DecimalStringValue(n / 10);
    }
  }

  /** int.TryParse reads back every non-negative 32-bit value from its decimal text. */
  lemma TryParseDecimalString(n: nat)
    requires n <= Int32Max
    ensures TryParseInt32(DecimalString(n)) == Some(n)
  {
    var s := DecimalString(n);
    assert TrimStart(s) == s;
    assert TrimEnd(s) == s;
    DecimalStringValue(n);
  }

  /** A string holding a character that is neither a digit, a sign nor
      number white space is never a number (so "JOIN", "PRIVMSG" and "QUIT"
      do not reach the numeric reply table). */
  lemma TryParseRejectsLetters(s: string, k: nat)
    requires k < |s|
    requires !IsDigit(s[k]) && !IsNumberWhite(s[k]) && s[k] != '-' && s[k] != '+'
    ensures TryParseInt32(s) == None
  {
    var t1 := TrimStart(s);
    var t := TrimEnd(t1);
    // s[k] survives both trims, because trimming only drops number white space
    var k1 := k - (|s| - |t1|);
    TrimStartKeeps(s, k);
    TrimEndKeeps(t1, k1);
    if t != [] && (t[0] == '-' || t[0] == '+') {
      assert k1 > 0;
      assert t[1..][k1 - 1] == s[k];
    } else {
      assert t[k1] == s[k];
    }
  }

  /** Trimming the front drops only leading number white space. */
  lemma {:induction false} TrimStartKeeps(s: string, k: nat)
    requires k < |s| && !IsNumberWhite(s[k])
    ensures |s| - |TrimStart(s)| <= k
    ensures TrimStart(s)[k - (|s| - |TrimStart(s)|)] == s[k]
  {
    if s != [] && IsNumberWhite(s[0]) {
      TrimStartKeeps(s[1..], k - 1);
    }
  }

  /** Trimming the back drops only trailing number white space. */
  lemma {:induction false} TrimEndKeeps(s: string, k: nat)
    requires k < |s| && !IsNumberWhite(s[k])
    ensures k < |TrimEnd(s)| && TrimEnd(s)[k] == s[k]
  {
    if s != [] && IsNumberWhite(s[|s| - 1]) {
      TrimEndKeeps(s[..|s| - 1], k);
    }
  }
}
