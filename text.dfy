/**
  String helpers the report uses: JavaScript's rendering of integers inside
  template literals, `String.prototype.split('\n')`, `startsWith`, and the
  concatenation of a sequence of strings (what repeated `+=` builds).
*/
module Text {

  predicate IsDigit(c: char) {
    '0' <= c <= '9'
  }

  predicate AllDigits(s: string) {
    forall i :: 0 <= i < |s| ==> IsDigit(s[i])
  }

  function DigitChar(d: nat): (c: char)
    requires d < 10
    ensures IsDigit(c) && DigitValue(c) == d
  {
    ('0' as int + d) as char
  }

  function DigitValue(c: char): nat
    requires IsDigit(c)
  {
    c as int - '0' as int
  }

  /** Decimal digits of `n`, most significant first, as `${n}` prints a
      non-negative integer. */
  function NatToString(n: nat): (s: string)
    ensures |s| >= 1 && AllDigits(s)
    ensures |s| > 1 ==> s[0] != '0'
  {
    if n < 10 then [DigitChar(n)] else NatToString(n / 10) + [DigitChar(n % 10)]
  }

  /** `${i}` for an integer `i`: a minus sign, then the digits of |i|. */
  function IntToString(i: int): (s: string)
    ensures |s| >= 1
    ensures i >= 0 <==> s[0] != '-'
  {
    if i < 0 then "-" + NatToString(-i) else NatToString(i)
  }

  /** Reads a string of decimal digits back as a number. */
  function ParseNat(s: string): nat
    requires AllDigits(s)
  {
    if s == [] then 0 else 10 * ParseNat(s[..|s| - 1]) + DigitValue(s[|s| - 1])
  }

  /** Reads an optional minus sign followed by digits back as a number. */
  function ParseInt(s: string): int
    requires |s| >= 1
    requires s[0] == '-' ==> AllDigits(s[1..])
    requires s[0] != '-' ==> AllDigits(s)
  {
    if s[0] == '-' then 0 - ParseNat(s[1..]) as int else ParseNat(s)
  }

  /** Printing a natural number and reading it back gives the number. */
  lemma {:induction false} ParseNatToString(n: nat)
    ensures ParseNat(NatToString(n)) == n
  {
    if n >= 10 {
      var s := NatToString(n);
      assert s[..|s| - 1] == NatToString(n / 10);
      ParseNatToString(n / 10);
    }
  }

  /** Printing an integer and reading it back gives the integer. */
  lemma ParseIntToString(i: int)
    ensures var s := IntToString(i); (s[0] == '-' ==> AllDigits(s[1..])) && (s[0] != '-' ==> AllDigits(s))
    ensures ParseInt(IntToString(i)) == i
  {
    var s := IntToString(i);
    if i < 0 {
      assert s[1..] == NatToString(-i);
      ParseNatToString(-i);
    } else {
      ParseNatToString(i);
    }
  }

  /** `s.startsWith(prefix)` */
  predicate StartsWith(s: string, prefix: string) {
    |prefix| <= |s| && s[..|prefix|] == prefix
  }

  lemma StartsWithSelf(p: string, a: string)
    ensures StartsWith(p + a, p)
  {
    assert (p + a)[..|p|] == p;
  }

  lemma StartsWithMore(s: string, p: string, a: string)
    requires StartsWith(s, p)
    ensures StartsWith(s + a, p)
  {
    assert (s + a)[..|p|] == s[..|p|];
  }

  /** `s.split('\n')`: the pieces between newlines, at least one piece
      (the empty string splits into `[""]`). */
  function Split(s: string): (lines: seq<string>)
    ensures |lines| >= 1
    ensures forall k :: 0 <= k < |lines| ==> '\n' !in lines[k]
  {
    if s == [] then [""]
    else
      var rest := Split(s[1..]);
      if s[0] == '\n' then [""] + rest
      else [[s[0]] + rest[0]] + rest[1..]
  }

  /** `lines.join('\n')` */
  function Join(lines: seq<string>): string {
    if |lines| == 0 then ""
    else if |lines| == 1 then lines[0]
    else lines[0] + "\n" + Join(lines[1..])
  }

  /** Splitting at newlines and joining with newlines gives back the text. */
  lemma {:induction false} JoinSplit(s: string)
    ensures Join(Split(s)) == s
  {
    if s != [] {
      var rest := Split(s[1..]);
      JoinSplit(s[1..]);
      if s[0] == '\n' {
        assert ([""] + rest)[1..] == rest;
        assert s == [s[0]] + s[1..];
      } else if |rest| == 1 {
        assert s == [s[0]] + s[1..];
      } else {
        var lines := [[s[0]] + rest[0]] + rest[1..];
        assert lines[1..] == rest[1..];
        assert Join(rest) == rest[0] + "\n" + Join(rest[1..]);
        assert s == [s[0]] + s[1..];
      }
    }
  }

  /** Splitting text that starts with a newline-free piece `x`. */
  lemma {:induction false} SplitPrefix(x: string, y: string)
    requires '\n' !in x
    ensures Split(x + y) == [x + Split(y)[0]] + Split(y)[1..]
  {
    if x != [] {
      assert (x + y)[1..] == x[1..] + y;
      assert (x + y)[0] == x[0];
      SplitPrefix(x[1..], y);
      assert [x[0]] + (x[1..] + Split(y)[0]) == x + Split(y)[0];
    } else {
      var r := Split(y);
      assert x + y == y;
      assert x + r[0] == r[0];
      assert r == [r[0]] + r[1..];
    }
  }

  /** Joining newline-free lines and splitting again gives back the lines. */
  lemma {:induction false} SplitJoin(lines: seq<string>)
    requires |lines| >= 1
    requires forall k :: 0 <= k < |lines| ==> '\n' !in lines[k]
    ensures Split(Join(lines)) == lines
  {
    if |lines| == 1 {
      SplitPrefix(lines[0], "");
      assert lines[0] + "" == lines[0];
    } else {
      var rest := Join(lines[1..]);
      SplitJoin(lines[1..]);
      assert Join(lines) == lines[0] + ("\n" + rest);
      SplitPrefix(lines[0], "\n" + rest);
      assert ("\n" + rest)[1..] == rest;
      assert Split("\n" + rest) == [""] + lines[1..];
      assert lines[0] + "" == lines[0];
      assert lines == [lines[0]] + lines[1..];
    }
  }

  /** The text built by appending the strings of `parts` in order. */
  function Concat(parts: seq<string>): string {
    if parts == [] then "" else Concat(parts[..|parts| - 1]) + parts[|parts| - 1]
  }

  lemma {:induction false} ConcatAppend(parts: seq<string>, last: string)
    ensures Concat(parts + [last]) == Concat(parts) + last
  {
    assert (parts + [last])[..|parts|] == parts;
  }

  lemma {:induction false} ConcatSplit(a: seq<string>, b: seq<string>)
    ensures Concat(a + b) == Concat(a) + Concat(b)
  {
    if b == [] {
      assert a + b == a;
    } else {
      var b' := b[..|b| - 1];
      assert a + b == (a + b') + [b[|b| - 1]];
      ConcatAppend(a + b', b[|b| - 1]);
      ConcatSplit(a, b');
      ConcatAppend(b', b[|b| - 1]);
      assert b == b' + [b[|b| - 1]];
    }
  }

  /** `f` applied to each element, in order. */
  function MapSeq<T>(xs: seq<T>, f: T -> string): seq<string> {
    seq(|xs|, k requires 0 <= k < |xs| => f(xs[k]))
  }

  lemma MapSeqSnoc<T>(xs: seq<T>, i: nat, f: T -> string)
    requires i < |xs|
    ensures MapSeq(xs[..i + 1], f) == MapSeq(xs[..i], f) + [f(xs[i])]
  {
  }

  /** `s` written `n` times in a row. */
  function Repeat(s: string, n: nat): string {
    if n == 0 then "" else Repeat(s, n - 1) + s
  }

  /** Each line followed by a newline, concatenated, is the joined text plus
      a final newline. */
  function Terminated(lines: seq<string>): seq<string> {
    seq(|lines|, k requires 0 <= k < |lines| => lines[k] + "\n")
  }

  lemma {:induction false} ConcatTerminated(lines: seq<string>)
    requires |lines| >= 1
    ensures Concat(Terminated(lines)) == Join(lines) + "\n"
  {
    var n := |lines|;
    if n == 1 {
      assert Terminated(lines) == [] + [lines[0] + "\n"];
      ConcatAppend([], lines[0] + "\n");
    } else {
      ConcatTerminated(lines[1..]);
      assert Terminated(lines) == [lines[0] + "\n"] + Terminated(lines[1..]);
      ConcatSplit([lines[0] + "\n"], Terminated(lines[1..]));
      ConcatAppend([], lines[0] + "\n");
      assert [] + [lines[0] + "\n"] == [lines[0] + "\n"];
    }
  }
}
