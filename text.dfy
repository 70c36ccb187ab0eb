/** The pieces of Rust's string library the plugin relies on: `str::lines`,
    `str::split_once`, `str::parse::<u64>` and `u64::to_string`, each modelled
    on `seq<char>` with the edge cases of the library. */
module Text {
  import opened Base

  /** Position of the first occurrence of `c` in `s` (`str::find`). */
  function IndexOf(s: string, c: char): (r: Option<nat>)
    ensures r.Some? ==> r.value < |s| && s[r.value] == c && c !in s[..r.value]
    ensures r.None? ==> c !in s
  {
    if s == [] then None
    else if s[0] == c then Some(0)
    else match IndexOf(s[1..], c)
      case None => None
      case Some(k) =>
        assert s[..k + 1] == [s[0]] + s[1..][..k];
        Some(k + 1)
  }

  /** The first occurrence is unique: any position holding `c` with no `c` before it is the one found. */
  lemma {:induction false} IndexOfFirst(s: string, c: char, k: nat)
    requires k < |s| && s[k] == c && c !in s[..k]
    ensures IndexOf(s, c) == Some(k)
  {
    if k > 0 {
      assert s[..k][0] == s[0];
      assert s[1..][..k - 1] == s[..k][1..];
      IndexOfFirst(s[1..], c, k - 1);
    }
  }

  /** `s.split_once(c)`: the text before the first `c` and the text after it. */
  function SplitOnce(s: string, c: char): (r: Option<(string, string)>)
    ensures r.None? <==> c !in s
    ensures r.Some? ==> s == r.value.0 + [c] + r.value.1 && c !in r.value.0
  {
    match IndexOf(s, c)
      case None => None
      case Some(k) =>
        assert s == s[..k] + [c] + s[k + 1..];
        Some((s[..k], s[k + 1..]))
  }

  /** Any decomposition around a first `c` is the one `split_once` returns. */
  lemma SplitOnceAt(a: string, c: char, b: string)
    requires c !in a
    ensures SplitOnce(a + [c] + b, c) == Some((a, b))
  {
    var s := a + [c] + b;
    assert s[..|a|] == a;
    IndexOfFirst(s, c, |a|);
    assert s[|a| + 1..] == b;
  }

  /** A line as `str::lines` yields it: a final "\n" is removed, and then a "\r" just before it. */
  function StripLineEnd(seg: string): string
  {
    if |seg| > 0 && seg[|seg| - 1] == '\r' then seg[..|seg| - 1] else seg
  }

  /** `str::lines`: split after every "\n"; a final segment is produced only when
      non-empty; a "\r" immediately before a "\n" is dropped with it. */
  function Lines(s: string): (r: seq<string>)
    ensures forall i :: 0 <= i < |r| ==> '\n' !in r[i]
    decreases |s|
  {
    if s == [] then []
    else match IndexOf(s, '\n')
      case None => [s]
      case Some(k) =>
        assert '\n' !in StripLineEnd(s[..k]) by {
          assert StripLineEnd(s[..k]) == s[..k] || StripLineEnd(s[..k]) == s[..k][..|s[..k]| - 1];
        }
        [StripLineEnd(s[..k])] + Lines(s[k + 1..])
  }

  /** The lines joined with "\n", without a final newline. */
  function JoinLines(ls: seq<string>): string
  {
    if |ls| == 0 then ""
    else if |ls| == 1 then ls[0]
    else ls[0] + "\n" + JoinLines(ls[1..])
  }

  /** A line `str::lines` reproduces verbatim: non-empty, no newline, not ending in a carriage return. */
  predicate PlainLine(l: string)
  {
    l != "" && '\n' !in l && l[|l| - 1] != '\r'
  }

  /** A line without newline, not ending in a carriage return, followed by "\n", is yielded verbatim. */
  lemma LinesCons(l: string, rest: string)
    requires '\n' !in l && (l == "" || l[|l| - 1] != '\r')
    ensures Lines(l + "\n" + rest) == [l] + Lines(rest)
  {
    var s := l + "\n" + rest;
    assert s[..|l|] == l;
    IndexOfFirst(s, '\n', |l|);
    assert s[|l| + 1..] == rest;
  }

  /** A "\r\n" line ending is removed whole. */
  lemma LinesCrLf(l: string, rest: string)
    requires '\n' !in l
    ensures Lines(l + "\r\n" + rest) == [l] + Lines(rest)
  {
    var s := l + "\r\n" + rest;
    assert s[..|l| + 1] == l + "\r";
    IndexOfFirst(s, '\n', |l| + 1);
    assert s[|l| + 2..] == rest;
    assert (l + "\r")[..|l|] == l;
  }

  /** Splitting joined lines gives back exactly those lines. */
  lemma {:induction false} LinesJoinLines(ls: seq<string>)
    requires forall i :: 0 <= i < |ls| ==> PlainLine(ls[i])
    ensures Lines(JoinLines(ls)) == ls
  {
    if |ls| == 1 {
      assert '\n' !in ls[0];
    } else if |ls| > 1 {
      LinesCons(ls[0], JoinLines(ls[1..]));
      LinesJoinLines(ls[1..]);
      assert ls == [ls[0]] + ls[1..];
    }
  }

  /** A last line with no newline after it is kept whole: a "\r" at its end stays. */
  lemma LinesLast(l: string)
    requires l != [] && '\n' !in l
    ensures Lines(l) == [l]
  {
  }

  /** A final newline after the joined lines changes nothing (`cliphist list` ends its output with one),
      except that a lone newline is one empty line. */
  lemma {:induction false} LinesJoinLinesTerminated(ls: seq<string>)
    requires forall i :: 0 <= i < |ls| ==> PlainLine(ls[i])
    ensures Lines(JoinLines(ls) + "\n") == (if ls == [] then [""] else ls)
  {
    if |ls| == 0 {
      LinesCons("", "");
    } else if |ls| == 1 {
      LinesCons(ls[0], "");
    } else {
      assert JoinLines(ls) + "\n" == ls[0] + "\n" + (JoinLines(ls[1..]) + "\n");
      LinesCons(ls[0], JoinLines(ls[1..]) + "\n");
      LinesJoinLinesTerminated(ls[1..]);
      assert ls == [ls[0]] + ls[1..];
    }
  }

  predicate IsDigit(c: char)
  {
    '0' <= c <= '9'
  }

  predicate AllDigits(s: string)
  {
    forall i :: 0 <= i < |s| ==> IsDigit(s[i])
  }

  function DigitValue(c: char): nat
    requires IsDigit(c)
  {
    c as int - '0' as int
  }

  function DigitChar(d: nat): (c: char)
    requires d < 10
    ensures IsDigit(c) && DigitValue(c) == d
  {
    ('0' as int + d) as char
  }

  /** The number a string of decimal digits denotes, most significant digit first. */
  function DigitsValue(s: string): nat
    requires AllDigits(s)
  {
    if s == [] then 0 else 10 * DigitsValue(s[..|s| - 1]) + DigitValue(s[|s| - 1])
  }

  /** A string of digits contains no other character. */
  lemma DigitsExclude(s: string, c: char)
    requires AllDigits(s) && !IsDigit(c)
    ensures c !in s
  {
    assert forall i :: 0 <= i < |s| ==> s[i] != c;
  }

  /** `n.to_string()`: decimal digits, no sign, no leading zero. */
  function NatToString(n: nat): (r: string)
    ensures r != [] && AllDigits(r) && DigitsValue(r) == n
    ensures r[0] == '0' ==> n == 0 && r == "0"
  {
    if n < 10 then [DigitChar(n)]
    else
      var r := NatToString(n / 10) + [DigitChar(n % 10)];
      assert r[..|r| - 1] == NatToString(n / 10);
      r
  }

  /** `s.parse::<u64>()`: an optional single leading '+', then at least one ASCII
      digit and nothing else, denoting a value no larger than `u64::MAX`. */
  function ParseU64(s: string): (r: Option<u64>)
    ensures r.Some? ==> |s| > 0 && forall i :: 0 <= i < |s| ==> IsDigit(s[i]) || (i == 0 && s[i] == '+')
  {
    var digits := if |s| > 0 && s[0] == '+' then s[1..] else s;
    if digits == [] || !AllDigits(digits) then None
    else if DigitsValue(digits) > U64_MAX then None
    else Some(DigitsValue(digits))
  }

  /** Parsing what `to_string` printed gives the number back, for every `u64`. */
  lemma ParseU64NatToString(n: u64)
    ensures ParseU64(NatToString(n)) == Some(n)
  {
    var s := NatToString(n);
    assert IsDigit(s[0]);
  }

  /** A digit string is accepted exactly when its value fits in 64 bits, and then denotes that value. */
  lemma ParseU64Digits(s: string)
    requires s != [] && AllDigits(s)
    ensures ParseU64(s) == (if DigitsValue(s) <= U64_MAX then Some(DigitsValue(s)) else None)
  {
    assert IsDigit(s[0]);
  }

  /** Rejected: the empty string, a lone '+', and anything with a character that is not a digit
      (after an optional leading '+'). */
  lemma ParseU64Rejects(s: string, i: nat)
    requires i < |s| && !IsDigit(s[i]) && !(i == 0 && s[0] == '+' && |s| > 1)
    ensures ParseU64(s) == None
  {
    if |s| > 0 && s[0] == '+' && i > 0 {
      assert s[1..][i - 1] == s[i];
    }
  }

  /** A decimal number above `u64::MAX` is rejected. */
  lemma ParseU64TooLarge(n: nat)
    requires n > U64_MAX
    ensures ParseU64(NatToString(n)) == None
  {
    var s := NatToString(n);
    assert IsDigit(s[0]);
  }

  /** A single leading '+' before digits is accepted and ignored. */
  lemma ParseU64Plus(d: string)
    requires d != [] && AllDigits(d)
    ensures ParseU64("+" + d) == ParseU64(d)
  {
    assert ("+" + d)[1..] == d;
    assert IsDigit(d[0]);
  }

  lemma ParseU64Empty()
    ensures ParseU64("") == None && ParseU64("+") == None
  {
  }
}
