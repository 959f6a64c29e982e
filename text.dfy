/**
 * The string operations of Go's standard library that the recorder and the
 * renderer rely on: strings.Index / strings.Replace with a count of one,
 * strings.Join, the " " -> "_" regexp replacement used for file names,
 * fmt's %d, and the line splitting of bufio.Scanner with ScanLines that
 * `stringToLines` performs.
 */
module Text {
  import opened Wrappers

  /** `pat` occurs in `s` starting at position `i`. */
  predicate OccursAt(s: string, pat: string, i: nat) {
    i + |pat| <= |s| && s[i..i + |pat|] == pat
  }

  /** No occurrence of `pat` in `s` starts before position `i`. */
  predicate NoneBefore(s: string, pat: string, i: nat) {
    forall j: nat :: j < i ==> !OccursAt(s, pat, j)
  }

  /**
   * An occurrence one position further in `s` is an occurrence in `s[1..]`.
   * Dafny proves it unaided; it is stated separately for the recursion of
   * `IndexOf`.
   */
  lemma OccursAtShift(s: string, pat: string, j: nat)
    requires |s| > 0
    ensures OccursAt(s, pat, j + 1) <==> OccursAt(s[1..], pat, j)
  {
  }

  /** The position of the first occurrence of `pat` in `s` (Go's strings.Index). */
  function IndexOf(s: string, pat: string): (r: Option<nat>)
    ensures r.Some? ==> OccursAt(s, pat, r.value) && NoneBefore(s, pat, r.value)
    ensures r.None? ==> forall j: nat :: !OccursAt(s, pat, j)
    decreases |s|
  {
    if |pat| > |s| then None
    else if s[..|pat|] == pat then Some(0)
    else
      var rest := IndexOf(s[1..], pat);
      assert forall j: nat :: OccursAt(s, pat, j + 1) <==> OccursAt(s[1..], pat, j) by {
        forall j: nat ensures OccursAt(s, pat, j + 1) <==> OccursAt(s[1..], pat, j) {
          OccursAtShift(s, pat, j);
        }
      }
      assert forall j: nat :: OccursAt(s, pat, j) && j > 0 ==> OccursAt(s[1..], pat, j - 1);
      match rest
      case None => None
      case Some(i) => Some(i + 1)
  }

  /**
   * Go's strings.Replace(s, pat, rep, 1): the first occurrence of `pat` is
   * replaced by `rep`; when `pat` does not occur, `s` comes back unchanged.
   */
  function ReplaceFirst(s: string, pat: string, rep: string): (r: string)
    ensures (forall j: nat :: !OccursAt(s, pat, j)) ==> r == s
    ensures forall i: nat :: OccursAt(s, pat, i) && NoneBefore(s, pat, i) ==>
      r == s[..i] + rep + s[i + |pat|..]
  {
    match IndexOf(s, pat)
    case None => s
    case Some(i) =>
      assert forall k: nat :: OccursAt(s, pat, k) && NoneBefore(s, pat, k) ==> k == i;
      s[..i] + rep + s[i + |pat|..]
  }

  /** Go's strings.Join. */
  function Join(parts: seq<string>, sep: string): string {
    if |parts| == 0 then ""
    else if |parts| == 1 then parts[0]
    else parts[0] + sep + Join(parts[1..], sep)
  }

  /** The pieces `f(x)` for each `x` of `xs`, one after the other. */
  function ConcatMap<T>(f: T -> string, xs: seq<T>): string {
    if xs == [] then "" else ConcatMap(f, xs[..|xs| - 1]) + f(xs[|xs| - 1])
  }

  /** One more element adds its piece at the end. */
  lemma ConcatMapSnoc<T>(f: T -> string, xs: seq<T>, i: nat)
    requires i < |xs|
    ensures ConcatMap(f, xs[..i + 1]) == ConcatMap(f, xs[..i]) + f(xs[i])
  {
    assert xs[..i + 1][..i] == xs[..i];
  }

  lemma {:induction false} ConcatMapAppend<T>(f: T -> string, a: seq<T>, b: seq<T>)
    ensures ConcatMap(f, a + b) == ConcatMap(f, a) + ConcatMap(f, b)
    decreases |b|
  {
    if b == [] {
      assert a + b == a;
    } else {
      var b' := b[..|b| - 1];
      assert (a + b)[..|a + b| - 1] == a + b';
      ConcatMapAppend(f, a, b');
    }
  }

  /** An element's piece comes right after the pieces of the elements before it. */
  lemma ConcatMapSplit<T>(f: T -> string, a: seq<T>, x: T, b: seq<T>)
    ensures ConcatMap(f, a + [x] + b) == ConcatMap(f, a) + f(x) + ConcatMap(f, b)
  {
    ConcatMapAppend(f, a + [x], b);
    assert (a + [x])[..|a|] == a;
  }

  /** Sequences whose elements have the same pieces give the same text. */
  lemma {:induction false} ConcatMapCongruent<T, U>(f: T -> string, g: U -> string, xs: seq<T>, ys: seq<U>)
    requires |xs| == |ys|
    requires forall i :: 0 <= i < |xs| ==> f(xs[i]) == g(ys[i])
    ensures ConcatMap(f, xs) == ConcatMap(g, ys)
  {
    if xs != [] {
      var n := |xs| - 1;
      ConcatMapCongruent(f, g, xs[..n], ys[..n]);
    }
  }

  /** regexp.MustCompile(" ").ReplaceAllString(s, "_"). */
  function ReplaceSpaces(s: string): (r: string)
    ensures |r| == |s|
    ensures forall i :: 0 <= i < |s| ==> r[i] == (if s[i] == ' ' then '_' else s[i])
    ensures ' ' !in r
  {
    if s == [] then []
    else [if s[0] == ' ' then '_' else s[0]] + ReplaceSpaces(s[1..])
  }

  // ---------------------------------------------------------------------
  // fmt's %d on an int

  predicate IsDigit(c: char) { '0' <= c <= '9' }

  function DigitChar(d: nat): (c: char)
    requires d < 10
    ensures IsDigit(c) && c as int - '0' as int == d
  {
    "0123456789"[d]
  }

  /** The decimal digits of `n`, most significant first, without leading zeros. */
  function Digits(n: nat): (r: string)
    ensures |r| > 0 && forall i :: 0 <= i < |r| ==> IsDigit(r[i])
    ensures r[0] == '0' ==> n == 0
  {
    if n < 10 then [DigitChar(n)] else Digits(n / 10) + [DigitChar(n % 10)]
  }

  /** fmt.Sprintf("%d", n). */
  function Decimal(n: int): (r: string)
    ensures |r| > 0 && (r[0] == '-' <==> n < 0)
    ensures forall i :: (if n < 0 then 1 else 0) <= i < |r| ==> IsDigit(r[i])
  {
    if n < 0 then "-" + Digits(-n) else Digits(n)
  }

  /** The value of a string of decimal digits. */
  function DigitsValue(s: string): nat
    requires forall i :: 0 <= i < |s| ==> IsDigit(s[i])
  {
    if s == [] then 0
    else
      assert IsDigit(s[|s| - 1]);
      DigitsValue(s[..|s| - 1]) * 10 + (s[|s| - 1] as int - '0' as int)
  }

  /** Reads back what %d printed: an optional '-' and digits. */
  function DecimalValue(s: string): int
    requires |s| > 0 && s[0] == '-' ==> forall i :: 1 <= i < |s| ==> IsDigit(s[i])
    requires |s| > 0 && s[0] != '-' ==> forall i :: 0 <= i < |s| ==> IsDigit(s[i])
  {
    if |s| > 0 && s[0] == '-' then -(DigitsValue(s[1..]) as int) else DigitsValue(s)
  }

  lemma {:induction false} DigitsRoundTrip(n: nat)
    ensures DigitsValue(Digits(n)) == n
  {
    if n >= 10 {
      DigitsRoundTrip(n / 10);
      var d := Digits(n);
      assert d[..|d| - 1] == Digits(n / 10);
    }
  }

  /** The status code printed by %d reads back as the same integer. */
  lemma DecimalRoundTrip(n: int)
    ensures DecimalValue(Decimal(n)) == n
  {
    if n < 0 {
      DigitsRoundTrip(-n);
      assert Decimal(n)[1..] == Digits(-n);
    } else {
      DigitsRoundTrip(n);
    }
  }

  // ---------------------------------------------------------------------
  // bufio.Scanner with the ScanLines split function

  /** The position of the first `c` in `s`. */
  function FirstIndexOf(s: string, c: char): (r: Option<nat>)
    ensures r.Some? ==> r.value < |s| && s[r.value] == c && c !in s[..r.value]
    ensures r.None? ==> c !in s
  {
    if s == [] then None
    else if s[0] == c then Some(0)
    else
      match FirstIndexOf(s[1..], c)
      case None => None
      case Some(i) =>
        assert s[..i + 1] == [s[0]] + s[1..][..i];
        Some(i + 1)
  }

  /** ScanLines drops one carriage return at the end of each token. */
  function DropCR(t: string): (r: string)
    ensures |t| > 0 && t[|t| - 1] == '\r' ==> t == r + "\r"
    ensures !(|t| > 0 && t[|t| - 1] == '\r') ==> r == t
  {
    if |t| > 0 && t[|t| - 1] == '\r' then t[..|t| - 1] else t
  }

  /**
   * One call of Scan with ScanLines: the next token and the text after it.
   * The token is the text up to the first newline, or all of `s` when there
   * is none, with one trailing '\r' removed; the newline itself is consumed.
   */
  function ScanToken(s: string): (r: (string, string))
    requires s != []
    ensures |r.1| < |s|
    ensures '\n' !in r.0
  {
    match FirstIndexOf(s, '\n')
    case None => (DropCR(s), [])
    case Some(i) => (DropCR(s[..i]), s[i + 1..])
  }

  /**
   * The tokens a bufio.Scanner with ScanLines yields for `s`: the text
   * between newlines and a final unterminated line if it is non-empty.
   */
  function Lines(s: string): (r: seq<string>)
    ensures s == [] <==> r == []
    ensures forall k :: 0 <= k < |r| ==> '\n' !in r[k]
    decreases |s|
  {
    if s == [] then []
    else
      var (token, rest) := ScanToken(s);
      [token] + Lines(rest)
  }

  /** The loop of `stringToLines`: scan token after token and append each. */
  method StringToLines(s: string) returns (lines: seq<string>)
    ensures lines == Lines(s)
  {
    lines := [];
    var rest := s;
    while rest != []
      invariant lines + Lines(rest) == Lines(s)
      decreases |rest|
    {
      var (token, next) := ScanToken(rest);
      assert (lines + [token]) + Lines(next) == lines + Lines(rest);
      lines, rest := lines + [token], next;
    }
    assert lines + Lines(rest) == lines;
  }

  /** The newline that a text ending in '\n' loses when it is split and re-joined. */
  function FinalNewline(s: string): string {
    if |s| > 0 && s[|s| - 1] == '\n' then "\n" else ""
  }

  /**
   * A character missing from a text is missing from each of its slices.
   * Dafny proves it unaided; it is called where the slice is formed so that
   * the fact is at hand without a quantifier search.
   */
  lemma NotInSlice(s: string, c: char, a: nat, b: nat)
    requires a <= b <= |s| && c !in s
    ensures c !in s[a..b]
  {
  }

  /** Appending a part to a non-empty list adds one separator and that part at the end. */
  lemma {:induction false} JoinSnoc(parts: seq<string>, x: string, sep: string)
    requires parts != []
    ensures Join(parts + [x], sep) == Join(parts, sep) + sep + x
  {
    if |parts| == 1 {
      assert (parts + [x])[1..] == [x];
    } else {
      assert (parts + [x])[1..] == parts[1..] + [x];
      JoinSnoc(parts[1..], x, sep);
    }
  }

  /**
   * The round trip for a text whose first newline is at `i`, given that its
   * lines are the text before `i` followed by the lines of the text after it.
   * Dafny proves it unaided; it is stated separately so that the sequence
   * algebra runs in a small context of its own instead of beside the
   * unfolding of `Lines` in `LinesJoinRoundTrip`, where it was costly.
   */
  lemma RoundTripCons(s: string, i: nat, lines: seq<string>, restLines: seq<string>)
    requires i < |s| && s[i] == '\n' && lines == [s[..i]] + restLines
    requires i + 1 == |s| ==> restLines == []
    requires i + 1 < |s| ==> restLines != [] && Join(restLines, "\n") + FinalNewline(s[i + 1..]) == s[i + 1..]
    ensures Join(lines, "\n") + FinalNewline(s) == s
  {
  }

  /**
   * Splitting into lines loses nothing but carriage returns and a final
   * newline: joining the lines with "\n" gives the text back.
   */
  lemma {:induction false} LinesJoinRoundTrip(s: string)
    requires '\r' !in s
    ensures Join(Lines(s), "\n") + FinalNewline(s) == s
    decreases |s|
  {
    if s != [] {
      var r := FirstIndexOf(s, '\n');
      if r.None? {
        assert ScanToken(s) == (s, []);
      } else {
        var i := r.value;
        assert ScanToken(s) == (s[..i], s[i + 1..]) by {
          NotInSlice(s, '\r', 0, i);
        }
        if i + 1 < |s| {
          NotInSlice(s, '\r', i + 1, |s|);
          LinesJoinRoundTrip(s[i + 1..]);
        }
        RoundTripCons(s, i, Lines(s), Lines(s[i + 1..]));
      }
    }
  }
}
