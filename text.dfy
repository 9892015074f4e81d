/** The few string operations the filters use: `str.split(sep)` with a
    one-character separator, `str.rstrip()` and `str.startswith(c)` as
    Python defines them; `str.lower()` and the substitution of the pattern
    `\(\d(\.\d+)?\)` by the empty string (vape/insilico_filter.py:4)
    restricted to ASCII, so letters other than A-Z are not lowered and
    `\d` matches only the digits 0-9. */
module Text {
  import opened Outcomes

  /** `s.split(sep)`: the pieces between separators, empty pieces included;
      never an empty list. */
  function Split(s: string, sep: char): (parts: seq<string>)
    ensures |parts| >= 1
    ensures forall k :: 0 <= k < |parts| ==> sep !in parts[k]
    decreases |s|
  {
    if s == [] then [""]
    else
      var rest := Split(s[1..], sep);
      if s[0] == sep then [""] + rest
      else [[s[0]] + rest[0]] + rest[1..]
  }

  /** `sep.join(parts)`, the inverse of Split. */
  function Join(parts: seq<string>, sep: char): string
    requires |parts| >= 1
    decreases |parts|
  {
    if |parts| == 1 then parts[0] else parts[0] + [sep] + Join(parts[1..], sep)
  }

  /** Joining the pieces of a split gives back the string. */
  lemma {:induction false} JoinSplit(s: string, sep: char)
    ensures Join(Split(s, sep), sep) == s
    decreases |s|
  {
    if s != [] {
      JoinSplit(s[1..], sep);
      var rest := Split(s[1..], sep);
      if s[0] != sep {
        if |rest| == 1 {
          assert Join(Split(s, sep), sep) == [s[0]] + rest[0];
        } else {
          assert rest == [rest[0]] + rest[1..];
          assert Join(rest, sep) == rest[0] + [sep] + Join(rest[1..], sep);
          var parts := Split(s, sep);
          assert parts[1..] == rest[1..];
          assert Join(parts, sep) == ([s[0]] + rest[0]) + [sep] + Join(rest[1..], sep);
        }
      } else {
        var parts := Split(s, sep);
        assert parts[1..] == rest;
      }
    }
  }

  /** A separator-free prefix sticks to the first piece of what follows it. */
  lemma {:induction false} SplitSeparatorFreePrefix(w: string, t: string, sep: char)
    requires sep !in w
    ensures Split(w + t, sep) == [w + Split(t, sep)[0]] + Split(t, sep)[1..]
    decreases |w|
  {
    if w != [] {
      assert (w + t)[1..] == w[1..] + t;
      SplitSeparatorFreePrefix(w[1..], t, sep);
      assert [w[0]] + (w[1..] + Split(t, sep)[0]) == w + Split(t, sep)[0];
    } else {
      assert w + t == t;
      var p := Split(t, sep);
      assert p == [p[0]] + p[1..];
      assert w + p[0] == p[0];
    }
  }

  /** A string without the separator splits into itself. */
  lemma SplitWithoutSeparator(s: string, sep: char)
    requires sep !in s
    ensures Split(s, sep) == [s]
  {
    SplitSeparatorFreePrefix(s, "", sep);
    assert s + "" == s;
  }

  /** Splitting the join of separator-free pieces gives back the pieces. */
  lemma {:induction false} SplitJoin(parts: seq<string>, sep: char)
    requires |parts| >= 1
    requires forall k :: 0 <= k < |parts| ==> sep !in parts[k]
    ensures Split(Join(parts, sep), sep) == parts
    decreases |parts|
  {
    if |parts| == 1 {
      SplitWithoutSeparator(parts[0], sep);
    } else {
      var tail := Join(parts[1..], sep);
      SplitJoin(parts[1..], sep);
      assert parts[0] + [sep] + tail == parts[0] + ([sep] + tail);
      SplitSeparatorFreePrefix(parts[0], [sep] + tail, sep);
      assert ([sep] + tail)[1..] == tail;
      var pieces := Split([sep] + tail, sep);
      assert pieces == [""] + parts[1..];
      assert pieces[0] == "" && pieces[1..] == parts[1..];
      assert parts[0] + pieces[0] == parts[0];
      assert parts == [parts[0]] + parts[1..];
    }
  }

  /** `c.lower()` for ASCII letters; every other character is kept. */
  function LowerChar(c: char): char {
    if 'A' <= c <= 'Z' then (c as int + 32) as char else c
  }

  predicate IsUpper(c: char) { 'A' <= c <= 'Z' }

  /** `s.lower()` on the ASCII letters. */
  function Lower(s: string): (r: string)
    ensures |r| == |s|
    ensures forall k :: 0 <= k < |s| ==> r[k] == LowerChar(s[k]) && !IsUpper(r[k])
  {
    seq(|s|, k requires 0 <= k < |s| => LowerChar(s[k]))
  }

  /** The characters `str.isspace()` accepts, which `str.rstrip()` removes. */
  predicate IsSpace(c: char) {
    var n := c as int;
    (9 <= n <= 13) || (28 <= n <= 32) || n == 0x85 || n == 0xA0 || n == 0x1680
    || (0x2000 <= n <= 0x200A) || n == 0x2028 || n == 0x2029 || n == 0x202F
    || n == 0x205F || n == 0x3000
  }

  /** `s.rstrip()`: the longest prefix of `s` that does not end in white space. */
  function RStrip(s: string): (r: string)
    ensures r <= s
    ensures r == [] || !IsSpace(r[|r| - 1])
    ensures forall k :: |r| <= k < |s| ==> IsSpace(s[k])
    decreases |s|
  {
    if s != [] && IsSpace(s[|s| - 1]) then RStrip(s[..|s| - 1]) else s
  }

  /** `s.startswith(c)` for a one-character prefix. */
  predicate StartsWith(s: string, c: char) {
    |s| > 0 && s[0] == c
  }

  /** The tab-separated columns of a table line: `line.rstrip().split('\t')`. */
  function Columns(line: string): (cols: seq<string>)
    ensures |cols| >= 1
  {
    Split(RStrip(line), '\t')
  }

  /** An ASCII decimal digit; Python's `\d` also accepts the other
      Unicode decimal digits, which this model does not. */
  predicate IsDigit(c: char) { '0' <= c <= '9' }

  /** Length of the run of digits at the start of `s`. */
  function DigitRun(s: string): (n: nat)
    ensures n <= |s|
    ensures forall k :: 0 <= k < n ==> IsDigit(s[k])
    ensures n < |s| ==> !IsDigit(s[n])
    decreases |s|
  {
    if s != [] && IsDigit(s[0]) then 1 + DigitRun(s[1..]) else 0
  }

  /** Length of a match of `\(\d(\.\d+)?\)` at the start of `s`, if any. */
  function ScoreLength(s: string): (r: Option<nat>)
    ensures r.Some? ==> 3 <= r.value <= |s| && s[0] == '(' && s[r.value - 1] == ')'
  {
    if |s| >= 3 && s[0] == '(' && IsDigit(s[1]) then
      if s[2] == ')' then Some(3)
      else if s[2] == '.' then
        var d := DigitRun(s[3..]);
        if d > 0 && 3 + d < |s| && s[3 + d] == ')' then Some(4 + d) else None
      else None
    else None
  }

  /** `vep_internal_pred_re.sub('', s)`: scanning left to right, every match
      of a bracketed score is removed and every other character kept. */
  function StripScores(s: string): (r: string)
    ensures |r| <= |s|
    decreases |s|
  {
    if s == [] then []
    else match ScoreLength(s)
      case Some(n) => StripScores(s[n..])
      case None => [s[0]] + StripScores(s[1..])
  }

  /** The bracketed score `(d)` or `(d.frac)` that annotation tools append
      to a prediction label, as in `probably_damaging(0.95)`. */
  function BracketedScore(d: char, frac: string): string {
    if frac == [] then ['(', d, ')'] else ['(', d, '.'] + frac + [')']
  }

  predicate AllDigits(s: string) {
    forall k :: 0 <= k < |s| ==> IsDigit(s[k])
  }

  /** A bracketed score is a match of the pattern as a whole. */
  lemma BracketedScoreMatches(d: char, frac: string)
    requires IsDigit(d) && AllDigits(frac)
    ensures ScoreLength(BracketedScore(d, frac)) == Some(|BracketedScore(d, frac)|)
  {
    var s := BracketedScore(d, frac);
    if frac != [] {
      assert s[3..] == frac + [')'];
      DigitRunOfDigits(frac, [')']);
    }
  }

  lemma {:induction false} DigitRunOfDigits(ds: string, t: string)
    requires AllDigits(ds)
    requires t == [] || !IsDigit(t[0])
    ensures DigitRun(ds + t) == |ds|
    decreases |ds|
  {
    if ds != [] {
      assert (ds + t)[1..] == ds[1..] + t;
      DigitRunOfDigits(ds[1..], t);
    } else {
      assert ds + t == t;
    }
  }

  /** Text without an opening bracket passes through the substitution
      unchanged, and does not disturb what follows it. */
  lemma {:induction false} StripScoresBracketFreePrefix(w: string, t: string)
    requires '(' !in w
    ensures StripScores(w + t) == w + StripScores(t)
    decreases |w|
  {
    if w == [] {
      assert w + t == t;
    } else {
      assert (w + t)[0] == w[0];
      assert (w + t)[1..] == w[1..] + t;
      StripScoresBracketFreePrefix(w[1..], t);
      assert [w[0]] + (w[1..] + StripScores(t)) == w + StripScores(t);
    }
  }

  /** A label followed by a bracketed score strips to the bare label:
      `probably_damaging(0.95)` becomes `probably_damaging`. */
  lemma StripScoresRemovesSuffix(w: string, d: char, frac: string)
    requires '(' !in w
    requires IsDigit(d) && AllDigits(frac)
    ensures StripScores(w + BracketedScore(d, frac)) == w
  {
    var b := BracketedScore(d, frac);
    StripScoresBracketFreePrefix(w, b);
    BracketedScoreMatches(d, frac);
    assert b[|b|..] == [];
    assert w + [] == w;
  }
}
