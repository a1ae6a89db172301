/** The values the analyzers produce: one AnalyzerResult per technique, the
    six embedding techniques the pattern recognizer scores, and the small
    numeric and string helpers the result fields are built with. */
module Results {

  /** The embedding techniques, in the order of the pattern record's keys. */
  datatype Technique = LsbReplacement | LsbMatching | F5 | Steghide | Hugo | DctBased
  {
    /** The key of the technique in the pattern record. */
    function Key(): string {
      match this
      case LsbReplacement => "lsb_replacement"
      case LsbMatching => "lsb_matching"
      case F5 => "f5"
      case Steghide => "steghide"
      case Hugo => "hugo"
      case DctBased => "dct_based"
    }
  }

  /** The pattern record's keys in enumeration order. */
  const TechniqueOrder: seq<Technique> := [LsbReplacement, LsbMatching, F5, Steghide, Hugo, DctBased]

  /** The per-technique scores of the pattern recognizer. */
  datatype PatternScores = PatternScores(
    lsbReplacement: int, lsbMatching: int, f5: int, steghide: int, hugo: int, dctBased: int)
  {
    function Get(t: Technique): int {
      match t
      case LsbReplacement => lsbReplacement
      case LsbMatching => lsbMatching
      case F5 => f5
      case Steghide => steghide
      case Hugo => hugo
      case DctBased => dctBased
    }
  }

  datatype Option<T> = None | Some(value: T)

  /** The technique-specific fields of an analyzer result. */
  datatype Detail =
    | ChiSquareDetail(score: real)
    | RsDetail(regularGroups: nat, singularGroups: nat, ratio: real)
    | HistogramDetail(anomalies: nat)
    | PatternDetail(patterns: PatternScores, detectedPattern: Technique)
    | PairsDetail(totalPairs: nat, deviation: real)

  /** What one analyzer reports: its method name (`methodName`), a confidence in [0, 100],
      a human-readable description and its own metrics. */
  datatype AnalyzerResult = AnalyzerResult(methodName: string, confidence: real, description: string, detail: Detail)

  const ChiSquareMethod := "Chi-Square Test"
  const RsMethod := "RS Analysis"
  const HistogramMethod := "Histogram Analysis"
  const PatternMethod := "Pattern Recognition"
  const PairsMethod := "Pairs of Values"

  function Min(a: real, b: real): real {
    if a <= b then a else b
  }

  function Max(a: real, b: real): real {
    if a >= b then a else b
  }

  function Abs(x: real): real {
    if x >= 0.0 then x else -x
  }

  /** A quotient by a positive number exceeds t exactly when the dividend
      exceeds t times the divisor. */
  lemma DivExceeds(x: real, y: real, t: real)
    requires y > 0.0
    ensures x / y > t <==> x > t * y
  {
    var q := x / y;
    assert q * y == x;
    if q > t {
      assert q * y > t * y;
    } else {
      assert q * y <= t * y;
    }
  }

  /** A quotient by a positive number is below t exactly when the dividend
      is below t times the divisor. */
  lemma DivBelow(x: real, y: real, t: real)
    requires y > 0.0
    ensures x / y < t <==> x < t * y
  {
    var q := x / y;
    assert q * y == x;
    if q < t {
      assert q * y < t * y;
    } else {
      assert q * y >= t * y;
    }
  }

  /** `s.replace(from, to)` with a one-character pattern: only the first
      occurrence is replaced. */
  function ReplaceFirst(s: string, from: char, to: char): (r: string)
    ensures |r| == |s|
  {
    if s == [] then []
    else if s[0] == from then [to] + s[1..]
    else [s[0]] + ReplaceFirst(s[1..], from, to)
  }

  /** The character at i is replaced exactly when it is the first
      occurrence of `from`; every other character is kept. */
  lemma {:induction false} ReplaceFirstReplacesFirst(s: string, from: char, to: char)
    ensures forall i | 0 <= i < |s| ::
      ReplaceFirst(s, from, to)[i] == if s[i] == from && from !in s[..i] then to else s[i]
  {
    if s != [] && s[0] != from {
      ReplaceFirstReplacesFirst(s[1..], from, to);
      forall i | 1 <= i < |s|
        ensures ReplaceFirst(s, from, to)[i] == if s[i] == from && from !in s[..i] then to else s[i]
      {
        assert s[..i] == [s[0]] + s[1..][..i - 1];
      }
    }
  }

  /** A string whose first `from` follows the prefix p has exactly that
      character replaced. */
  lemma {:induction false} ReplaceFirstAt(p: string, from: char, to: char, q: string)
    requires from !in p
    ensures ReplaceFirst(p + [from] + q, from, to) == p + [to] + q
  {
    if p != [] {
      assert (p + [from] + q)[1..] == p[1..] + [from] + q;
      ReplaceFirstAt(p[1..], from, to, q);
    }
  }

  /** A string is its prefix, the character at k and its suffix. */
  lemma SplitAt(s: string, k: nat)
    requires k < |s|
    ensures s == s[..k] + [s[k]] + s[k + 1..]
  {
  }

  /** The lsb_replacement key with its underscore made a space. */
  lemma ReplacementText()
    ensures ReplaceFirst("lsb_replacement", '_', ' ') == "lsb replacement"
  {
    var key, text := "lsb_replacement", "lsb replacement";
    SplitAt(key, 3);
    SplitAt(text, 3);
    assert key[3] == '_' && '_' !in key[..3];
    ReplaceFirstAt(key[..3], '_', ' ', key[4..]);
    assert key[..3] == text[..3] && key[4..] == text[4..];
  }

  function UpperChar(c: char): char {
    if 'a' <= c <= 'z' then (c as int - 'a' as int + 'A' as int) as char else c
  }

  /** No lower-case ASCII letter in s. */
  predicate NoLowerCase(s: string) {
    forall i | 0 <= i < |s| :: !('a' <= s[i] <= 'z')
  }

  /** `s.toUpperCase()` on the ASCII letters the technique keys use: every
      lower-case letter becomes its capital and nothing else changes. */
  function ToUpper(s: string): (u: string)
    ensures |u| == |s| && NoLowerCase(u)
    ensures forall i | 0 <= i < |s| :: 'a' <= s[i] <= 'z' ==> u[i] as int == s[i] as int - 32
    ensures forall i | 0 <= i < |s| :: !('a' <= s[i] <= 'z') ==> u[i] == s[i]
  {
    seq(|s|, i requires 0 <= i < |s| => UpperChar(s[i]))
  }
}
