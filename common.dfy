/**
 * Vocabulary shared by every engine of the financial-health platform:
 * statements as maps from metric name to amount, Python's `dict.get` with a
 * default, the `max(x, 1)` denominator floor, the error result of a division
 * by zero, the few string operations the engines rely on, and the letter
 * grade and risk level that the Flask variants compute with the same
 * thresholds.
 */
module Common {

  datatype Option<+T> = None | Some(value: T)

  /**
   * The runtime failures the engines can raise: Python's ZeroDivisionError,
   * and the KeyError of indexing a request body that lacks a field.
   */
  datatype Error = ZeroDivision(denominator: string) | MissingKey(key: string)

  datatype Result<+T> = Ok(value: T) | Err(error: Error)

  /** A financial statement, a ratio set or any other dict of named numbers. */
  type Statement = map<string, real>

  /** Severity, priority and risk level all use the same three words. */
  datatype Level = Low | Medium | High

  datatype Grade = A | B | C | D

  /** `d.get(k, default)` */
  function Get(m: Statement, k: string, default: real): (r: real)
    ensures k in m ==> r == m[k]
    ensures k !in m ==> r == default
  {
    if k in m then m[k] else default
  }

  /**
   * The first of `keys` that `m` lacks: the key whose `m[key]` raises first
   * when the keys are read in this order.
   */
  function FirstMissing(m: Statement, keys: seq<string>): (r: Option<string>)
    ensures r.None? <==> forall k :: k in keys ==> k in m
    ensures r.Some? ==> r.value in keys && r.value !in m
  {
    if |keys| == 0 then None
    else if keys[0] !in m then Some(keys[0])
    else FirstMissing(m, keys[1..])
  }

  /** `max(x, 1)`, the guard the engines put on most denominators. */
  function Floor1(x: real): (r: real)
    ensures r >= 1.0 && r >= x
    ensures r == x || r == 1.0
  {
    if x < 1.0 then 1.0 else x
  }

  function Min(x: real, y: real): real { if x <= y then x else y }

  function Max(x: real, y: real): real { if x >= y then x else y }

  /** Rank of a grade, A best; used to state monotonicity. */
  function Rank(g: Grade): nat
  {
    match g
    case A => 0
    case B => 1
    case C => 2
    case D => 3
  }

  /** `'A' if score >= 80 else 'B' if score >= 60 else 'C' if score >= 40 else 'D'` */
  function CreditGrade(score: int): Grade
  {
    if score >= 80 then A else if score >= 60 then B else if score >= 40 then C else D
  }

  /** `'Low' if score >= 70 else 'Medium' if score >= 50 else 'High'` */
  function RiskLevel(score: int): Level
  {
    if score >= 70 then Low else if score >= 50 then Medium else High
  }

  function LevelRank(l: Level): nat
  {
    match l
    case Low => 0
    case Medium => 1
    case High => 2
  }

  /** A higher credit score never gets a worse grade or a worse risk level. */
  lemma CreditGradeMonotone(s1: int, s2: int)
    requires s1 <= s2
    ensures Rank(CreditGrade(s2)) <= Rank(CreditGrade(s1))
    ensures LevelRank(RiskLevel(s2)) <= LevelRank(RiskLevel(s1))
  {
  }

  // ---------------------------------------------------------------------
  // Strings. Python's str.lower is modelled on ASCII letters only.

  function LowerChar(c: char): char
  {
    if 'A' <= c <= 'Z' then (c as int + 32) as char else c
  }

  function Lower(s: string): (r: string)
    ensures |r| == |s|
    ensures forall i :: 0 <= i < |s| ==> r[i] == LowerChar(s[i])
  {
    seq(|s|, i requires 0 <= i < |s| => LowerChar(s[i]))
  }

  /** `sub in s` for strings: `sub` occurs at some position of `s`. */
  predicate Contains(s: string, sub: string)
    decreases |s|
  {
    (|sub| <= |s| && s[..|sub|] == sub) || (|s| > 0 && Contains(s[1..], sub))
  }

  /** `s[:n]` */
  function Take(s: string, n: nat): (r: string)
    ensures |r| == if |s| < n then |s| else n
    ensures r <= s
  {
    if |s| <= n then s else s[..n]
  }

  /** Python's `a > b` on strings: lexicographic order on code points. */
  predicate LexGreater(a: string, b: string)
    decreases |a|
  {
    |a| > 0 && (|b| == 0 || a[0] > b[0] || (a[0] == b[0] && LexGreater(a[1..], b[1..])))
  }

  /** Lexicographic `>` is irreflexive: a filing on its due date is not late. */
  lemma {:induction false} LexGreaterIrreflexive(a: string)
    ensures !LexGreater(a, a)
    decreases |a|
  {
    if |a| > 0 {
      assert a[1..] == a[1..];
      LexGreaterIrreflexive(a[1..]);
    }
  }
}
