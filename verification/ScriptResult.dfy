/** What pkg/controller/cluster.go makes of the result file that the startup script leaves behind. */
module ScriptResult {
  import opened Wrappers

  /** A result file on the operator's host, the machine it was copied from, and which of all copies it was. */
  datatype Report = Report(machine: string, lines: seq<string>, copy: nat)

  const MAX_INT: int := 0x7fff_ffff_ffff_ffff
  const MIN_INT: int := -0x8000_0000_0000_0000

  predicate IsNumeral(s: string) {
    s != [] && forall i :: 0 <= i < |s| ==> '0' <= s[i] <= '9'
  }

  function NumeralValue(s: string): nat
    requires forall i :: 0 <= i < |s| ==> '0' <= s[i] <= '9'
  {
    if s == [] then 0
    else
      var last := |s| - 1;
      NumeralValue(s[..last]) * 10 + (s[last] as int - '0' as int)
  }

  /** `strconv.Atoi`: an optional sign, decimal digits, and a value that fits 64 bits. */
  function Atoi(s: string): Option<int> {
    var signed := s != [] && (s[0] == '+' || s[0] == '-');
    var digits := if signed then s[1..] else s;
    if !IsNumeral(digits) then None
    else
      var n: int := if signed && s[0] == '-' then 0 - NumeralValue(digits) else NumeralValue(digits);
      if MIN_INT <= n <= MAX_INT then Some(n) else None
  }

  /** The first line that reads as an integer reads as `n`. */
  ghost predicate FirstIntegerIs(lines: seq<string>, n: int) {
    exists i :: 0 <= i < |lines| && Atoi(lines[i]) == Some(n) && NoIntegerBefore(lines, i)
  }

  ghost predicate NoIntegerBefore(lines: seq<string>, end: nat) {
    forall i :: 0 <= i < end && i < |lines| ==> Atoi(lines[i]) == None
  }

  /** The scan loop of `isScriptFinished`. */
  method ScanForInteger(lines: seq<string>) returns (verdict: Option<int>)
    ensures verdict.Some? ==> FirstIntegerIs(lines, verdict.value)
    ensures verdict.None? <==> NoIntegerBefore(lines, |lines|)
  {
    var i := 0;
    while i < |lines|
      invariant 0 <= i <= |lines|
      invariant NoIntegerBefore(lines, i)
    {
      verdict := Atoi(lines[i]);
      if verdict.Some? {
        return;
      }
      i := i + 1;
    }
    verdict := None;
  }

  /** The verdict is a function of the file: no two integers can both come first. */
  lemma FirstIntegerUnique(lines: seq<string>, m: int, n: int)
    requires FirstIntegerIs(lines, m) && FirstIntegerIs(lines, n)
    ensures m == n
  {
    var i :| 0 <= i < |lines| && Atoi(lines[i]) == Some(m) && NoIntegerBefore(lines, i);
    var j :| 0 <= j < |lines| && Atoi(lines[j]) == Some(n) && NoIntegerBefore(lines, j);
    assert i == j;
  }

  /** What the scan found decides what the file says. */
  lemma VerdictIsUnique(lines: seq<string>, verdict: Option<int>)
    requires verdict.Some? ==> FirstIntegerIs(lines, verdict.value)
    requires verdict.None? <==> NoIntegerBefore(lines, |lines|)
    ensures forall n :: FirstIntegerIs(lines, n) <==> verdict == Some(n)
  {
    forall n | FirstIntegerIs(lines, n) ensures verdict == Some(n) {
      if verdict.Some? {
        FirstIntegerUnique(lines, n, verdict.value);
      }
    }
  }
}
