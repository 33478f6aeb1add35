/**
  * `removeExessiveNewLines`: `text.replace(/\n\n\n/g, '\n')`. The regular
  * expression is matched left to right without overlap, and each match of
  * exactly three newlines becomes one newline.
  */
module Newlines {

  /** Three newlines start at position i of s. */
  predicate TripleAt(s: string, i: int)
    requires 0 <= i && i + 3 <= |s|
  {
    s[i] == '\n' && s[i + 1] == '\n' && s[i + 2] == '\n'
  }

  predicate StartsWithTriple(s: string) {
    |s| >= 3 && TripleAt(s, 0)
  }

  predicate HasTriple(s: string) {
    exists i :: 0 <= i && i + 3 <= |s| && TripleAt(s, i)
  }

  /** The global replacement: a match at the front is replaced and scanning resumes after it. */
  function RemoveExcessiveNewLines(s: string): (r: string)
    ensures |r| <= |s|
  {
    if StartsWithTriple(s) then "\n" + RemoveExcessiveNewLines(s[3..])
    else if s == [] then []
    else [s[0]] + RemoveExcessiveNewLines(s[1..])
  }

  /** The characters of s other than newlines, in order. */
  function WithoutNewlines(s: string): string {
    if s == [] then [] else (if s[0] == '\n' then [] else [s[0]]) + WithoutNewlines(s[1..])
  }

  function Newlines(k: nat): string {
    seq(k, _ => '\n')
  }

  /** How many newlines s starts with. */
  function LeadingNewlines(s: string): (k: nat)
    ensures k <= |s| && s[..k] == Newlines(k)
    ensures k < |s| ==> s[k] != '\n'
  {
    if s != [] && s[0] == '\n' then 1 + LeadingNewlines(s[1..]) else 0
  }

  /**
    * An independent description by runs: every maximal run of k newlines
    * becomes k / 3 + k % 3 newlines, every other character is kept.
    */
  function CollapseRuns(s: string): string
    decreases |s|
  {
    if s == [] then []
    else if s[0] != '\n' then [s[0]] + CollapseRuns(s[1..])
    else
      var k := LeadingNewlines(s);
      Newlines(k / 3 + k % 3) + CollapseRuns(s[k..])
  }

  /** How many newlines the scan leaves of a run of k: one per match of three, then the remainder. */
  function ScannedRunLength(k: nat): nat {
    if k >= 3 then 1 + ScannedRunLength(k - 3) else k
  }

  lemma {:induction false} ScannedRunLengthFormula(k: nat)
    ensures ScannedRunLength(k) == k / 3 + k % 3
  {
    if k >= 3 {
      ScannedRunLengthFormula(k - 3);
      var q, r := (k - 3) / 3, (k - 3) % 3;
      assert k == 3 * (q + 1) + r;
    }
  }

  /** A run of k newlines that is not followed by another newline. */
  lemma RunCollapse(k: nat, rest: string)
    requires rest == [] || rest[0] != '\n'
    ensures RemoveExcessiveNewLines(Newlines(k) + rest)
         == Newlines(k / 3 + k % 3) + RemoveExcessiveNewLines(rest)
  {
    RunScan(k, rest);
    ScannedRunLengthFormula(k);
  }

  lemma {:induction false} RunScan(k: nat, rest: string)
    requires rest == [] || rest[0] != '\n'
    ensures RemoveExcessiveNewLines(Newlines(k) + rest)
         == Newlines(ScannedRunLength(k)) + RemoveExcessiveNewLines(rest)
  {
    if k >= 3 {
      RunScan(k - 3, rest);
      MatchThenRun(k, rest);
    } else {
      ShortRunCopied(k, rest);
    }
  }

  /** A run of at least three: the first three become one newline, the scan goes on with the rest of the run. */
  lemma MatchThenRun(k: nat, rest: string)
    requires k >= 3
    requires RemoveExcessiveNewLines(Newlines(k - 3) + rest)
          == Newlines(ScannedRunLength(k - 3)) + RemoveExcessiveNewLines(rest)
    ensures RemoveExcessiveNewLines(Newlines(k) + rest)
         == Newlines(ScannedRunLength(k)) + RemoveExcessiveNewLines(rest)
  {
    var tail := Newlines(k - 3) + rest;
    assert Newlines(k) + rest == "\n\n\n" + tail by {
      assert Newlines(k) == "\n\n\n" + Newlines(k - 3);
    }
    calc {
      RemoveExcessiveNewLines(Newlines(k) + rest);
      RemoveExcessiveNewLines("\n\n\n" + tail);
      { DropTriple(tail); }
      "\n" + RemoveExcessiveNewLines(tail);
      "\n" + (Newlines(ScannedRunLength(k - 3)) + RemoveExcessiveNewLines(rest));
      { assert Newlines(ScannedRunLength(k)) == "\n" + Newlines(ScannedRunLength(k - 3)); }
      Newlines(ScannedRunLength(k)) + RemoveExcessiveNewLines(rest);
    }
  }

  /** One or two newlines before a character that is not a newline are copied. */
  lemma ShortRunCopied(k: nat, rest: string)
    requires k < 3
    requires rest == [] || rest[0] != '\n'
    ensures RemoveExcessiveNewLines(Newlines(k) + rest) == Newlines(k) + RemoveExcessiveNewLines(rest)
  {
    assert !StartsWithTriple("\n" + rest) by {
      if rest != [] { assert ("\n" + rest)[1] == rest[0]; }
    }
    if k == 2 {
      assert !StartsWithTriple("\n" + ("\n" + rest)) by {
        if rest != [] { assert ("\n" + ("\n" + rest))[2] == rest[0]; }
      }
      CopyFirst('\n', "\n" + rest);
      CopyFirst('\n', rest);
      assert Newlines(2) + rest == "\n" + ("\n" + rest);
    } else if k == 1 {
      CopyFirst('\n', rest);
      assert Newlines(1) == "\n";
    } else {
      assert Newlines(0) + rest == rest;
    }
  }

  /** A leading match is replaced by one newline and the scan goes on after it. */
  lemma DropTriple(tail: string)
    ensures RemoveExcessiveNewLines("\n\n\n" + tail) == "\n" + RemoveExcessiveNewLines(tail)
  {
  }

  /** Where no match starts, the first character is copied and the scan moves on by one. */
  lemma CopyFirst(c: char, tail: string)
    requires !StartsWithTriple([c] + tail)
    ensures RemoveExcessiveNewLines([c] + tail) == [c] + RemoveExcessiveNewLines(tail)
  {
  }

  /** The replacement agrees with the description by runs, on every input. */
  lemma {:induction false} CollapseMatchesRuns(s: string)
    ensures RemoveExcessiveNewLines(s) == CollapseRuns(s)
    decreases |s|
  {
    if s != [] {
      if s[0] != '\n' {
        assert !StartsWithTriple(s) by {
          if |s| >= 3 { assert s[..3][0] == s[0]; }
        }
        CollapseMatchesRuns(s[1..]);
      } else {
        var k := LeadingNewlines(s);
        assert s == Newlines(k) + s[k..];
        RunCollapse(k, s[k..]);
        CollapseMatchesRuns(s[k..]);
      }
    }
  }

  /** Text is left unchanged exactly when it has no three consecutive newlines. */
  lemma {:induction false} UnchangedIffNoTriple(s: string)
    ensures RemoveExcessiveNewLines(s) == s <==> !HasTriple(s)
    decreases |s|
  {
    if HasTriple(s) {
      ShrinksOnTriple(s);
    } else if s != [] {
      assert !HasTriple(s[1..]) by {
        forall i | 0 <= i && i + 3 <= |s[1..]| ensures !TripleAt(s[1..], i) {
          assert !TripleAt(s, i + 1);
        }
      }
      UnchangedIffNoTriple(s[1..]);
    }
  }

  lemma {:induction false} ShrinksOnTriple(s: string)
    requires HasTriple(s)
    ensures |RemoveExcessiveNewLines(s)| < |s|
    decreases |s|
  {
    if !StartsWithTriple(s) {
      var i :| 0 <= i && i + 3 <= |s| && TripleAt(s, i);
      assert TripleAt(s[1..], i - 1);
      ShrinksOnTriple(s[1..]);
    }
  }

  /** Only newlines are removed: the other characters stay, in order. */
  lemma {:induction false} KeepsOtherCharacters(s: string)
    ensures WithoutNewlines(RemoveExcessiveNewLines(s)) == WithoutNewlines(s)
    decreases |s|
  {
    if StartsWithTriple(s) {
      KeepsOtherCharacters(s[3..]);
      assert s[1..][1..] == s[2..] && s[2..][1..] == s[3..];
      assert WithoutNewlines(s) == WithoutNewlines(s[1..]) == WithoutNewlines(s[2..]) == WithoutNewlines(s[3..]);
      assert WithoutNewlines("\n" + RemoveExcessiveNewLines(s[3..]))
          == WithoutNewlines(RemoveExcessiveNewLines(s[3..]));
    } else if s != [] {
      KeepsOtherCharacters(s[1..]);
      var t := RemoveExcessiveNewLines(s[1..]);
      assert ([s[0]] + t)[1..] == t;
    }
  }

  /** A run of five newlines still leaves three: the output can hold three newlines in a row. */
  lemma FiveNewlinesLeaveThree()
    ensures RemoveExcessiveNewLines("\n\n\n\n\n") == "\n\n\n"
    ensures HasTriple(RemoveExcessiveNewLines("\n\n\n\n\n"))
  {
    RunCollapse(5, "");
    assert TripleAt("\n\n\n", 0);
  }
}
