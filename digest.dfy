/**
  * The second loop of `formatAssignmentsForAI` and its final newline clean-up:
  * one five-line text block per formatted record, concatenated in order.
  */
module Digest {
  import opened Wrappers
  import opened Decimal
  import opened Records
  import opened Newlines
  import Normalizer

  const NoDescription := "no description provided"
  const NoPoints := "no points listed"

  /** An empty description is falsy in the template and is replaced by the fallback. */
  function DescriptionText(description: string): (r: string)
    ensures r != ""
  {
    if description != "" then description else NoDescription
  }

  /** `asgnmnt.points` is truthy when present, not null and not zero. */
  predicate PointsTruthy(points: Option<Option<int>>) {
    points.Some? && points.value.Some? && points.value.value != 0
  }

  function PointsText(points: Option<Option<int>>): string {
    if PointsTruthy(points) then IntToString(points.value.value) else NoPoints
  }

  /** The text block of one record, ending in a blank line. */
  function Block(f: FormattedAssignment): string {
    "CLASS: " + f.courseName
    + "\nASSIGNMENT: \"" + f.assignmentName
    + "\"\nDESCRIPTION: \"" + DescriptionText(f.assignmentDescription)
    + "\"\nPOINT WORTH: " + PointsText(f.points)
    + "\nDUE DATE: " + f.dueDate + "\n\n"
  }

  /** The blocks of all records, in input order. */
  function Blocks(fs: seq<FormattedAssignment>): string {
    if fs == [] then "" else Block(fs[0]) + Blocks(fs[1..])
  }

  lemma {:induction false} BlocksAppend(a: seq<FormattedAssignment>, b: seq<FormattedAssignment>)
    ensures Blocks(a + b) == Blocks(a) + Blocks(b)
  {
    if a != [] {
      assert (a + b)[1..] == a[1..] + b;
      BlocksAppend(a[1..], b);
    } else {
      assert a + b == b;
    }
  }

  lemma SingleBlock(f: FormattedAssignment)
    ensures Blocks([f]) == Block(f)
  {
  }

  lemma BlocksSnoc(fs: seq<FormattedAssignment>, i: nat)
    requires i < |fs|
    ensures Blocks(fs[..i + 1]) == Blocks(fs[..i]) + Block(fs[i])
  {
    SingleBlock(fs[i]);
    BlocksAppend(fs[..i], [fs[i]]);
    assert fs[..i + 1] == fs[..i] + [fs[i]];
  }

  /** Record i's block sits between the blocks of the records before it and after it. */
  lemma {:induction false} BlockPosition(fs: seq<FormattedAssignment>, i: nat)
    requires i < |fs|
    ensures Blocks(fs) == Blocks(fs[..i]) + Block(fs[i]) + Blocks(fs[i + 1..])
  {
    assert fs == fs[..i] + ([fs[i]] + fs[i + 1..]);
    BlocksAppend(fs[..i], [fs[i]] + fs[i + 1..]);
    assert ([fs[i]] + fs[i + 1..])[1..] == fs[i + 1..];
  }

  /** The points fallback is shown exactly when the points value is absent, null or zero. */
  lemma PointsFallbackIff(points: Option<Option<int>>)
    ensures PointsText(points) == NoPoints <==> !PointsTruthy(points)
  {
  }

  /** A record not graded by points has no points property and is shown with the fallback. */
  lemma UngradedShowsNoPoints(a: RawAssignment, extract: string -> string, calendar: string -> DueInstant)
    requires a.gradingType != "points"
    ensures Normalizer.Normalize(a, extract, calendar).points == None
    ensures PointsText(Normalizer.Normalize(a, extract, calendar).points) == NoPoints
  {
  }

  /** The loop that appends one block per record to the text. */
  method RenderAssignments(fs: seq<FormattedAssignment>) returns (text: string)
    ensures text == Blocks(fs)
  {
    text := "";
    var i := 0;
    while i < |fs|
      invariant 0 <= i <= |fs|
      invariant text == Blocks(fs[..i])
    {
      var asgnmnt := fs[i];
      text := text + Block(asgnmnt);
      BlocksSnoc(fs, i);
      i := i + 1;
    }
    assert fs[..i] == fs;
  }

  /** `formatAssignmentsForAI`: normalise, render every block, then collapse newlines. */
  method FormatAssignmentsForAI(list: seq<RawAssignment>, extract: string -> string, calendar: string -> DueInstant)
    returns (digest: string)
    ensures digest == RemoveExcessiveNewLines(Blocks(Normalizer.NormalizeList(list, extract, calendar)))
    ensures list == [] ==> digest == ""
  {
    var formatted := Normalizer.NormalizeAssignments(list, extract, calendar);
    var passToAI := RenderAssignments(formatted);
    digest := RemoveExcessiveNewLines(passToAI);
  }
}
