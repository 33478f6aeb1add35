/**
  * The first loop of `formatAssignmentsForAI`: one formatted record per fetched
  * record. The HTML text extraction and the date library are parameters.
  */
module Normalizer {
  import opened Wrappers
  import opened Records
  import opened RelativeDate

  /** One record: fields copied, description extracted, due date phrased, points only when graded by points. */
  function Normalize(a: RawAssignment, extract: string -> string, calendar: string -> DueInstant): FormattedAssignment {
    var due := calendar(a.dueAt);
    FormattedAssignment(
      a.name,
      extract(a.description),
      a.courseName,
      DueDatePhrase(due.dayDifference, due.time),
      a.id,
      if a.gradingType == "points" then Some(a.pointsPossible) else None)
  }

  function NormalizeList(list: seq<RawAssignment>, extract: string -> string, calendar: string -> DueInstant)
    : seq<FormattedAssignment>
  {
    seq(|list|, i requires 0 <= i < |list| => Normalize(list[i], extract, calendar))
  }

  /** The loop that pushes one formatted record per input record, in order. */
  method NormalizeAssignments(list: seq<RawAssignment>, extract: string -> string, calendar: string -> DueInstant)
    returns (formatted: seq<FormattedAssignment>)
    ensures formatted == NormalizeList(list, extract, calendar)
    ensures |formatted| == |list|
    ensures forall i :: 0 <= i < |list| ==>
      var f, a := formatted[i], list[i];
      f.assignmentName == a.name && f.courseName == a.courseName && f.assignmentID == a.id
      && f.assignmentDescription == extract(a.description)
      && f.dueDate == DueDatePhrase(calendar(a.dueAt).dayDifference, calendar(a.dueAt).time)
      && (f.points.Some? <==> a.gradingType == "points")
      && (f.points.Some? ==> f.points.value == a.pointsPossible)
  {
    formatted := [];
    var i := 0;
    while i < |list|
      invariant 0 <= i <= |list|
      invariant |formatted| == i
      invariant forall k :: 0 <= k < i ==> formatted[k] == Normalize(list[k], extract, calendar)
    {
      var asgnmnt := list[i];
      var due := calendar(asgnmnt.dueAt);
      var f := FormattedAssignment(
        asgnmnt.name, extract(asgnmnt.description), asgnmnt.courseName,
        DueDatePhrase(due.dayDifference, due.time), asgnmnt.id, None);
      if asgnmnt.gradingType == "points" {
        f := f.(points := Some(asgnmnt.pointsPossible));
      }
      formatted := formatted + [f];
      i := i + 1;
    }
  }
}
