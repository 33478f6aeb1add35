/**
  * The orchestrator from course list to digest: filter the courses, merge their
  * upcoming assignments, format them. The HTTP fetches, the date library and
  * the HTML extraction are parameters; the snapshot file round trip, the
  * summarisation call and the notification are not part of this model.
  */
module Pipeline {
  import opened Records
  import opened Courses
  import opened Normalizer
  import opened Newlines
  import opened Digest
  import opened RelativeDate

  method RunPipeline(
    courses: seq<Course>,
    excluded: seq<int>,
    fetch: int -> seq<RawAssignment>,
    extract: string -> string,
    calendar: string -> DueInstant)
    returns (digest: string)
    ensures digest == RemoveExcessiveNewLines(Blocks(NormalizeList(
      Merged(ExcludeCourses(courses, excluded), fetch), extract, calendar)))
    ensures ExcludeCourses(courses, excluded) == [] ==> digest == ""
  {
    var currentClasses := ExcludeCourses(courses, excluded);
    var upcomingAssignments := MergeAssignments(currentClasses, fetch);
    digest := FormatAssignmentsForAI(upcomingAssignments, extract, calendar);
  }

  /**
    * Two courses in either order, one excluded by id, the other returning one
    * assignment: exactly one record is formatted, for the kept course, with its
    * due-date phrase, and the digest is that record's block alone.
    */
  lemma OneKeptCourse(
    courses: seq<Course>, kept: Course, dropped: Course, excluded: seq<int>, a: RawAssignment,
    fetch: int -> seq<RawAssignment>, extract: string -> string, calendar: string -> DueInstant)
    requires courses == [kept, dropped] || courses == [dropped, kept]
    requires kept.id !in excluded && dropped.id in excluded
    requires fetch(kept.id) == [a]
    ensures var fs := NormalizeList(Merged(ExcludeCourses(courses, excluded), fetch), extract, calendar);
      |fs| == 1
      && fs[0].courseName == CleanCourseName(kept.name)
      && fs[0].assignmentName == a.name
      && fs[0].dueDate == DueDatePhrase(calendar(a.dueAt).dayDifference, calendar(a.dueAt).time)
      && RemoveExcessiveNewLines(Blocks(fs)) == RemoveExcessiveNewLines(Block(fs[0]))
  {
    assert ExcludeCourses([dropped], excluded) == [] + ExcludeCourses([], excluded) == [];
    assert ExcludeCourses([kept], excluded) == [kept] + ExcludeCourses([], excluded) == [kept];
    ExcludeAppend([kept], [dropped], excluded);
    ExcludeAppend([dropped], [kept], excluded);
    assert [kept] + [dropped] == [kept, dropped] && [dropped] + [kept] == [dropped, kept];
    var filtered := ExcludeCourses(courses, excluded);
    assert filtered == [kept];
    assert [kept][1..] == [];
    assert Merged(filtered, fetch) == Tag([a], CleanCourseName(kept.name));
    var fs := NormalizeList(Merged(filtered, fetch), extract, calendar);
    SingleBlock(fs[0]);
    assert fs == [fs[0]];
  }
}
