/** The records the pipeline passes along, as the course-management service and the formatter shape them. */
module Records {
  import opened Wrappers

  /** A course as listed by the favourites query: its identifier and display name. */
  datatype Course = Course(id: int, name: string)

  /**
    * An assignment as fetched for a course. `pointsPossible` is None for a JSON
    * null; `dueAt` is the raw timestamp text; `courseName` is written by the merge step.
    */
  datatype RawAssignment = RawAssignment(
    id: int,
    name: string,
    description: string,
    dueAt: string,
    pointsPossible: Option<int>,
    gradingType: string,
    courseName: string)

  /**
    * The normalised record. `points` is None when the property is absent and
    * Some(p) when it is set, p itself being None for a null `points_possible`.
    */
  datatype FormattedAssignment = FormattedAssignment(
    assignmentName: string,
    assignmentDescription: string,
    courseName: string,
    dueDate: string,
    assignmentID: int,
    points: Option<Option<int>>)

  /**
    * What the date library makes of a due timestamp: the calendar-day difference
    * between its start of day and today's, and the time of day written as 'p'.
    */
  datatype DueInstant = DueInstant(dayDifference: int, time: string)
}
