# Canvas assignment reminder: the assignment-to-digest pipeline

A Dafny model of the logic in `index.js` of the Canvas assignment reminder.
The program fetches the user's favourite Canvas courses, drops the excluded ones,
fetches each course's upcoming assignments, tags every assignment with a trimmed
course name, normalises the records, and writes them as one text digest for a
summarisation prompt. The model covers every step between the course list and
the digest:

- `RelativeDate`: the due-date phrase of `dateToNaturalLanguage` ("Yesterday",
  "Today", "Tomorrow", "In a week", "In n days", "n days ago", then " at " and
  the time; `RelativeDate.DueDatePhrase` builds every phrase as the words, " at " and
  the time). The date library is replaced by its two results: the calendar-day
  difference and the formatted time of day (`Records.DueInstant`).
- `Decimal`: how a template literal writes an integer (day counts, points).
- `Newlines`: `removeExessiveNewLines`, the global replacement of `"\n\n\n"` by `"\n"`.
- `Normalizer`: the first loop of `formatAssignmentsForAI`.
- `Digest`: the second loop of `formatAssignmentsForAI`, the text fallbacks and the final collapse.
- `Courses`: the exclusion filter, the course-name trim `/ - .*/g`, and the nested merge loop.
- `Pipeline`: the orchestrator from course list to digest, with the fetches as a parameter.

The HTML text extraction (`extract`), the date library (`calendar`) and the
per-course assignment fetch (`fetch`) are function parameters, so every result is
stated for all possible behaviours of those collaborators.

Two behaviours of the code are worth stating plainly:

- The newline replacement does not turn every run of three or more newlines into one.
  It replaces each non-overlapping `"\n\n\n"` once, so a run of k newlines becomes
  k/3 + k%3 newlines, and five newlines leave three (`Newlines.FiveNewlinesLeaveThree`).
  Such a run can reach the digest through an extracted description, which is copied as it is.
- The course-name trim does not always cut at the first " - ". The regular expression's
  `.` stops at a line terminator, so a cut ends at the end of its line and scanning
  resumes on the next line (`Courses.CleanCourseName`). A name on one line is cut at
  its first " - ".

## Model

| member | source | states |
|---|---|---|
| `Decimal.NatToString` | index.js:160-162 | the day count is written as nonempty decimal digits with no leading zero |
| `Decimal.NatToStringRoundTrip` | index.js:160-162 | reading the written digits back gives the number, so distinct counts give distinct texts |
| `Decimal.IntToString` | index.js:121 | a points value is written starting with a digit or a minus sign, the minus sign exactly when it is negative |
| `Decimal.IntToStringRoundTrip` | index.js:121 | after the optional minus sign the text is the decimal digits of the magnitude, which read back to the number |
| `RelativeDate.DayWords` | index.js:151-163 | computes the words of the first-match chain: -1 Yesterday, 0 Today, 1 Tomorrow, 7 In a week, other positive d "In d days", otherwise "-d days ago" |
| `RelativeDate.DueDatePhrase` | index.js:151-163 | computes the words followed by " at " and the formatted time, in every branch |
| `RelativeDate.WordsRoundTrip` | index.js:148-163 | the decision chain gives every day difference its own words; the difference can be read back from them |
| `RelativeDate.NeverInSevenDays` | index.js:157-160 | no day difference yields "In 7 days": seven days ahead reads "In a week" |
| `RelativeDate.DaysAgoAtLeastTwo` | index.js:151-162 | "n days ago" comes only from the difference -n, and n is at least 2 |
| `RelativeDate.InDaysCount` | index.js:155-160 | "In n days" comes only from the difference n, with n at least 2 and not 7 |
| `Newlines.RemoveExcessiveNewLines` | index.js:98-100 | the collapse never makes the text longer |
| `Newlines.RunCollapse` | index.js:99 | a maximal run of k newlines becomes k/3 + k%3 newlines; the rest is collapsed independently |
| `Newlines.CollapseMatchesRuns` | index.js:99 | on every input the replacement equals the run-by-run description |
| `Newlines.UnchangedIffNoTriple` | index.js:98-100 | text is left unchanged if and only if it has no three consecutive newlines |
| `Newlines.KeepsOtherCharacters` | index.js:98-100 | every character other than a newline is kept, in order |
| `Newlines.FiveNewlinesLeaveThree` | index.js:99 | five newlines become three, so the output can still hold three newlines in a row |
| `Normalizer.Normalize` | index.js:106-115 | computes one formatted record: name, course name and id copied, description extracted, due date phrased, points set to `points_possible` only for grading type "points" |
| `Normalizer.NormalizeAssignments` | index.js:103-117 | one formatted record per input record, in order; name, course name and id copied; description extracted; due date phrased; points present iff the grading type is "points", and then equal to `points_possible` |
| `Digest.DescriptionText` | index.js:121 | computes the description shown: the text itself, or "no description provided" when it is empty; never empty |
| `Digest.PointsText` | index.js:121 | computes the points shown: the number when present, not null and not zero, otherwise "no points listed" |
| `Digest.Block` | index.js:121 | computes one record's text: CLASS, quoted ASSIGNMENT, quoted DESCRIPTION, POINT WORTH and DUE DATE lines, then a blank line |
| `Digest.BlocksAppend` | index.js:118-122 | the text of a concatenation of record lists is the concatenation of their texts |
| `Digest.BlockPosition` | index.js:118-122 | record i's five-field block lies between the text of the records before it and after it |
| `Digest.PointsFallbackIff` | index.js:121 | "no points listed" is shown if and only if the points are absent, null or zero |
| `Digest.UngradedShowsNoPoints` | index.js:113-115 | a record not graded by points gets no points property and is shown with "no points listed" |
| `Digest.RenderAssignments` | index.js:118-122 | the accumulating loop produces the blocks of all records in input order, and the empty string for no records |
| `Digest.FormatAssignmentsForAI` | index.js:102-125 | the digest is the collapse of the blocks of the normalised records; no assignments give the empty string |
| `Courses.ExcludeCourses` | index.js:28-30 | a course is kept if and only if it is listed and its id is not excluded; never more courses than given |
| `Courses.ExcludeKeepsOrder` | index.js:30 | the kept courses are a subsequence of the listed courses |
| `Courses.ExcludeAppend` | index.js:30 | filtering decides course by course: it distributes over concatenation |
| `Courses.CleanCourseName` | index.js:180 | the trimmed name is never longer than the name |
| `Courses.CleanUnchangedIff` | index.js:180 | a name is unchanged if and only if it contains no " - " |
| `Courses.CleanCutsAtFirstSeparator` | index.js:180 | a one-line name loses everything from its first " - " on |
| `Courses.MergedLength` | index.js:173-183 | the merged list has as many records as all courses returned together |
| `Courses.MergedAt` | index.js:173-183 | assignment j of course i sits at position (records of earlier courses) + j, unchanged except for its trimmed course name |
| `Courses.MergeAssignments` | index.js:173-183 | the nested push loop builds exactly the merged list, of length the sum of the per-course counts |
| `Pipeline.RunPipeline` | index.js:169-190 | the digest is formatted from the merged assignments of the courses that pass the filter; no courses give the empty string |
| `Pipeline.OneKeptCourse` | index.js:173-183 | with two courses in either order, one excluded, and one assignment for the other, exactly one record is formatted, for the kept course, with its due-date phrase, and the digest is the collapse of that record's block alone |

## Left out

- HTTP access to Canvas (`getCanvasClasses`, `getAssignments`, index.js:20-56): network I/O. The per-course fetch is the `fetch` parameter, including the empty list it returns on failure. A failed course fetch leaves `currentClasses` undefined and the run faults at line 170; that fault is not modelled.
- `fetch` is a function of the course id: two courses with the same id get the same list. The real fetch could answer differently on each call.
- Push notification (`sendNotification`, index.js:58-81): an external service with an asynchronous callback.
- The chat-completion call and the prompt substitutions around it (`queryGpt`, index.js:132-138 and 193), including the date phrase for `Date.now()` put into the prompt: a foreign API.
- Folder setup and the JSON snapshot written and read back (index.js:83-96, 127-130, 186, 190): disk I/O. The merged list goes straight to the formatter, which treats the JSON round trip as the identity.
- `extractTextFromHtml` (index.js:15-18): it wraps a DOM library that is not part of this model, so it is the `extract` parameter.
- The date library (index.js:141-149): time-zone conversion, start of day, `differenceInDays`, the `'p'` time format and the clock. They are the `calendar` parameter. This also covers a null `due_at` (read as 1970) and an invalid one (formatting throws). The model assumes `isYesterday`, `isToday` and `isTomorrow` agree with the day difference.
- The unreachable logging after `return` (index.js:32-35).
- Decimal.IntToString: covers integers only. Fractional `points_possible` values and JavaScript's exponent notation at 10^21 and above are not modelled.
- Courses.MergeAssignments: the source sets `courseName` on each fetched object in place. The model updates a record value. Fetched records are fresh JSON objects shared with nothing else, so no aliasing is lost.
- Fields holding JSON null where a string is expected (a null name or description written as "null") are not modelled: names, descriptions and course names are strings.
