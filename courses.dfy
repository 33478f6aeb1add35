/**
  * The course side of the pipeline: dropping the excluded courses, trimming
  * a course's display name, and merging every course's upcoming assignments
  * into one list.
  */
module Courses {
  import opened Records

  /** `courses.filter(course => !excludedCourses.includes(course.id))` */
  function ExcludeCourses(courses: seq<Course>, excluded: seq<int>): (r: seq<Course>)
    ensures |r| <= |courses|
    ensures forall c :: c in r <==> c in courses && c.id !in excluded
  {
    if courses == [] then []
    else (if courses[0].id in excluded then [] else [courses[0]]) + ExcludeCourses(courses[1..], excluded)
  }

  /** r can be obtained from s by deleting elements. */
  predicate IsSubsequence<T(==)>(r: seq<T>, s: seq<T>) {
    if r == [] then true
    else if s == [] then false
    else (r[0] == s[0] && IsSubsequence(r[1..], s[1..])) || IsSubsequence(r, s[1..])
  }

  /** The filter keeps the courses in their listed order. */
  lemma {:induction false} ExcludeKeepsOrder(courses: seq<Course>, excluded: seq<int>)
    ensures IsSubsequence(ExcludeCourses(courses, excluded), courses)
  {
    if courses != [] {
      ExcludeKeepsOrder(courses[1..], excluded);
      var rest := ExcludeCourses(courses[1..], excluded);
      if courses[0].id !in excluded {
        assert ([courses[0]] + rest)[1..] == rest;
      } else {
        assert ExcludeCourses(courses, excluded) == rest;
      }
    }
  }

  /** Filtering a concatenation filters each part: the decision is made course by course. */
  lemma {:induction false} ExcludeAppend(a: seq<Course>, b: seq<Course>, excluded: seq<int>)
    ensures ExcludeCourses(a + b, excluded) == ExcludeCourses(a, excluded) + ExcludeCourses(b, excluded)
  {
    if a == [] {
      assert a + b == b;
    } else {
      assert (a + b)[1..] == a[1..] + b;
      ExcludeAppend(a[1..], b, excluded);
    }
  }

  /** JavaScript's `.` matches any character except these line terminators. */
  predicate IsLineTerminator(c: char) {
    c == '\n' || c == '\r' || c == '\U{2028}' || c == '\U{2029}'
  }

  /** The position of the first line terminator of s, or |s|. */
  function LineEnd(s: string): (k: nat)
    ensures k <= |s|
    ensures forall i :: 0 <= i < k ==> !IsLineTerminator(s[i])
    ensures k < |s| ==> IsLineTerminator(s[k])
  {
    if s == [] || IsLineTerminator(s[0]) then 0 else 1 + LineEnd(s[1..])
  }

  predicate SeparatorAt(s: string, i: int)
    requires 0 <= i && i + 3 <= |s|
  {
    s[i] == ' ' && s[i + 1] == '-' && s[i + 2] == ' '
  }

  predicate HasSeparator(s: string) {
    exists i :: 0 <= i && i + 3 <= |s| && SeparatorAt(s, i)
  }

  /**
    * `name.replace(/ - .*\/g, '')`: each " - " found scanning left to right is
    * removed together with the rest of its line; scanning resumes at the line end.
    */
  function CleanCourseName(s: string): (r: string)
    ensures |r| <= |s|
    decreases |s|
  {
    if " - " <= s then
      var t := s[3..];
      CleanCourseName(t[LineEnd(t)..])
    else if s == [] then []
    else [s[0]] + CleanCourseName(s[1..])
  }

  /** A name is left as it is exactly when it holds no " - ". */
  lemma {:induction false} CleanUnchangedIff(s: string)
    ensures CleanCourseName(s) == s <==> !HasSeparator(s)
    decreases |s|
  {
    if HasSeparator(s) {
      CleanShrinks(s);
    } else if s != [] {
      assert !(" - " <= s) by {
        if |s| >= 3 { assert " - " <= s ==> SeparatorAt(s, 0); }
      }
      assert !HasSeparator(s[1..]) by {
        forall i | 0 <= i && i + 3 <= |s[1..]| ensures !SeparatorAt(s[1..], i) {
          assert !SeparatorAt(s, i + 1);
        }
      }
      CleanUnchangedIff(s[1..]);
    }
  }

  lemma {:induction false} CleanShrinks(s: string)
    requires HasSeparator(s)
    ensures |CleanCourseName(s)| < |s|
    decreases |s|
  {
    if !(" - " <= s) {
      var i :| 0 <= i && i + 3 <= |s| && SeparatorAt(s, i);
      assert s[..3] == [s[0], s[1], s[2]];
      assert SeparatorAt(s, 0) ==> " - " <= s;
      assert SeparatorAt(s[1..], i - 1);
      CleanShrinks(s[1..]);
    }
  }

  /** On a one-line name, everything from the first " - " on is removed. */
  lemma {:induction false} CleanCutsAtFirstSeparator(s: string, i: nat)
    requires forall k :: 0 <= k < |s| ==> !IsLineTerminator(s[k])
    requires i + 3 <= |s| && SeparatorAt(s, i)
    requires forall j :: 0 <= j < i ==> !SeparatorAt(s, j)
    ensures CleanCourseName(s) == s[..i]
  {
    if i == 0 {
      assert " - " <= s by { assert s[..3] == [s[0], s[1], s[2]]; }
      var t := s[3..];
      assert LineEnd(t) == |t|;
      assert t[LineEnd(t)..] == [];
    } else {
      assert !(" - " <= s) by {
        assert " - " <= s ==> SeparatorAt(s, 0);
      }
      assert SeparatorAt(s[1..], i - 1);
      assert forall j :: 0 <= j < i - 1 ==> !SeparatorAt(s[1..], j) by {
        forall j | 0 <= j < i - 1 ensures !SeparatorAt(s[1..], j) {
          assert !SeparatorAt(s, j + 1);
        }
      }
      CleanCutsAtFirstSeparator(s[1..], i - 1);
      assert s[..i] == [s[0]] + s[1..][..i - 1];
    }
  }

  /** The fetched records of one course, each with its `courseName` set. */
  function Tag(list: seq<RawAssignment>, courseName: string): (r: seq<RawAssignment>)
    ensures |r| == |list|
  {
    seq(|list|, i requires 0 <= i < |list| => list[i].(courseName := courseName))
  }

  /** The assignments of every course, course after course, each tagged with its cleaned course name. */
  function Merged(classes: seq<Course>, fetch: int -> seq<RawAssignment>): seq<RawAssignment> {
    if classes == [] then []
    else Tag(fetch(classes[0].id), CleanCourseName(classes[0].name)) + Merged(classes[1..], fetch)
  }

  /** How many assignments the courses returned altogether. */
  function TotalFetched(classes: seq<Course>, fetch: int -> seq<RawAssignment>): nat {
    if classes == [] then 0 else |fetch(classes[0].id)| + TotalFetched(classes[1..], fetch)
  }

  /** The merged list holds as many records as the courses returned. */
  lemma {:induction false} MergedLength(classes: seq<Course>, fetch: int -> seq<RawAssignment>)
    ensures |Merged(classes, fetch)| == TotalFetched(classes, fetch)
  {
    if classes != [] {
      MergedLength(classes[1..], fetch);
    }
  }

  /**
    * Assignment j of course i sits after all assignments of the courses before
    * it, unchanged except for its course name.
    */
  lemma {:induction false} MergedAt(classes: seq<Course>, fetch: int -> seq<RawAssignment>, i: nat, j: nat)
    requires i < |classes| && j < |fetch(classes[i].id)|
    ensures TotalFetched(classes[..i], fetch) + j < |Merged(classes, fetch)|
    ensures Merged(classes, fetch)[TotalFetched(classes[..i], fetch) + j]
         == fetch(classes[i].id)[j].(courseName := CleanCourseName(classes[i].name))
  {
    var head := Tag(fetch(classes[0].id), CleanCourseName(classes[0].name));
    MergedLength(classes[1..], fetch);
    if i == 0 {
      assert classes[..0] == [];
    } else {
      MergedAt(classes[1..], fetch, i - 1, j);
      assert classes[..i][0] == classes[0] && classes[..i][1..] == classes[1..][..i - 1];
      assert TotalFetched(classes[..i], fetch) == |head| + TotalFetched(classes[1..][..i - 1], fetch);
    }
  }

  /** Merging one more course appends that course's tagged records. */
  lemma {:induction false} MergedSnoc(classes: seq<Course>, c: Course, fetch: int -> seq<RawAssignment>)
    ensures Merged(classes + [c], fetch) == Merged(classes, fetch) + Tag(fetch(c.id), CleanCourseName(c.name))
  {
    if classes == [] {
      assert [c][1..] == [];
      assert classes + [c] == [c];
    } else {
      assert (classes + [c])[1..] == classes[1..] + [c];
      MergedSnoc(classes[1..], c, fetch);
    }
  }

  /** The orchestrator's nested loop: fetch each course's list, tag each record, push it. */
  method MergeAssignments(classes: seq<Course>, fetch: int -> seq<RawAssignment>)
    returns (upcoming: seq<RawAssignment>)
    ensures upcoming == Merged(classes, fetch)
    ensures |upcoming| == TotalFetched(classes, fetch)
  {
    upcoming := [];
    var i := 0;
    while i < |classes|
      invariant 0 <= i <= |classes|
      invariant upcoming == Merged(classes[..i], fetch)
    {
      var currentClass := classes[i];
      var upcomingForClass := fetch(currentClass.id);
      var j := 0;
      while j < |upcomingForClass|
        invariant 0 <= j <= |upcomingForClass|
        invariant upcoming == Merged(classes[..i], fetch)
                            + Tag(upcomingForClass[..j], CleanCourseName(currentClass.name))
      {
        var asgnmnt := upcomingForClass[j];
        asgnmnt := asgnmnt.(courseName := CleanCourseName(currentClass.name));
        assert Tag(upcomingForClass[..j + 1], CleanCourseName(currentClass.name))
            == Tag(upcomingForClass[..j], CleanCourseName(currentClass.name)) + [asgnmnt];
        upcoming := upcoming + [asgnmnt];
        j := j + 1;
      }
      assert upcomingForClass[..j] == upcomingForClass;
      MergedSnoc(classes[..i], currentClass, fetch);
      assert classes[..i + 1] == classes[..i] + [currentClass];
      i := i + 1;
    }
    assert classes[..i] == classes;
    MergedLength(classes, fetch);
  }
}
