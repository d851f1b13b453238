/**
 * The URL patterns of registrar/apps/core/constants.py, as string predicates.
 *
 * PROGRAM_KEY_PATTERN is `[A-Za-z0-9-_]+`.  COURSE_ID_PATTERN is
 * `[^/+]+(/|\+)[^/+]+(/|\+)[^/?]+`, matched against a whole path segment
 * sequence: two leading parts free of '/' and '+', each followed by a '/' or
 * '+', and a last part free of '/' and '?' (it may contain '+').
 */
module CoreConstants {

  predicate IsProgramKeyChar(c: char)
  {
    ('A' <= c <= 'Z') || ('a' <= c <= 'z') || ('0' <= c <= '9') || c == '-' || c == '_'
  }

  /** `PROGRAM_KEY_PATTERN` matches the whole of s. */
  predicate IsProgramKey(s: string)
  {
    |s| > 0 && forall i :: 0 <= i < |s| ==> IsProgramKeyChar(s[i])
  }

  /** A valid program key never contains ':' or '/'. */
  lemma ProgramKeyHasNoColonOrSlash(s: string)
    requires IsProgramKey(s)
    ensures ':' !in s && '/' !in s
  {
    forall i | 0 <= i < |s| ensures s[i] != ':' && s[i] != '/' {
      assert IsProgramKeyChar(s[i]);
    }
  }

  predicate IsSeparator(c: char)
  {
    c == '/' || c == '+'
  }

  /** A leading part of a course id: `[^/+]+`. */
  predicate IsLeadingPart(s: string)
  {
    |s| > 0 && forall i :: 0 <= i < |s| ==> !IsSeparator(s[i])
  }

  /** The last part of a course id: `[^/?]+`. */
  predicate IsLastPart(s: string)
  {
    |s| > 0 && forall i :: 0 <= i < |s| ==> s[i] != '/' && s[i] != '?'
  }

  /** The index of the first separator of s at or after `from`, or |s| if there is none. */
  function NextSeparator(s: string, from: nat): (i: nat)
    requires from <= |s|
    ensures from <= i <= |s|
    ensures i < |s| ==> IsSeparator(s[i])
    ensures forall k :: from <= k < i ==> !IsSeparator(s[k])
    decreases |s| - from
  {
    if from == |s| then from
    else if IsSeparator(s[from]) then from
    else NextSeparator(s, from + 1)
  }

  /**
   * `COURSE_ID_PATTERN` matches the whole of s.  Since the leading parts
   * cannot contain a separator, the two separators of a match are the first
   * two separators of s.
   */
  predicate IsCourseId(s: string)
  {
    var i := NextSeparator(s, 0);
    i < |s| &&
    var j := NextSeparator(s, i + 1);
    0 < i && i + 1 < j < |s| - 1 && IsLastPart(s[j + 1..])
  }

  /** The regular expression's reading of a course id, part by part. */
  predicate CourseIdParts(s: string, first: string, sep1: char, second: string, sep2: char, last: string)
  {
    s == first + [sep1] + second + [sep2] + last
    && IsLeadingPart(first) && IsSeparator(sep1)
    && IsLeadingPart(second) && IsSeparator(sep2)
    && IsLastPart(last)
  }

  /** Every string of the parts' shape is accepted. */
  lemma CourseIdFromParts(s: string, first: string, sep1: char, second: string, sep2: char, last: string)
    requires CourseIdParts(s, first, sep1, second, sep2, last)
    ensures IsCourseId(s)
  {
    var i := |first|;
    var j := |first| + 1 + |second|;
    assert s[i] == sep1;
    assert forall k :: 0 <= k < i ==> s[k] == first[k];
    NextSeparatorFinds(s, 0, i);
    assert s[j] == sep2;
    assert forall k :: i + 1 <= k < j ==> s[k] == second[k - i - 1];
    NextSeparatorFinds(s, i + 1, j);
    assert s[j + 1..] == last;
  }

  /** Every accepted string splits into the parts' shape. */
  lemma CourseIdToParts(s: string) returns (first: string, sep1: char, second: string, sep2: char, last: string)
    requires IsCourseId(s)
    ensures CourseIdParts(s, first, sep1, second, sep2, last)
  {
    var i := NextSeparator(s, 0);
    var j := NextSeparator(s, i + 1);
    first, sep1, second, sep2, last := s[..i], s[i], s[i + 1..j], s[j], s[j + 1..];
    assert s == s[..i] + [s[i]] + s[i + 1..j] + [s[j]] + s[j + 1..];
  }

  /** The first separator at or after `from` is the one at `at` when none comes between. */
  lemma NextSeparatorFinds(s: string, from: nat, at: nat)
    requires from <= at < |s| && IsSeparator(s[at])
    requires forall k :: from <= k < at ==> !IsSeparator(s[k])
    ensures NextSeparator(s, from) == at
    decreases at - from
  {
    if from < at {
      NextSeparatorFinds(s, from + 1, at);
    }
  }

  /** A new-style course id is accepted. */
  lemma NewStyleCourseId()
    ensures IsCourseId("course-v1:HUMx+English-550+Spring")
  {
    var first, second, last := "course-v1:HUMx", "English-550", "Spring";
    assert IsLeadingPart(first);
    assert IsLeadingPart(second);
    assert IsLastPart(last);
    assert "course-v1:HUMx+English-550+Spring" == first + ['+'] + second + ['+'] + last;
    CourseIdFromParts("course-v1:HUMx+English-550+Spring", first, '+', second, '+', last);
  }

  /** An old-style course id without the `course-v1:` prefix is accepted. */
  lemma OldStyleCourseId()
    ensures IsCourseId("HUMx+English-550+Spring")
  {
    var first, second, last := "HUMx", "English-550", "Spring";
    assert IsLeadingPart(first);
    assert IsLeadingPart(second);
    assert IsLastPart(last);
    assert "HUMx+English-550+Spring" == first + ['+'] + second + ['+'] + last;
    CourseIdFromParts("HUMx+English-550+Spring", first, '+', second, '+', last);
  }
}
