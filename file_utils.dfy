/** The two argument validators for Unix System Services (USS) calls:
    a nine-character permission string and an absolute path. */
module FileUtils {
  import opened Lang

  const PERMISSION_NULL := "permission value is null"
  const PERMISSION_LENGTH := "specify 9 character permission"
  const PERMISSION_INVALID := "specify valid permission value"
  const PATH_NULL := "path value is null"
  const PATH_INVALID := "specify valid path value"

  /** The seven alternatives of the permission pattern. "---" is not one of them. */
  const PermissionTriples: set<string> := {"rwx", "rw-", "r--", "r-x", "--x", "-wx", "-w-"}

  /** Whole-string match of the pattern `(rwx|rw-|r--|r-x|--x|-wx|-w-)+`:
      one alternative, followed by nothing or by another match. */
  predicate MatchesPermissionPattern(s: string)
    decreases |s|
  {
    |s| >= 3 && s[..3] in PermissionTriples && (|s| == 3 || MatchesPermissionPattern(s[3..]))
  }

  /** The k-th group of three characters. */
  function Group(s: string, k: nat): string
    requires 3 * k + 3 <= |s|
  {
    s[3 * k .. 3 * k + 3]
  }

  /** A whole number of groups, at least one, each a permitted triple. */
  predicate AllGroupsPermitted(s: string) {
    |s| > 0 && |s| % 3 == 0 && forall k: nat :: k < |s| / 3 ==> Group(s, k) in PermissionTriples
  }

  /** The regular expression accepts exactly the strings made of permitted triples. */
  lemma {:induction false} PermissionPatternIsGroups(s: string)
    ensures MatchesPermissionPattern(s) <==> AllGroupsPermitted(s)
    decreases |s|
  {
    if |s| >= 3 {
      var t := s[3..];
      PermissionPatternIsGroups(t);
      forall k: nat | k < |t| / 3 ensures Group(t, k) == Group(s, k + 1) {
      }
      if AllGroupsPermitted(s) {
        assert Group(s, 0) == s[..3];
        if |s| > 3 {
          forall k: nat | k < |t| / 3 ensures Group(t, k) in PermissionTriples {
            assert Group(t, k) == Group(s, k + 1);
          }
        }
      }
      if MatchesPermissionPattern(s) && |s| > 3 {
        forall k: nat | k < |s| / 3 ensures Group(s, k) in PermissionTriples {
          if k > 0 {
            assert Group(s, k) == Group(t, k - 1);
          }
        }
      }
    }
  }

  /** For nine characters: each of the three groups is a permitted triple. */
  predicate IsPermissionTriplet(s: string) {
    |s| == 9 && s[0..3] in PermissionTriples && s[3..6] in PermissionTriples && s[6..9] in PermissionTriples
  }

  lemma NineCharPatternIsTriplet(s: string)
    requires |s| == 9
    ensures MatchesPermissionPattern(s) <==> IsPermissionTriplet(s)
  {
    PermissionPatternIsGroups(s);
    assert Group(s, 0) == s[0..3];
    assert Group(s, 1) == s[3..6];
    assert Group(s, 2) == s[6..9];
  }

  /** Every character of a string made of permitted triples is one of `r`, `w`, `x`, `-`,
      so none of them is a supplementary character. */
  lemma GroupedCharsAreBmp(s: string)
    requires AllGroupsPermitted(s)
    ensures forall i :: 0 <= i < |s| ==> !IsSupplementary(s[i])
  {
    forall i | 0 <= i < |s| ensures !IsSupplementary(s[i]) {
      var k := i / 3;
      assert Group(s, k)[i % 3] == s[i];
    }
  }

  /** String.length() of an accepted permission is 9, and at a length of nine UTF-16 code
      units the pattern accepts exactly the permission triplets. */
  lemma PermissionPatternAtJavaLengthNine(s: string)
    ensures IsPermissionTriplet(s) ==> JavaLength(s) == 9
    ensures JavaLength(s) == 9 ==> (MatchesPermissionPattern(s) <==> IsPermissionTriplet(s))
  {
    PermissionPatternIsGroups(s);
    if |s| == 9 {
      NineCharPatternIsTriplet(s);
    }
    if AllGroupsPermitted(s) {
      GroupedCharsAreBmp(s);
    }
  }

  /** FileUtils.validatePermission: the null check, then the length check on String.length()
      (UTF-16 code units), then the pattern; on acceptance the value itself is returned. */
  function ValidatePermission(value: Nullable<string>): (r: Result<string>)
    ensures value.Null? ==> r == Fail(NullParameter(PERMISSION_NULL))
    ensures value.NonNull? && JavaLength(value.value) != 9 ==> r == Fail(IllegalParameter(PERMISSION_LENGTH))
    ensures value.NonNull? && JavaLength(value.value) == 9 && !IsPermissionTriplet(value.value) ==>
              r == Fail(IllegalState(PERMISSION_INVALID))
    ensures r.Ok? <==> value.NonNull? && IsPermissionTriplet(value.value)
    ensures r.Ok? ==> r.value == value.value
  {
    match value
    case Null => Fail(NullParameter(PERMISSION_NULL))
    case NonNull(v) =>
      PermissionPatternAtJavaLengthNine(v);
      if JavaLength(v) != 9 then Fail(IllegalParameter(PERMISSION_LENGTH))
      else if !MatchesPermissionPattern(v) then Fail(IllegalState(PERMISSION_INVALID))
      else Ok(v)
  }

  /** A value the validator accepts is accepted again, unchanged. */
  lemma ValidatePermissionIdempotent(value: Nullable<string>)
    requires ValidatePermission(value).Ok?
    ensures ValidatePermission(NonNull(ValidatePermission(value).value)) == ValidatePermission(value)
  {
  }

  /** "---" is not a permitted triple, so a permission denying all access to a class is refused. */
  lemma NoAccessTripleRejected()
    ensures ValidatePermission(NonNull("rwx------")) == Fail(IllegalState(PERMISSION_INVALID))
    ensures ValidatePermission(NonNull("rwxr-xr-x")) == Ok("rwxr-xr-x")
  {
    assert "rwx------"[3..6] == "---";
    assert "---" !in PermissionTriples;
    assert "rwxr-xr-x"[0..3] == "rwx";
    assert "rwxr-xr-x"[3..6] == "r-x";
    assert "rwxr-xr-x"[6..9] == "r-x";
  }

  /** String.length() counts a character outside the Basic Multilingual Plane twice, so eight
      permission characters followed by one such character fail the length check. */
  lemma SupplementaryCharCountsTwice()
    ensures ValidatePermission(NonNull("rwxrwxrw\U{1F600}")) == Fail(IllegalParameter(PERMISSION_LENGTH))
  {
    assert IsSupplementary("rwxrwxrw\U{1F600}"[8]);
  }

  /** The line terminators Java's `.` refuses to match by default. */
  predicate IsLineTerminator(c: char) {
    c == '\n' || c == '\r' || c == '\U{0085}' || c == '\U{2028}' || c == '\U{2029}'
  }

  /** Whole-string match of `.*`. */
  predicate MatchesDotStar(s: string)
    decreases |s|
  {
    s == [] || (!IsLineTerminator(s[0]) && MatchesDotStar(s[1..]))
  }

  /** Whole-string match of the path pattern `\/.*`. */
  predicate MatchesPathPattern(s: string) {
    |s| >= 1 && s[0] == '/' && MatchesDotStar(s[1..])
  }

  lemma {:induction false} DotStarHasNoLineTerminator(s: string)
    ensures MatchesDotStar(s) <==> forall i :: 0 <= i < |s| ==> !IsLineTerminator(s[i])
    decreases |s|
  {
    if s != [] {
      DotStarHasNoLineTerminator(s[1..]);
      assert forall i :: 1 <= i < |s| ==> s[i] == s[1..][i - 1];
    }
  }

  /** An absolute path: a leading '/' and no line terminator anywhere after it. */
  predicate IsAbsolutePath(s: string) {
    |s| >= 1 && s[0] == '/' && forall i :: 1 <= i < |s| ==> !IsLineTerminator(s[i])
  }

  /** FileUtils.validatePath: the null check, then the pattern; on acceptance the value is returned. */
  function ValidatePath(value: Nullable<string>): (r: Result<string>)
    ensures value.Null? ==> r == Fail(NullParameter(PATH_NULL))
    ensures value.NonNull? && !IsAbsolutePath(value.value) ==> r == Fail(IllegalState(PATH_INVALID))
    ensures r.Ok? <==> value.NonNull? && IsAbsolutePath(value.value)
    ensures r.Ok? ==> r.value == value.value
  {
    match value
    case Null => Fail(NullParameter(PATH_NULL))
    case NonNull(v) =>
      if |v| >= 1 then
        DotStarHasNoLineTerminator(v[1..]);
        assert forall i :: 1 <= i < |v| ==> v[i] == v[1..][i - 1];
        if !MatchesPathPattern(v) then Fail(IllegalState(PATH_INVALID)) else Ok(v)
      else
        Fail(IllegalState(PATH_INVALID))
  }

  /** A path the validator accepts is accepted again, unchanged. */
  lemma ValidatePathIdempotent(value: Nullable<string>)
    requires ValidatePath(value).Ok?
    ensures ValidatePath(NonNull(ValidatePath(value).value)) == ValidatePath(value)
  {
  }

  /** A relative name is refused; a path spanning two lines is refused too. */
  lemma RelativePathRejected()
    ensures ValidatePath(NonNull("name")) == Fail(IllegalState(PATH_INVALID))
    ensures ValidatePath(NonNull("/xxx/xx/xx")) == Ok("/xxx/xx/xx")
    ensures ValidatePath(NonNull("/a\nb")) == Fail(IllegalState(PATH_INVALID))
  {
    assert IsLineTerminator("/a\nb"[2]);
  }
}
