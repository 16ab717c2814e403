/** Java-level notions shared by the whole model: references that may be null,
    java.util.Optional, the exceptions the core raises, and fixed-width integers. */
module Lang {

  /** A Java reference that may be null. */
  datatype Nullable<+T> = Null | NonNull(value: T)

  /** java.util.Optional (and OptionalLong): a value that is explicitly present or empty. */
  datatype Optional<+T> = Empty | Present(value: T) {

    /** Optional.orElse */
    function OrElse(default: T): T {
      match this
      case Present(v) => v
      case Empty => default
    }
  }

  /** The exception kinds the core raises, each with the message it carries. */
  datatype Error =
    | NullParameter(message: string)     // ValidateUtils.checkNullParameter
    | IllegalParameter(message: string)  // ValidateUtils.checkIllegalParameter
    | IllegalState(message: string)      // IllegalStateException
    | RequestFailure(message: string)    // ZosmfRequestException wrapping a transport error
    | NullPointer                        // NullPointerException raised by Optional.of(null)

  /** Either the normal result of a Java call or the exception it throws. */
  datatype Result<+T> = Ok(value: T) | Fail(error: Error)

  /** Optional.ofNullable: empty exactly for null, otherwise the same value. */
  function OfNullable<T>(x: Nullable<T>): (r: Optional<T>)
    ensures r.Empty? <==> x.Null?
    ensures x.NonNull? ==> r == Present(x.value)
  {
    match x
    case Null => Empty
    case NonNull(v) => Present(v)
  }

  /** Optional.of: throws on null instead of returning empty. */
  function OptionalOf<T>(x: Nullable<T>): (r: Result<Optional<T>>)
    ensures r.Fail? <==> x.Null?
    ensures r.Fail? ==> r.error == NullPointer
    ensures x.NonNull? ==> r == Ok(Present(x.value))
  {
    match x
    case Null => Fail(NullPointer)
    case NonNull(v) => Ok(Present(v))
  }

  /** Objects.requireNonNullElse: the value, or the default when it is null. */
  function RequireNonNullElse<T>(x: Nullable<T>, default: T): (r: T)
    ensures x.Null? ==> r == default
    ensures x.NonNull? ==> r == x.value
  {
    match x
    case Null => default
    case NonNull(v) => v
  }

  /** Java `int` and `long`. */
  newtype int32 = x: int | -0x8000_0000 <= x < 0x8000_0000
  newtype int64 = x: int | -0x8000_0000_0000_0000 <= x < 0x8000_0000_0000_0000

  /** Two's-complement wrap-around of Java `int` arithmetic: the unique int32
      congruent to x modulo 2^32. */
  function Wrap32(x: int): (r: int32)
    ensures (r as int - x) % 0x1_0000_0000 == 0
    ensures -0x8000_0000 <= x < 0x8000_0000 ==> r as int == x
  {
    ((x + 0x8000_0000) % 0x1_0000_0000 - 0x8000_0000) as int32
  }

  /** A character outside the Basic Multilingual Plane, which a Java String stores as two
      UTF-16 code units. */
  predicate IsSupplementary(c: char) {
    c as int > 0xFFFF
  }

  /** The UTF-16 code units of a string, as a Java String holds them: a supplementary
      character becomes a high surrogate followed by a low surrogate. */
  function Utf16Units(s: string): (u: seq<int>)
    ensures |u| >= |s|
    ensures |u| == |s| <==> forall i :: 0 <= i < |s| ==> !IsSupplementary(s[i])
    ensures forall k :: 0 <= k < |u| ==> 0 <= u[k] < 0x1_0000
    decreases |s|
  {
    if s == [] then []
    else
      var c := s[0] as int;
      var head := if c <= 0xFFFF then [c] else [0xD800 + (c - 0x1_0000) / 0x400, 0xDC00 + (c - 0x1_0000) % 0x400];
      assert forall i :: 1 <= i < |s| ==> s[i] == s[1..][i - 1];
      head + Utf16Units(s[1..])
  }

  /** The positions of a string's supplementary characters. */
  function SupplementaryIndices(s: string): set<int> {
    set i | 0 <= i < |s| && IsSupplementary(s[i])
  }

  /** The code units of a concatenation are as many as those of its two parts. */
  lemma {:induction false} Utf16UnitsAppend(a: string, b: string)
    ensures |Utf16Units(a + b)| == |Utf16Units(a)| + |Utf16Units(b)|
    decreases |a|
  {
    if a == [] {
      assert a + b == b;
    } else {
      assert (a + b)[1..] == a[1..] + b;
      Utf16UnitsAppend(a[1..], b);
    }
  }

  /** Each supplementary character takes two code units, every other character one. */
  lemma {:induction false} Utf16UnitsCount(s: string)
    ensures |Utf16Units(s)| == |s| + |SupplementaryIndices(s)|
    decreases |s|
  {
    if s == [] {
      assert SupplementaryIndices(s) == {};
    } else {
      var prefix, c := s[..|s| - 1], s[|s| - 1];
      assert s == prefix + [c];
      Utf16UnitsAppend(prefix, [c]);
      Utf16UnitsCount(prefix);
      assert [c][1..] == [];
      var last: set<int> := if IsSupplementary(c) then {|s| - 1} else {};
      assert forall i :: 0 <= i < |prefix| ==> s[i] == prefix[i];
      assert SupplementaryIndices(s) == SupplementaryIndices(prefix) + last;
      assert |s| - 1 !in SupplementaryIndices(prefix);
    }
  }

  /** String.length(): the number of UTF-16 code units, one more than the number of
      characters for each supplementary character. */
  function JavaLength(s: string): (n: nat)
    ensures n == |s| + |SupplementaryIndices(s)|
    ensures n == |s| <==> forall i :: 0 <= i < |s| ==> !IsSupplementary(s[i])
  {
    Utf16UnitsCount(s);
    |Utf16Units(s)|
  }
}
