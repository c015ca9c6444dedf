/** C strings as the program sees them: the argument vector's elements and the
    string literals it compares them with, and the `strcmp` comparison that
    `is_arg` is built on. */
module CStrings {

  /** A C string cannot hold NUL: the first NUL byte ends it. Every element of
      a process's argument vector, and every literal of the program, is one. */
  predicate IsCString(s: string)
  {
    forall i :: 0 <= i < |s| ==> s[i] != '\0'
  }

  /** `strcmp`: compares character codes position by position until the first
      difference; the end of a string reads as NUL (code 0), so a proper prefix
      compares below the longer string. Only the sign of the result is
      specified by C, so the model returns -1, 0 or 1. */
  function Strcmp(a: string, b: string): (r: int)
    ensures -1 <= r <= 1
    ensures |a| == 0 && |b| == 0 ==> r == 0
    decreases |a|
  {
    var ca := if |a| == 0 then 0 else a[0] as int;
    var cb := if |b| == 0 then 0 else b[0] as int;
    if ca != cb then (if ca < cb then -1 else 1)
    else if ca == 0 then 0
    else Strcmp(a[1..], b[1..])
  }

  /** On C strings, `strcmp` reports 0 exactly for equal strings: a whole-string,
      case-sensitive comparison with no prefix matching. */
  lemma {:induction false} StrcmpZeroIffEqual(a: string, b: string)
    requires IsCString(a) && IsCString(b)
    ensures Strcmp(a, b) == 0 <==> a == b
    decreases |a|
  {
    if |a| > 0 && |b| > 0 && a[0] == b[0] {
      assert IsCString(a[1..]) && IsCString(b[1..]);
      StrcmpZeroIffEqual(a[1..], b[1..]);
      if a[1..] == b[1..] {
        assert a == [a[0]] + a[1..] && b == [b[0]] + b[1..];
      }
    } else if |a| > 0 {
      assert a[0] != '\0';
    } else if |b| > 0 {
      assert b[0] != '\0';
    }
  }
}
