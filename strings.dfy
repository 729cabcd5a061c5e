/** Python's `str.split` and `str.join` for a one-character separator. */
module Strings {

  /** `sep.join(parts)`; `split` never returns an empty list, so neither is
      `parts` here. */
  function Join(parts: seq<string>, sep: char): (joined: string)
    requires |parts| >= 1
  {
    if |parts| == 1 then parts[0] else parts[0] + [sep] + Join(parts[1..], sep)
  }

  /** `s.split(sep)`: the maximal separator-free pieces of `s`, in order,
      so that joining them again gives back `s`. */
  function Split(s: string, sep: char): (parts: seq<string>)
    ensures |parts| >= 1
    ensures forall i :: 0 <= i < |parts| ==> sep !in parts[i]
    ensures Join(parts, sep) == s
    decreases |s|
  {
    if s == [] then [[]]
    else
      var rest := Split(s[1..], sep);
      if s[0] == sep then
        assert s == [sep] + s[1..];
        [[]] + rest
      else
        var parts := [[s[0]] + rest[0]] + rest[1..];
        assert parts[1..] == rest[1..];
        assert s == [s[0]] + s[1..];
        parts
  }

  /** The last piece of `Join(parts, sep)` ends the joined string, and, when
      there are several pieces, it is preceded by the separator. */
  lemma {:induction false} JoinEndsWithLast(parts: seq<string>, sep: char)
    requires |parts| >= 1
    ensures var joined, last := Join(parts, sep), parts[|parts| - 1];
      && |last| <= |joined|
      && joined[|joined| - |last|..] == last
      && (|parts| > 1 ==> |last| < |joined| && joined[|joined| - |last| - 1] == sep)
  {
    if |parts| > 1 {
      var tail := parts[1..];
      JoinEndsWithLast(tail, sep);
      var joinedTail := Join(tail, sep);
      var last := parts[|parts| - 1];
      assert tail[|tail| - 1] == last;
      var joined := parts[0] + [sep] + joinedTail;
      assert Join(parts, sep) == joined;
      var offset := |parts[0]| + 1;
      assert joined[offset..] == joinedTail;
      assert joined[|joined| - |last|..] == joinedTail[|joinedTail| - |last|..];
      if |tail| > 1 {
        assert joined[|joined| - |last| - 1] == joinedTail[|joinedTail| - |last| - 1];
      } else {
        assert joinedTail == last;
        assert joined[|joined| - |last| - 1] == sep;
      }
    }
  }
}
