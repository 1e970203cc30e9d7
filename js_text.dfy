/**
 * The string operations of JavaScript that the plugin relies on:
 * `String.prototype.toLowerCase` (restricted to ASCII letters) and
 * `Array.prototype.join`.
 */
module JsText {

  /** `toLowerCase` of one character: 'A'..'Z' become 'a'..'z', everything else is kept. */
  function LowerChar(c: char): (r: char)
    ensures 'A' <= c <= 'Z' ==> 'a' <= r <= 'z' && r as int == c as int + 32
    ensures !('A' <= c <= 'Z') ==> r == c
  {
    if 'A' <= c <= 'Z' then (c as int + 32) as char else c
  }

  predicate IsLower(s: string) {
    forall i :: 0 <= i < |s| ==> !('A' <= s[i] <= 'Z')
  }

  /** `s.toLowerCase()` */
  function Lower(s: string): (r: string)
    ensures |r| == |s|
    ensures forall i :: 0 <= i < |s| ==> r[i] == LowerChar(s[i])
    ensures IsLower(r)
  {
    seq(|s|, i requires 0 <= i < |s| => LowerChar(s[i]))
  }

  /** Lower-casing twice is lower-casing once. */
  lemma LowerIdempotent(s: string)
    ensures Lower(Lower(s)) == Lower(s)
  {
  }

  /** A string without upper-case letters is its own lower-case form. */
  lemma LowerOfLower(s: string)
    requires IsLower(s)
    ensures Lower(s) == s
  {
  }

  /** `parts.join(sep)` */
  function Join(parts: seq<string>, sep: string): (r: string)
    ensures parts == [] ==> r == ""
    ensures |parts| == 1 ==> r == parts[0]
  {
    if parts == [] then ""
    else if |parts| == 1 then parts[0]
    else parts[0] + sep + Join(parts[1..], sep)
  }

  /** `part` occurs in `whole` starting at index `i`. */
  predicate OccursAt(part: string, whole: string, i: int) {
    0 <= i <= |whole| - |part| && whole[i..i + |part|] == part
  }

  /** Where `front + back` occurs, `back` occurs `|front|` further on. */
  lemma OccursAtEnd(front: string, back: string, whole: string, i: int)
    requires OccursAt(front + back, whole, i)
    ensures OccursAt(back, whole, i + |front|)
  {
    assert whole[i + |front|..i + |front| + |back|] == whole[i..i + |front| + |back|][|front|..];
  }

  ghost predicate IsSubstring(part: string, whole: string) {
    exists i :: OccursAt(part, whole, i)
  }

  /** Every joined part occurs in the joined text. */
  lemma {:induction false} JoinContains(parts: seq<string>, sep: string, k: nat)
    requires k < |parts|
    ensures IsSubstring(parts[k], Join(parts, sep))
  {
    var whole := Join(parts, sep);
    if |parts| == 1 {
      assert OccursAt(parts[0], whole, 0);
    } else if k == 0 {
      assert whole[0..|parts[0]|] == parts[0];
      assert OccursAt(parts[0], whole, 0);
    } else {
      JoinContains(parts[1..], sep, k - 1);
      var rest := Join(parts[1..], sep);
      var i :| OccursAt(parts[k], rest, i);
      var off := |parts[0]| + |sep|;
      assert whole == parts[0] + sep + rest;
      assert whole[off + i..off + i + |parts[k]|] == rest[i..i + |parts[k]|];
      assert OccursAt(parts[k], whole, off + i);
    }
  }

  /** A part that occurs in a text occurs in any text with a prefix put before it. */
  lemma SubstringAfterPrefix(part: string, head: string, tail: string)
    requires IsSubstring(part, tail)
    ensures IsSubstring(part, head + tail)
  {
    var i :| OccursAt(part, tail, i);
    assert (head + tail)[|head| + i..|head| + i + |part|] == tail[i..i + |part|];
    assert OccursAt(part, head + tail, |head| + i);
  }
}
