/**
 * The two string operations the item resolver uses: `toLowerCase`, restricted
 * to ASCII letters, and `includes`, substring containment.
 */
module TextMatch {

  predicate IsUpper(ch: char)
  {
    'A' <= ch <= 'Z'
  }

  function LowerChar(ch: char): char
  {
    if IsUpper(ch) then (ch as int + 32) as char else ch
  }

  /** `s.toLowerCase()` on ASCII: upper-case letters become lower-case, every other character stays. */
  function ToLower(s: string): (r: string)
    ensures |r| == |s|
    ensures forall i :: 0 <= i < |s| ==> !IsUpper(r[i])
    ensures forall i :: 0 <= i < |s| && !IsUpper(s[i]) ==> r[i] == s[i]
    ensures forall i :: 0 <= i < |s| && IsUpper(s[i]) ==> r[i] as int == s[i] as int + 32
  {
    seq(|s|, i requires 0 <= i < |s| => LowerChar(s[i]))
  }

  /** `needle` sits in `hay` starting at position i. */
  predicate OccursAt(hay: string, needle: string, i: int)
  {
    0 <= i && i + |needle| <= |hay| && hay[i..i + |needle|] == needle
  }

  /** An occurrence in the tail is an occurrence one place later in the whole, and back. */
  lemma OccursInTail(hay: string, needle: string)
    requires |hay| >= 1
    ensures forall i :: OccursAt(hay[1..], needle, i) ==> OccursAt(hay, needle, i + 1)
    ensures forall i :: 1 <= i && OccursAt(hay, needle, i) ==> OccursAt(hay[1..], needle, i - 1)
  {
    forall i | OccursAt(hay[1..], needle, i) ensures OccursAt(hay, needle, i + 1) {
      assert hay[i + 1..i + 1 + |needle|] == hay[1..][i..i + |needle|];
    }
    forall i | 1 <= i && OccursAt(hay, needle, i) ensures OccursAt(hay[1..], needle, i - 1) {
      assert hay[1..][i - 1..i - 1 + |needle|] == hay[i..i + |needle|];
    }
  }

  /** `hay.includes(needle)`, scanning the start positions left to right. */
  function Includes(hay: string, needle: string): (r: bool)
    ensures r <==> exists i :: OccursAt(hay, needle, i)
  {
    if |needle| > |hay| then
      assert forall i :: !OccursAt(hay, needle, i);
      false
    else if hay[..|needle|] == needle then
      assert OccursAt(hay, needle, 0);
      true
    else
      var r := Includes(hay[1..], needle);
      assert !OccursAt(hay, needle, 0);
      OccursInTail(hay, needle);
      assert r ==> exists i :: OccursAt(hay, needle, i) by {
        if r {
          var i :| OccursAt(hay[1..], needle, i);
          assert OccursAt(hay, needle, i + 1);
        }
      }
      assert (exists i :: OccursAt(hay, needle, i)) ==> r by {
        if exists i :: OccursAt(hay, needle, i) {
          var i :| OccursAt(hay, needle, i);
          assert OccursAt(hay[1..], needle, i - 1);
        }
      }
      r
  }

  /** Every string includes the empty string and itself. */
  lemma IncludesEmptyAndSelf(s: string)
    ensures Includes(s, "") && Includes(s, s)
  {
    assert OccursAt(s, "", 0);
    assert OccursAt(s, s, 0);
  }
}
