/** ASCII lower case and substrings. */
module Text {

  function LowerChar(c: char): char {
    if 'A' <= c <= 'Z' then (c as int + 32) as char else c
  }

  function Lower(s: string): (r: string)
    ensures |r| == |s|
    ensures forall i :: 0 <= i < |s| ==> r[i] == LowerChar(s[i])
  {
    if s == [] then [] else [LowerChar(s[0])] + Lower(s[1..])
  }

  predicate Contains(s: string, part: string) {
    exists i :: 0 <= i <= |s| && part <= s[i..]
  }

  /** `part` stands in `s` at position `i`. */
  predicate OccursAt(s: string, i: nat, part: string) {
    i + |part| <= |s| && forall k :: 0 <= k < |part| ==> s[i + k] == part[k]
  }

  lemma ContainsIff(s: string, part: string)
    ensures Contains(s, part) <==> exists i: nat :: OccursAt(s, i, part)
  {
    if Contains(s, part) {
      var i :| 0 <= i <= |s| && part <= s[i..];
      forall k | 0 <= k < |part| ensures s[i + k] == part[k] { assert s[i..][k] == part[k]; }
      assert OccursAt(s, i, part);
    }
    if i: nat :| OccursAt(s, i, part) {
      assert s[i..][..|part|] == part;
    }
  }

  /** The characters are the same up to the case of an ASCII letter of the first. */
  predicate Reads(c: char, lower: char) {
    c == lower || ('A' <= c <= 'Z' && c as int - 'A' as int == lower as int - 'a' as int)
  }

  predicate ReadsAt(s: string, i: nat, phrase: string) {
    i + |phrase| <= |s| && forall k :: 0 <= k < |phrase| ==> Reads(s[i + k], phrase[k])
  }

  /** The text mentions the lower-case phrase, in any mix of cases. */
  predicate Mentions(s: string, phrase: string) {
    exists i: nat :: i <= |s| && ReadsAt(s, i, phrase)
  }

  predicate NoCapital(s: string) {
    forall i :: 0 <= i < |s| ==> !('A' <= s[i] <= 'Z')
  }

  lemma MentionsIff(s: string, phrase: string)
    requires NoCapital(phrase)
    ensures Contains(Lower(s), phrase) <==> Mentions(s, phrase)
  {
    ContainsIff(Lower(s), phrase);
    if i: nat :| OccursAt(Lower(s), i, phrase) {
      forall k | 0 <= k < |phrase| ensures Reads(s[i + k], phrase[k]) { assert Lower(s)[i + k] == phrase[k]; }
      assert ReadsAt(s, i, phrase);
    }
    if i: nat :| i <= |s| && ReadsAt(s, i, phrase) {
      forall k | 0 <= k < |phrase| ensures Lower(s)[i + k] == phrase[k] { assert Reads(s[i + k], phrase[k]); }
      assert OccursAt(Lower(s), i, phrase);
    }
  }
}
