/**
 * The two string operations the keyword and name tests rest on:
 * `toLowerCase()` and `includes()`.
 */
module Text {

  /** Upper-case letters the application meets: ASCII A-Z and the Romanian capitals. */
  predicate IsUpper(c: char) {
    || 'A' <= c <= 'Z'
    || c == 'Ă' || c == 'Â' || c == 'Î' || c == 'Ș' || c == 'Ş' || c == 'Ț' || c == 'Ţ'
  }

  function LowerChar(c: char): char {
    if 'A' <= c <= 'Z' then ((c as int) + 32) as char
    else if c == 'Ă' then 'ă'
    else if c == 'Â' then 'â'
    else if c == 'Î' then 'î'
    else if c == 'Ș' then 'ș'
    else if c == 'Ş' then 'ş'
    else if c == 'Ț' then 'ț'
    else if c == 'Ţ' then 'ţ'
    else c
  }

  /** `s.toLowerCase()`: same length, no capital left, every other character kept. */
  function ToLower(s: string): (r: string)
    ensures |r| == |s|
    ensures forall i :: 0 <= i < |r| ==> !IsUpper(r[i])
    ensures forall i :: 0 <= i < |s| && !IsUpper(s[i]) ==> r[i] == s[i]
    ensures forall i :: 0 <= i < |s| && 'A' <= s[i] <= 'Z' ==> r[i] as int == s[i] as int + 32
    ensures forall i :: 0 <= i < |s| ==>
              && (s[i] == 'Ă' ==> r[i] == 'ă') && (s[i] == 'Â' ==> r[i] == 'â') && (s[i] == 'Î' ==> r[i] == 'î')
              && (s[i] == 'Ș' ==> r[i] == 'ș') && (s[i] == 'Ş' ==> r[i] == 'ş')
              && (s[i] == 'Ț' ==> r[i] == 'ț') && (s[i] == 'Ţ' ==> r[i] == 'ţ')
  {
    seq(|s|, i requires 0 <= i < |s| => LowerChar(s[i]))
  }

  /** Lower-casing twice is lower-casing once. */
  lemma ToLowerIdempotent(s: string)
    ensures ToLower(ToLower(s)) == ToLower(s)
  {
  }

  /** `needle` occurs in `hay` starting at index `i`. */
  predicate OccursAt(hay: string, needle: string, i: nat) {
    i + |needle| <= |hay| && hay[i..i + |needle|] == needle
  }

  /** `hay.includes(needle)`, scanning the start positions from left to right. */
  function Includes(hay: string, needle: string): bool
    decreases |hay|
  {
    if OccursAt(hay, needle, 0) then true
    else if hay == [] then false
    else Includes(hay[1..], needle)
  }

  /** The scan finds an occurrence exactly when one exists. */
  lemma {:induction false} IncludesIff(hay: string, needle: string)
    ensures Includes(hay, needle) <==> exists i: nat :: OccursAt(hay, needle, i)
    decreases |hay|
  {
    if OccursAt(hay, needle, 0) {
    } else if hay == [] {
      assert forall i: nat :: !OccursAt(hay, needle, i);
    } else {
      IncludesIff(hay[1..], needle);
      if Includes(hay[1..], needle) {
        var j: nat :| OccursAt(hay[1..], needle, j);
        assert hay[j + 1..j + 1 + |needle|] == hay[1..][j..j + |needle|];
        assert OccursAt(hay, needle, j + 1);
      } else {
        forall i: nat ensures !OccursAt(hay, needle, i) {
          if OccursAt(hay, needle, i) {
            assert i > 0;
            assert hay[1..][i - 1..i - 1 + |needle|] == hay[i..i + |needle|];
            assert OccursAt(hay[1..], needle, i - 1);
          }
        }
      }
    }
  }

  /** Every string includes the empty string (so an empty name matches any text). */
  lemma IncludesEmpty(hay: string)
    ensures Includes(hay, "")
  {
    assert OccursAt(hay, "", 0);
  }

  /** A string that occurs at some position is included. */
  lemma IncludesAt(hay: string, needle: string, i: nat)
    requires OccursAt(hay, needle, i)
    ensures Includes(hay, needle)
  {
    IncludesIff(hay, needle);
  }

  /** A needle longer than the text is never included. */
  lemma IncludesLonger(hay: string, needle: string)
    requires |needle| > |hay|
    ensures !Includes(hay, needle)
  {
    IncludesIff(hay, needle);
  }
}
