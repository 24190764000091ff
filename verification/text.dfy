/** Text operations the source takes from JavaScript strings:
    `toLowerCase` (modelled as ASCII A-Z folding) and `includes`. */
module Text {

  /** Folds one ASCII upper-case letter to lower case; every other
      character is left alone. */
  function LowerChar(c: char): (r: char)
    ensures 'A' <= c <= 'Z' ==> r as int == c as int + 32
    ensures !('A' <= c <= 'Z') ==> r == c
    ensures !('A' <= r <= 'Z')
  {
    if 'A' <= c <= 'Z' then (c as int + 32) as char else c
  }

  /** `s.toLowerCase()`, character by character. */
  function Lower(s: string): (r: string)
    ensures |r| == |s|
    ensures forall i :: 0 <= i < |s| ==> r[i] == LowerChar(s[i])
  {
    if |s| == 0 then [] else [LowerChar(s[0])] + Lower(s[1..])
  }

  /** `hay.includes(needle)`: some position of `hay` starts with `needle`. */
  predicate Contains(hay: string, needle: string)
    decreases |hay|
  {
    needle <= hay || (|hay| > 0 && Contains(hay[1..], needle))
  }

  /** A containment names a position where the needle starts. */
  lemma {:induction false} ContainsWitness(hay: string, needle: string) returns (i: nat)
    requires Contains(hay, needle)
    ensures i + |needle| <= |hay| && needle <= hay[i..]
    decreases |hay|
  {
    if needle <= hay {
      i := 0;
    } else {
      var j := ContainsWitness(hay[1..], needle);
      assert hay[1..][j..] == hay[j + 1..];
      i := j + 1;
    }
  }

  /** A needle starting at position `i` is contained. */
  lemma {:induction false} ContainsFrom(hay: string, needle: string, i: nat)
    requires i + |needle| <= |hay| && needle <= hay[i..]
    ensures Contains(hay, needle)
    decreases i
  {
    if i > 0 {
      assert hay[1..][i - 1..] == hay[i..];
      ContainsFrom(hay[1..], needle, i - 1);
    }
  }

  /** `Contains` agrees with the positional reading of a substring. */
  lemma ContainsAt(hay: string, needle: string)
    ensures Contains(hay, needle) <==>
      exists i: nat :: i + |needle| <= |hay| && needle <= hay[i..]
  {
    if Contains(hay, needle) {
      var i := ContainsWitness(hay, needle);
    }
    if exists i: nat :: i + |needle| <= |hay| && needle <= hay[i..] {
      var i: nat :| i + |needle| <= |hay| && needle <= hay[i..];
      ContainsFrom(hay, needle, i);
    }
  }

  /** Every string contains the empty string. */
  lemma ContainsEmpty(hay: string)
    ensures Contains(hay, "")
  {
  }

  /** Substring containment is transitive. */
  lemma {:induction false} ContainsTransitive(a: string, b: string, c: string)
    requires Contains(a, b) && Contains(b, c)
    ensures Contains(a, c)
  {
    var i := ContainsWitness(a, b);
    var j := ContainsWitness(b, c);
    assert forall k :: 0 <= k < |c| ==> c[k] == b[j + k] == a[i + j + k];
    ContainsFrom(a, c, i + j);
  }

  /** Lower-casing both sides keeps a containment. */
  lemma {:induction false} LowerKeepsContains(hay: string, needle: string)
    requires Contains(hay, needle)
    ensures Contains(Lower(hay), Lower(needle))
    decreases |hay|
  {
    if needle <= hay {
      assert Lower(needle) <= Lower(hay);
    } else {
      LowerKeepsContains(hay[1..], needle);
      assert Lower(hay)[1..] == Lower(hay[1..]);
    }
  }
}
