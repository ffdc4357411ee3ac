/** Case-insensitive substring search as the storefront's search boxes use it
    (`a.toLowerCase().includes(b.toLowerCase())`), restricted to ASCII case
    folding. */
module Text {

  predicate IsUpper(c: char) { 'A' <= c <= 'Z' }

  function LowerChar(c: char): char {
    if IsUpper(c) then (c as int + 32) as char else c
  }

  /** `toLowerCase` on ASCII letters; every other character is kept. */
  function Lower(s: string): (r: string)
    ensures |r| == |s|
    ensures forall i :: 0 <= i < |r| ==> !IsUpper(r[i])
    ensures forall i :: 0 <= i < |s| && !IsUpper(s[i]) ==> r[i] == s[i]
  {
    if s == [] then [] else [LowerChar(s[0])] + Lower(s[1..])
  }

  /** Lowering a string twice is lowering it once. */
  lemma {:induction false} LowerIdempotent(s: string)
    ensures Lower(Lower(s)) == Lower(s)
  {
    var l := Lower(s);
    assert forall i :: 0 <= i < |l| ==> !IsUpper(l[i]);
  }

  /** `hay.includes(needle)`: the needle occurs at some position. */
  predicate Contains(hay: string, needle: string) {
    exists i :: 0 <= i <= |hay| && needle <= hay[i..]
  }

  /** `includes` of the empty string always holds. */
  lemma EmptyIsContained(hay: string)
    ensures Contains(hay, "")
  {
    assert "" <= hay[0..];
  }

  /** A string contains itself and every one of its suffixes' prefixes. */
  lemma ContainsSlice(hay: string, i: nat, j: nat)
    requires i <= j <= |hay|
    ensures Contains(hay, hay[i..j])
  {
    assert hay[i..j] <= hay[i..];
  }

  /** Case-insensitive containment, the test every search filter applies. */
  predicate Matches(text: string, term: string) {
    Contains(Lower(text), Lower(term))
  }

  /** An empty search term matches every text. */
  lemma EmptyTermMatches(text: string)
    ensures Matches(text, "")
  {
    assert Lower("") == "";
    EmptyIsContained(Lower(text));
  }
}
