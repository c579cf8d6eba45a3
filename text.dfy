/**
 * String searching and the first-occurrence substitution that
 * `String.prototype.replace` performs when its pattern is a plain string
 * (the `$`-pattern expansion of the replacement is modelled separately, in
 * module JsReplace).
 */
module Text {
  import opened Wrappers

  predicate StartsWith(s: string, prefix: string) {
    |prefix| <= |s| && s[..|prefix|] == prefix
  }

  /** `pat` occurs in `s` starting at index `i`. */
  predicate OccursAt(s: string, pat: string, i: nat) {
    i + |pat| <= |s| && s[i..i + |pat|] == pat
  }

  /** `i` is the first index at which `pat` occurs in `s`. */
  predicate FirstAt(s: string, pat: string, i: nat) {
    OccursAt(s, pat, i) && forall j: nat :: j < i ==> !OccursAt(s, pat, j)
  }

  /** The first occurrence of `pat` at or after `from` (a linear scan). */
  function IndexOfFrom(s: string, pat: string, from: nat): (r: Option<nat>)
    decreases |s| - from
    ensures r.Some? ==> from <= r.value && OccursAt(s, pat, r.value)
    ensures r.Some? ==> forall j: nat :: from <= j < r.value ==> !OccursAt(s, pat, j)
    ensures r.None? ==> forall j: nat :: from <= j ==> !OccursAt(s, pat, j)
  {
    if |s| < from + |pat| then None
    else if s[from..from + |pat|] == pat then Some(from)
    else IndexOfFrom(s, pat, from + 1)
  }

  /** `s.indexOf(pat)`: the first occurrence, or none. */
  function IndexOf(s: string, pat: string): (r: Option<nat>)
    ensures r.Some? ==> FirstAt(s, pat, r.value)
    ensures r.None? ==> forall j: nat :: !OccursAt(s, pat, j)
  {
    IndexOfFrom(s, pat, 0)
  }

  /**
   * `s.replace(pat, repl)` for a string pattern whose replacement is inserted
   * verbatim: the first occurrence of `pat` is replaced, and a string without
   * an occurrence is returned unchanged.
   */
  function ReplaceFirst(s: string, pat: string, repl: string): (r: string)
    ensures (forall j: nat :: !OccursAt(s, pat, j)) ==> r == s
    ensures forall i: nat :: FirstAt(s, pat, i) ==> r == s[..i] + repl + s[i + |pat|..]
  {
    match IndexOf(s, pat)
    case None => s
    case Some(i) =>
      FirstAtUnique(s, pat, i);
      s[..i] + repl + s[i + |pat|..]
  }

  /** Replacing at a known first occurrence. */
  lemma ReplaceAt(s: string, pat: string, repl: string, i: nat)
    requires FirstAt(s, pat, i)
    ensures ReplaceFirst(s, pat, repl) == s[..i] + repl + s[i + |pat|..]
  {
  }

  lemma FirstAtUnique(s: string, pat: string, i: nat)
    requires FirstAt(s, pat, i)
    ensures forall k: nat :: FirstAt(s, pat, k) ==> k == i
  {
  }

  /** A string that lacks some character of `pat` cannot contain `pat`. */
  lemma AbsentCharMeansNoOccurrence(s: string, pat: string, c: nat)
    requires c < |pat| && pat[c] !in s
    ensures forall j: nat :: !OccursAt(s, pat, j)
  {
  }
}
