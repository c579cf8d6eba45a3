/**
 * `String.prototype.replace` with a string pattern as JavaScript defines it:
 * the replacement string is not inserted verbatim but expanded, `$$` becoming
 * `$`, `$&` the matched text, `` $` `` the text before the match and `$'` the
 * text after it (with no capture groups, `$1`, `$<` and a lone `$` stay
 * literal). The page assembly passes rendered markup and serialised props as
 * replacement strings, so any of these sequences in them is rewritten.
 */
module JsReplace {
  import opened Wrappers
  import opened Text
  import opened Pages

  /** The expansion of a replacement string (GetSubstitution without captures). */
  function Substitution(repl: string, matched: string, before: string, after: string): string
    decreases |repl|
  {
    if |repl| == 0 then ""
    else if repl[0] == '$' && |repl| >= 2 && repl[1] == '$' then
      "$" + Substitution(repl[2..], matched, before, after)
    else if repl[0] == '$' && |repl| >= 2 && repl[1] == '&' then
      matched + Substitution(repl[2..], matched, before, after)
    else if repl[0] == '$' && |repl| >= 2 && repl[1] == '`' then
      before + Substitution(repl[2..], matched, before, after)
    else if repl[0] == '$' && |repl| >= 2 && repl[1] == '\'' then
      after + Substitution(repl[2..], matched, before, after)
    else
      [repl[0]] + Substitution(repl[1..], matched, before, after)
  }

  /** `s.replace(pat, repl)` as the JavaScript engine evaluates it. */
  function WrittenReplaceFirst(s: string, pat: string, repl: string): string {
    match IndexOf(s, pat)
    case None => s
    case Some(i) => s[..i] + Substitution(repl, pat, s[..i], s[i + |pat|..]) + s[i + |pat|..]
  }

  /** The page assembly of lib/plugin.ts and lib/commands/dev.ts as written. */
  function WrittenAssemblePage(template: string, appHtml: string, scripts: string): string {
    WrittenReplaceFirst(WrittenReplaceFirst(template, Outlet, appHtml), HeadClose, scripts + HeadClose)
  }

  /** Without a `$` the expansion is the identity. */
  lemma {:induction false} SubstitutionWithoutDollar(repl: string, matched: string, before: string, after: string)
    requires '$' !in repl
    ensures Substitution(repl, matched, before, after) == repl
  {
    if |repl| > 0 {
      assert repl == [repl[0]] + repl[1..];
      SubstitutionWithoutDollar(repl[1..], matched, before, after);
    }
  }

  /** Without a `$` in the replacement, the written replacement is the verbatim one. */
  lemma WrittenReplaceAgreesWithoutDollar(s: string, pat: string, repl: string)
    requires '$' !in repl
    ensures WrittenReplaceFirst(s, pat, repl) == ReplaceFirst(s, pat, repl)
  {
    var k := IndexOf(s, pat);
    if k.Some? {
      var i := k.value;
      SubstitutionWithoutDollar(repl, pat, s[..i], s[i + |pat|..]);
      assert WrittenReplaceFirst(s, pat, repl) == s[..i] + repl + s[i + |pat|..];
    }
  }

  /** When neither the markup nor the scripts contain `$`, the code as written assembles the intended page. */
  lemma WrittenAssemblyAgreesWithoutDollar(template: string, appHtml: string, scripts: string)
    requires '$' !in appHtml && '$' !in scripts
    ensures WrittenAssemblePage(template, appHtml, scripts) == AssemblePage(template, appHtml, scripts)
  {
    WrittenReplaceAgreesWithoutDollar(template, Outlet, appHtml);
    assert '$' !in scripts + HeadClose;
    WrittenReplaceAgreesWithoutDollar(ReplaceFirst(template, Outlet, appHtml), HeadClose, scripts + HeadClose);
  }

  /** `s.replace(pat, repl)` as written, at a known first occurrence. */
  lemma WrittenReplaceAt(s: string, pat: string, repl: string, i: nat)
    requires FirstAt(s, pat, i)
    ensures WrittenReplaceFirst(s, pat, repl)
         == s[..i] + Substitution(repl, pat, s[..i], s[i + |pat|..]) + s[i + |pat|..]
  {
    FirstAtUnique(s, pat, i);
  }

  /** `$&` alone expands to the matched text. */
  lemma AmpersandExpandsToMatch(matched: string)
    ensures Substitution("$&", matched, "", "") == matched
  {
    assert "$&"[2..] == "";
  }

  /**
   * As written, replacing a whole string `s` by `$&` gives `s` back, and a
   * later replacement of a pattern absent from `s` changes nothing.
   */
  lemma WrittenAmpersandRestoresWhole(s: string, pat: string, repl: string)
    requires forall j: nat :: !OccursAt(s, pat, j)
    ensures WrittenReplaceFirst(WrittenReplaceFirst(s, s, "$&"), pat, repl) == s
  {
    assert OccursAt(s, s, 0);
    WrittenReplaceAt(s, s, "$&", 0);
    assert s[..0] == "" && s[|s|..] == "";
    AmpersandExpandsToMatch(s);
    assert WrittenReplaceFirst(s, s, "$&") == s;
  }

  /** As written, `$&` in the markup puts the outlet marker back. */
  lemma WrittenKeepsMarker()
    ensures WrittenAssemblePage(Outlet, "$&", "") == Outlet
  {
    AbsentCharMeansNoOccurrence(Outlet, HeadClose, 1);
    WrittenAmpersandRestoresWhole(Outlet, HeadClose, "" + HeadClose);
  }

  /** As intended, the markup `$&` replaces the outlet marker. */
  lemma IntendedInsertsMarkup()
    ensures AssemblePage(Outlet, "$&", "") == "$&"
  {
    assert OccursAt(Outlet, Outlet, 0);
    ReplaceAt(Outlet, Outlet, "$&", 0);
    assert Outlet[..0] == "" && Outlet[|Outlet|..] == "";
    AbsentCharMeansNoOccurrence("$&", HeadClose, 1);
  }

  /**
   * Counterexample: app markup `$&` in a template that is just the outlet
   * marker. The code as written puts the marker back instead of the markup.
   */
  lemma DollarInAppHtmlMangled()
    ensures WrittenAssemblePage(Outlet, "$&", "") == Outlet
    ensures AssemblePage(Outlet, "$&", "") == "$&"
  {
    WrittenKeepsMarker();
    IntendedInsertsMarkup();
  }
}
