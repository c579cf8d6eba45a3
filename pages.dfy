/**
 * Page assembly shared by the build, the request-time module and the dev
 * server: the app markup goes in place of the outlet marker, and the props
 * and SSR-manifest script tags go just before `</head>`.
 */
module Pages {
  import opened Text
  import opened Values

  const Outlet := "<!--ssr-outlet-->"
  const HeadClose := "</head>"

  /** `<script>window.__INITIAL_PROPS__=…</script>`. */
  function PropsScript(json: Serializer, props: Props): string {
    "<script>window.__INITIAL_PROPS__=" + json.stringify(props) + "</script>"
  }

  /** `<script>window.__MATCHA_SSR_ROUTES__=…</script>`. */
  function RoutesScript(json: Serializer, ssrRoutes: seq<string>): string {
    "<script>window.__MATCHA_SSR_ROUTES__=" + json.stringifyPaths(ssrRoutes) + "</script>"
  }

  /**
   * `template.replace(Outlet, appHtml).replace('</head>', scripts + '</head>')`,
   * with both replacements inserted verbatim.
   */
  function AssemblePage(template: string, appHtml: string, scripts: string): string {
    ReplaceFirst(ReplaceFirst(template, Outlet, appHtml), HeadClose, scripts + HeadClose)
  }

  /** A first occurrence inside a common prefix of two strings is first in both. */
  lemma FirstAtInCommonPrefix(s: string, t: string, pat: string, h: nat, n: nat)
    requires n <= |s| && n <= |t| && s[..n] == t[..n]
    requires FirstAt(t, pat, h) && h + |pat| <= n
    ensures FirstAt(s, pat, h)
  {
    forall j: nat | j <= h
      ensures OccursAt(s, pat, j) <==> OccursAt(t, pat, j)
    {
      assert s[j..j + |pat|] == s[..n][j..j + |pat|];
      assert t[j..j + |pat|] == t[..n][j..j + |pat|];
    }
  }

  /**
   * Replacing the first `p1` keeps, unmoved, a first occurrence of `p2` that
   * ends before it.
   */
  lemma ReplaceKeepsEarlierFirst(t: string, p1: string, r1: string, p2: string, h: nat, o: nat)
    requires FirstAt(t, p2, h) && FirstAt(t, p1, o)
    requires h + |p2| <= o
    ensures ReplaceFirst(t, p1, r1) == t[..o] + r1 + t[o + |p1|..]
    ensures FirstAt(ReplaceFirst(t, p1, r1), p2, h)
  {
    var s1 := ReplaceFirst(t, p1, r1);
    ReplaceAt(t, p1, r1, o);
    assert s1[..o] == t[..o];
    FirstAtInCommonPrefix(s1, t, p2, h, o);
  }

  /** The characters around two splices, one before the other. */
  lemma TwoSplices(t: string, s1: string, s2: string, r1: string, r2: string, h: nat, k: nat, o: nat, m: nat)
    requires h + k <= o <= o + m <= |t|
    requires s1 == t[..o] + r1 + t[o + m..]
    requires s2 == s1[..h] + r2 + s1[h + k..]
    ensures s2 == t[..h] + r2 + t[h + k..o] + r1 + t[o + m..]
  {
    assert s1[..h] == t[..h];
    assert s1[h + k..] == t[h + k..o] + r1 + t[o + m..];
  }

  /**
   * Two first-occurrence replacements, the second pattern's first occurrence
   * lying wholly before the first pattern's: each is replaced where it stood.
   */
  lemma ReplaceTwiceLayout(t: string, p1: string, r1: string, p2: string, r2: string, h: nat, o: nat)
    requires FirstAt(t, p2, h) && FirstAt(t, p1, o)
    requires h + |p2| <= o
    ensures ReplaceFirst(ReplaceFirst(t, p1, r1), p2, r2)
         == t[..h] + r2 + t[h + |p2|..o] + r1 + t[o + |p1|..]
  {
    var s1 := ReplaceFirst(t, p1, r1);
    ReplaceKeepsEarlierFirst(t, p1, r1, p2, h, o);
    ReplaceAt(s1, p2, r2, h);
    TwoSplices(t, s1, ReplaceFirst(s1, p2, r2), r1, r2, h, |p2|, o, |p1|);
  }

  /**
   * For a template whose first `</head>` comes before its first outlet marker,
   * the page is the template with the scripts inserted before that `</head>`
   * and the app markup in place of that marker; every other character of the
   * template is kept, in order.
   */
  lemma AssemblePageLayout(template: string, appHtml: string, scripts: string, h: nat, o: nat)
    requires FirstAt(template, HeadClose, h) && FirstAt(template, Outlet, o)
    requires h + |HeadClose| <= o
    ensures AssemblePage(template, appHtml, scripts)
         == template[..h] + scripts + HeadClose + template[h + |HeadClose|..o]
            + appHtml + template[o + |Outlet|..]
  {
    ReplaceTwiceLayout(template, Outlet, appHtml, HeadClose, scripts + HeadClose, h, o);
  }

  /** A template with neither marker comes out unchanged. */
  lemma AssembleWithoutMarkers(template: string, appHtml: string, scripts: string)
    requires forall j: nat :: !OccursAt(template, Outlet, j)
    requires forall j: nat :: !OccursAt(template, HeadClose, j)
    ensures AssemblePage(template, appHtml, scripts) == template
  {
  }
}
