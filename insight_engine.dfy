/**
 * The mock insight generator (apps/api/app/services/insight_engine.py):
 * two fixed theme templates, three claims each, and up to two citations per
 * claim drawn round-robin from the project's sources. The generator's state
 * is how many sources the cycle has yielded and how many ids were drawn;
 * `uuid(k)` stands for the id the k-th `uuid4()` call returns.
 */
module InsightEngine {
  import opened Wrappers
  import opened Db

  datatype ThemeTemplate = ThemeTemplate(title: string, summary: string, confidence: real, claims: seq<string>)

  const Templates: seq<ThemeTemplate> := [
    ThemeTemplate(
      "Adoption momentum is building",
      "Teams expand pilots into production while engagement metrics trend upward.",
      0.82,
      ["Expansion teams increased license counts across three regions.",
       "Usage sessions climbed 35% quarter-over-quarter for early adopters.",
       "Customer champions cite faster onboarding and clearer dashboards."]),
    ThemeTemplate(
      "Enablement friction remains a risk",
      "Operational gaps slow wider rollout and require enablement focus.",
      0.74,
      ["Implementation playbooks differ between regions, creating delays.",
       "Data integrations still rely on manual exports for weekly reporting.",
       "Executives want clearer ROI visualization before scaling budget."])
  ]

  datatype CitationPayload = CitationPayload(id: string, source_id: string, quote: string, location: string)

  datatype ClaimPayload = ClaimPayload(id: string, statement: string, confidence: real, citations: seq<CitationPayload>)

  datatype ThemePayload = ThemePayload(id: string, title: string, summary: string, confidence: real, claims: seq<ClaimPayload>)

  /** The payload: a dict whose only key is `themes`. */
  datatype Payload = Payload(themes: seq<ThemePayload>)

  /** Sources yielded by the cycle so far, and ids drawn so far. */
  datatype Gen = Gen(drawn: nat, ids: nat)

  /** A value produced by the generator, and the generator's state after it. */
  datatype Step<T> = Step(value: T, next: Gen)

  /** `min(2, len(sources))`: the citations each claim gets. */
  function PerClaim(sources: seq<SourceRow>): (r: nat)
    ensures r <= 2 && r <= |sources|
    ensures r == 2 || r == |sources|
  {
    if |sources| < 2 then |sources| else 2
  }

  /** `max(confidence - 0.08, 0.5)`. */
  function ClaimConfidence(themeConfidence: real): (r: real)
    ensures r >= 0.5 && r >= themeConfidence - 0.08
    ensures r == 0.5 || r == themeConfidence - 0.08
  {
    if themeConfidence - 0.08 >= 0.5 then themeConfidence - 0.08 else 0.5
  }

  /** `s[:n]`. */
  function Head(s: string, n: nat): (r: string)
    ensures |r| <= n && |r| <= |s| && r == s[..|r|]
    ensures |s| >= n ==> |r| == n
  {
    if |s| <= n then s else s[..n]
  }

  /** The quote: the source's title, or its kind when the title is absent or empty, and the claim's first 40 characters. */
  function Quote(s: SourceRow, claim: string): string {
    (if Truthy(s.title) then s.title.value else s.kind) + " reference supporting “" + Head(claim, 40) + "...”"
  }

  /** The citation taken from the source the cycle yields next. */
  function NextCitation(sources: seq<SourceRow>, claim: string, g: Gen, uuid: nat -> string): CitationPayload
    requires sources != []
  {
    var s := sources[g.drawn % |sources|];
    CitationPayload(uuid(g.ids), s.id, Quote(s, claim), s.uri)
  }

  /** `m` citations in a row for one claim. */
  function CitationsGen(sources: seq<SourceRow>, claim: string, m: nat, g: Gen, uuid: nat -> string): Step<seq<CitationPayload>>
    requires sources != []
  {
    if m == 0 then Step([], g)
    else
      var prev := CitationsGen(sources, claim, m - 1, g, uuid);
      var g' := prev.next;
      Step(prev.value + [NextCitation(sources, claim, g', uuid)], Gen(g'.drawn + 1, g'.ids + 1))
  }

  /** One claim: its citations (none without sources), then its own id. */
  function ClaimGen(sources: seq<SourceRow>, claim: string, themeConfidence: real, g: Gen, uuid: nat -> string): Step<ClaimPayload> {
    var cits := if sources == [] then Step([], g) else CitationsGen(sources, claim, PerClaim(sources), g, uuid);
    var g' := cits.next;
    Step(ClaimPayload(uuid(g'.ids), claim, ClaimConfidence(themeConfidence), cits.value), Gen(g'.drawn, g'.ids + 1))
  }

  function ClaimsGen(sources: seq<SourceRow>, claims: seq<string>, themeConfidence: real, g: Gen, uuid: nat -> string): Step<seq<ClaimPayload>> {
    if claims == [] then Step([], g)
    else
      var prev := ClaimsGen(sources, claims[..|claims| - 1], themeConfidence, g, uuid);
      var c := ClaimGen(sources, claims[|claims| - 1], themeConfidence, prev.next, uuid);
      Step(prev.value + [c.value], c.next)
  }

  /** One theme: its id first, then its claims. */
  function ThemeGen(sources: seq<SourceRow>, t: ThemeTemplate, g: Gen, uuid: nat -> string): Step<ThemePayload> {
    var cs := ClaimsGen(sources, t.claims, t.confidence, Gen(g.drawn, g.ids + 1), uuid);
    Step(ThemePayload(uuid(g.ids), t.title, t.summary, t.confidence, cs.value), cs.next)
  }

  function ThemesGen(sources: seq<SourceRow>, ts: seq<ThemeTemplate>, g: Gen, uuid: nat -> string): Step<seq<ThemePayload>> {
    if ts == [] then Step([], g)
    else
      var prev := ThemesGen(sources, ts[..|ts| - 1], g, uuid);
      var t := ThemeGen(sources, ts[|ts| - 1], prev.next, uuid);
      Step(prev.value + [t.value], t.next)
  }

  /** What `generate_mock_payload` returns. */
  function MockPayload(sources: seq<SourceRow>, uuid: nat -> string): Payload {
    Payload(ThemesGen(sources, Templates, Gen(0, 0), uuid).value)
  }

  /** The citation loop of one claim: each `next()` of the cycle yields the following source. */
  method DrawCitations(sources: seq<SourceRow>, claim: string, g: Gen, uuid: nat -> string)
    returns (citations: seq<CitationPayload>, next: Gen)
    ensures Step(citations, next) == (if sources == [] then Step([], g) else CitationsGen(sources, claim, PerClaim(sources), g, uuid))
  {
    citations := [];
    next := g;
    if sources != [] {
      var n := PerClaim(sources);
      var m := 0;
      while m < n
        invariant 0 <= m <= n
        invariant Step(citations, next) == CitationsGen(sources, claim, m, g, uuid)
      {
        var source := sources[next.drawn % |sources|];
        citations := citations + [CitationPayload(uuid(next.ids), source.id, Quote(source, claim), source.uri)];
        next := Gen(next.drawn + 1, next.ids + 1);
        m := m + 1;
      }
    }
  }

  /** The claim loop of one theme. */
  method GenerateClaims(sources: seq<SourceRow>, claims: seq<string>, themeConfidence: real, g: Gen, uuid: nat -> string)
    returns (payloads: seq<ClaimPayload>, next: Gen)
    ensures Step(payloads, next) == ClaimsGen(sources, claims, themeConfidence, g, uuid)
  {
    payloads := [];
    next := g;
    var j := 0;
    while j < |claims|
      invariant 0 <= j <= |claims|
      invariant Step(payloads, next) == ClaimsGen(sources, claims[..j], themeConfidence, g, uuid)
    {
      assert claims[..j + 1][..j] == claims[..j];
      var confidence := ClaimConfidence(themeConfidence);
      var citations;
      citations, next := DrawCitations(sources, claims[j], next, uuid);
      payloads := payloads + [ClaimPayload(uuid(next.ids), claims[j], confidence, citations)];
      next := Gen(next.drawn, next.ids + 1);
      j := j + 1;
    }
    assert claims[..|claims|] == claims;
  }

  /** `generate_mock_payload`: the theme loop over the templates. */
  method GenerateMockPayload(sources: seq<SourceRow>, uuid: nat -> string) returns (r: Payload)
    ensures r == MockPayload(sources, uuid)
  {
    var themes := GenerateThemes(sources, Templates, uuid);
    r := Payload(themes);
  }

  /** The theme loop: one theme per template, each with its claims, ids drawn in order. */
  method GenerateThemes(sources: seq<SourceRow>, templates: seq<ThemeTemplate>, uuid: nat -> string)
    returns (themes: seq<ThemePayload>)
    ensures themes == ThemesGen(sources, templates, Gen(0, 0), uuid).value
  {
    themes := [];
    var g := Gen(0, 0);
    var i := 0;
    while i < |templates|
      invariant 0 <= i <= |templates|
      invariant Step(themes, g) == ThemesGen(sources, templates[..i], Gen(0, 0), uuid)
    {
      assert templates[..i + 1][..i] == templates[..i];
      var template := templates[i];
      var themeId := uuid(g.ids);
      var claims;
      claims, g := GenerateClaims(sources, template.claims, template.confidence, Gen(g.drawn, g.ids + 1), uuid);
      themes := themes + [ThemePayload(themeId, template.title, template.summary, template.confidence, claims)];
      i := i + 1;
    }
    assert templates[..|templates|] == templates;
  }

  /** A citation points at `s`: its `source_id` is the source's id and its `location` the source's uri. */
  predicate Cites(c: CitationPayload, s: SourceRow) {
    c.source_id == s.id && c.location == s.uri
  }

  /** The citations of the claims, in order. */
  function ClaimsCitations(cs: seq<ClaimPayload>): seq<CitationPayload> {
    if cs == [] then [] else ClaimsCitations(cs[..|cs| - 1]) + cs[|cs| - 1].citations
  }

  /** The citations of the themes, in order: the order the cycle yielded their sources. */
  function ThemesCitations(ts: seq<ThemePayload>): seq<CitationPayload> {
    if ts == [] then [] else ThemesCitations(ts[..|ts| - 1]) + ClaimsCitations(ts[|ts| - 1].claims)
  }

  /** The citations cite, in order, the sources the cycle yields after its first `start`. */
  predicate RoundRobinFrom(cs: seq<CitationPayload>, sources: seq<SourceRow>, start: nat)
    requires sources != []
  {
    forall k :: 0 <= k < |cs| ==> Cites(cs[k], sources[(start + k) % |sources|])
  }

  lemma RoundRobinAppend(a: seq<CitationPayload>, b: seq<CitationPayload>, sources: seq<SourceRow>, start: nat, mid: nat)
    requires sources != [] && mid == start + |a|
    requires RoundRobinFrom(a, sources, start) && RoundRobinFrom(b, sources, mid)
    ensures RoundRobinFrom(a + b, sources, start)
  {
    forall k | 0 <= k < |a + b| ensures Cites((a + b)[k], sources[(start + k) % |sources|]) {
      if k >= |a| {
        assert (a + b)[k] == b[k - |a|];
        assert start + |a| + (k - |a|) == start + k;
      }
    }
  }

  /** `m` draws take `m` sources and `m` ids, and the i-th draw cites the source after the `g.drawn + i` already yielded. */
  lemma {:induction false} CitationsGenDraws(sources: seq<SourceRow>, claim: string, m: nat, g: Gen, uuid: nat -> string)
    requires sources != []
    ensures |CitationsGen(sources, claim, m, g, uuid).value| == m
    ensures CitationsGen(sources, claim, m, g, uuid).next == Gen(g.drawn + m, g.ids + m)
    ensures RoundRobinFrom(CitationsGen(sources, claim, m, g, uuid).value, sources, g.drawn)
  {
    if m > 0 {
      CitationsGenDraws(sources, claim, m - 1, g, uuid);
    }
  }

  /** A claim keeps its statement, lowers its theme's confidence, and cites the next `min(2, n)` sources of the cycle. */
  lemma ClaimGenShape(sources: seq<SourceRow>, claim: string, conf: real, g: Gen, uuid: nat -> string)
    ensures ClaimGen(sources, claim, conf, g, uuid).value.statement == claim
    ensures ClaimGen(sources, claim, conf, g, uuid).value.confidence == ClaimConfidence(conf)
    ensures |ClaimGen(sources, claim, conf, g, uuid).value.citations| == PerClaim(sources)
    ensures ClaimGen(sources, claim, conf, g, uuid).next.drawn == g.drawn + PerClaim(sources)
    ensures sources != [] ==> RoundRobinFrom(ClaimGen(sources, claim, conf, g, uuid).value.citations, sources, g.drawn)
  {
    if sources != [] {
      CitationsGenDraws(sources, claim, PerClaim(sources), g, uuid);
    }
  }

  /** The claims of one template, in template order, each with `min(2, n)` citations. */
  lemma {:induction false} ClaimsGenShape(sources: seq<SourceRow>, claims: seq<string>, conf: real, g: Gen, uuid: nat -> string)
    ensures |ClaimsGen(sources, claims, conf, g, uuid).value| == |claims|
    ensures forall j :: 0 <= j < |claims| ==>
      && ClaimsGen(sources, claims, conf, g, uuid).value[j].statement == claims[j]
      && ClaimsGen(sources, claims, conf, g, uuid).value[j].confidence == ClaimConfidence(conf)
      && |ClaimsGen(sources, claims, conf, g, uuid).value[j].citations| == PerClaim(sources)
  {
    if claims != [] {
      var init := claims[..|claims| - 1];
      var prev := ClaimsGen(sources, init, conf, g, uuid);
      ClaimsGenShape(sources, init, conf, g, uuid);
      ClaimGenShape(sources, claims[|claims| - 1], conf, prev.next, uuid);
      forall j | 0 <= j < |init| ensures claims[j] == init[j] {
      }
    }
  }

  /** The claims of one template cite the sources in the order the cycle yields them. */
  lemma {:induction false} ClaimsGenRoundRobin(sources: seq<SourceRow>, claims: seq<string>, conf: real, g: Gen, uuid: nat -> string)
    requires sources != []
    ensures ClaimsGen(sources, claims, conf, g, uuid).next.drawn == g.drawn + |ClaimsCitations(ClaimsGen(sources, claims, conf, g, uuid).value)|
    ensures RoundRobinFrom(ClaimsCitations(ClaimsGen(sources, claims, conf, g, uuid).value), sources, g.drawn)
  {
    if claims != [] {
      var init := claims[..|claims| - 1];
      var prev := ClaimsGen(sources, init, conf, g, uuid);
      var c := ClaimGen(sources, claims[|claims| - 1], conf, prev.next, uuid);
      ClaimsGenRoundRobin(sources, init, conf, g, uuid);
      ClaimGenShape(sources, claims[|claims| - 1], conf, prev.next, uuid);
      var before := ClaimsCitations(prev.value);
      assert ClaimsCitations(prev.value + [c.value]) == before + c.value.citations by {
        assert (prev.value + [c.value])[..|prev.value|] == prev.value;
      }
      RoundRobinAppend(before, c.value.citations, sources, g.drawn, prev.next.drawn);
    }
  }

  /** The t-th theme is the theme its template yields from the state the themes before it left. */
  lemma {:induction false} ThemesGenShape(sources: seq<SourceRow>, ts: seq<ThemeTemplate>, g: Gen, uuid: nat -> string)
    ensures |ThemesGen(sources, ts, g, uuid).value| == |ts|
    ensures forall t :: 0 <= t < |ts| ==>
      ThemesGen(sources, ts, g, uuid).value[t] == ThemeGen(sources, ts[t], ThemesGen(sources, ts[..t], g, uuid).next, uuid).value
  {
    if ts != [] {
      var init := ts[..|ts| - 1];
      var prev := ThemesGen(sources, init, g, uuid);
      ThemesGenShape(sources, init, g, uuid);
      var value := ThemesGen(sources, ts, g, uuid).value;
      assert value == prev.value + [ThemeGen(sources, ts[|ts| - 1], prev.next, uuid).value];
      forall t | 0 <= t < |ts|
        ensures value[t] == ThemeGen(sources, ts[t], ThemesGen(sources, ts[..t], g, uuid).next, uuid).value
      {
        if t < |init| {
          assert ts[t] == init[t] && value[t] == prev.value[t] && ts[..t] == init[..t];
        } else {
          assert ts[..t] == init;
        }
      }
    }
  }

  /** Across all themes and claims, the k-th citation cites the source after the `g.drawn + k` already yielded. */
  lemma {:induction false} ThemesGenRoundRobin(sources: seq<SourceRow>, ts: seq<ThemeTemplate>, g: Gen, uuid: nat -> string)
    requires sources != []
    ensures ThemesGen(sources, ts, g, uuid).next.drawn == g.drawn + |ThemesCitations(ThemesGen(sources, ts, g, uuid).value)|
    ensures RoundRobinFrom(ThemesCitations(ThemesGen(sources, ts, g, uuid).value), sources, g.drawn)
  {
    if ts != [] {
      var init := ts[..|ts| - 1];
      var last := ts[|ts| - 1];
      var prev := ThemesGen(sources, init, g, uuid);
      var h := Gen(prev.next.drawn, prev.next.ids + 1);
      var t := ThemeGen(sources, last, prev.next, uuid);
      var all := ThemesGen(sources, ts, g, uuid);
      var cl := ClaimsGen(sources, last.claims, last.confidence, h, uuid);
      assert all == Step(prev.value + [t.value], t.next);
      assert t.value.claims == cl.value && t.next == cl.next;
      ThemesGenRoundRobin(sources, init, g, uuid);
      ClaimsGenRoundRobin(sources, last.claims, last.confidence, h, uuid);
      var before := ThemesCitations(prev.value);
      assert ThemesCitations(all.value) == before + ClaimsCitations(cl.value) by {
        assert (prev.value + [t.value])[..|prev.value|] == prev.value;
      }
      RoundRobinAppend(before, ClaimsCitations(cl.value), sources, g.drawn, h.drawn);
    }
  }

  /** Each theme follows its template: its text, its confidence, and its claims in order. */
  lemma {:induction false} ThemesFollowTemplates(sources: seq<SourceRow>, ts: seq<ThemeTemplate>, g: Gen, uuid: nat -> string)
    ensures |ThemesGen(sources, ts, g, uuid).value| == |ts|
    ensures forall t :: 0 <= t < |ts| ==> FollowsTemplate(sources, ThemesGen(sources, ts, g, uuid).value[t], ts[t])
  {
    ThemesGenShape(sources, ts, g, uuid);
    forall t | 0 <= t < |ts| ensures FollowsTemplate(sources, ThemesGen(sources, ts, g, uuid).value[t], ts[t]) {
      var before := ThemesGen(sources, ts[..t], g, uuid).next;
      ClaimsGenShape(sources, ts[t].claims, ts[t].confidence, Gen(before.drawn, before.ids + 1), uuid);
    }
  }

  /** `th` has the template's title, summary and confidence, and one claim per template claim, in order. */
  predicate FollowsTemplate(sources: seq<SourceRow>, th: ThemePayload, t: ThemeTemplate) {
    && th.title == t.title && th.summary == t.summary && th.confidence == t.confidence
    && |th.claims| == |t.claims|
    && forall j :: 0 <= j < |t.claims| ==>
      && th.claims[j].statement == t.claims[j]
      && th.claims[j].confidence == ClaimConfidence(t.confidence)
      && |th.claims[j].citations| == PerClaim(sources)
  }

  /**
   * The payload: two themes in template order, each following its
   * template, with three claims each.
   */
  lemma MockPayloadShape(sources: seq<SourceRow>, uuid: nat -> string)
    ensures |MockPayload(sources, uuid).themes| == 2
    ensures forall t :: 0 <= t < 2 ==> FollowsTemplate(sources, MockPayload(sources, uuid).themes[t], Templates[t])
    ensures forall t :: 0 <= t < 2 ==> |MockPayload(sources, uuid).themes[t].claims| == 3
  {
    ThemesFollowTemplates(sources, Templates, Gen(0, 0), uuid);
  }

  /** The claims sit at 0.74 and 0.66: both templates are high enough for the 0.5 floor not to apply. */
  lemma TemplateClaimConfidences()
    ensures ClaimConfidence(Templates[0].confidence) == 0.74
    ensures ClaimConfidence(Templates[1].confidence) == 0.66
  {
  }

  /**
   * Round robin: the k-th citation of the payload, counting across all
   * claims and themes, cites source `k mod n`.
   */
  lemma MockPayloadRoundRobin(sources: seq<SourceRow>, uuid: nat -> string)
    requires sources != []
    ensures forall k :: 0 <= k < |ThemesCitations(MockPayload(sources, uuid).themes)| ==>
      Cites(ThemesCitations(MockPayload(sources, uuid).themes)[k], sources[k % |sources|])
  {
    ThemesGenRoundRobin(sources, Templates, Gen(0, 0), uuid);
    RoundRobinFromStart(ThemesCitations(MockPayload(sources, uuid).themes), sources);
  }

  lemma RoundRobinFromStart(cs: seq<CitationPayload>, sources: seq<SourceRow>)
    requires sources != [] && RoundRobinFrom(cs, sources, 0)
    ensures forall k :: 0 <= k < |cs| ==> Cites(cs[k], sources[k % |sources|])
  {
    forall k | 0 <= k < |cs|
      ensures Cites(cs[k], sources[k % |sources|])
    {
      assert 0 + k == k;
    }
  }

  /** Without sources no claim has a citation. */
  lemma NoSourcesNoCitations(uuid: nat -> string)
    ensures forall t, j :: 0 <= t < |MockPayload([], uuid).themes| && 0 <= j < |MockPayload([], uuid).themes[t].claims| ==>
      MockPayload([], uuid).themes[t].claims[j].citations == []
  {
    MockPayloadShape([], uuid);
  }
}
