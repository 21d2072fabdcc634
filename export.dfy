/**
 * The Markdown export of a project (apps/api/app/routers/export.py): the
 * newest insight run's themes and claims with first-appearance footnote
 * numbering, then the decisions, the tasks and the references. The query
 * results are inputs; percentages and dates arrive already rendered.
 */
module Export {
  import opened Wrappers
  import opened Text
  import opened Lists
  import opened Db
  import opened TasksApi

  const NoRunsToExport := HttpError(BadRequest, "No insight runs available for export")

  datatype ExportRun = ExportRun(id: string, created_at: int)

  /** A cited source, as `db.get` returns it. */
  datatype ExportSource = ExportSource(title: Option<string>, uri: string, kind: string)

  datatype ExportCitation = ExportCitation(id: string, claim_id: string, quote: Option<string>, location: Option<string>)

  /** `confidenceText` is the rendered `:.0%` of the confidence. */
  datatype ExportClaim = ExportClaim(id: string, theme_id: string, statement: string, confidenceText: string)

  datatype ExportTheme = ExportTheme(id: string, title: string, summary: Option<string>, confidenceText: string)

  /** `confidencePercent` is the rendered `int(confidence * 100)` when the confidence is set. */
  datatype ExportDecision = ExportDecision(
    title: string,
    rationale: Option<string>,
    pros: Option<string>,
    cons: Option<string>,
    risks: Option<string>,
    confidencePercent: Option<string>,
    linked_claim_ids: seq<string>)

  /** `dueDate` is the rendered ISO date of the due date when there is one. */
  datatype ExportTask = ExportTask(title: string, status: string, owner: Option<string>, dueDate: Option<string>, decision_id: Option<string>)

  /** The first run with the latest `created_at` (`order_by(created_at.desc()).first()`). */
  function NewestRun(runs: seq<ExportRun>): (r: Option<ExportRun>)
    ensures r.None? <==> runs == []
    ensures r.Some? ==> r.value in runs && forall x :: x in runs ==> x.created_at <= r.value.created_at
  {
    if runs == [] then None
    else
      var rest := NewestRun(runs[1..]);
      assert forall x :: x in runs ==> x == runs[0] || x in runs[1..];
      if rest.None? || runs[0].created_at >= rest.value.created_at then Some(runs[0]) else rest
  }

  /** A claim's citations, in query order. */
  function ClaimCitations(citations: seq<ExportCitation>, claimId: string): seq<ExportCitation> {
    if citations == [] then []
    else (if citations[0].claim_id == claimId then [citations[0]] else []) + ClaimCitations(citations[1..], claimId)
  }

  /** A theme's claims, in query order. */
  function ThemeClaims(claims: seq<ExportClaim>, themeId: string): seq<ExportClaim> {
    if claims == [] then []
    else (if claims[0].theme_id == themeId then [claims[0]] else []) + ThemeClaims(claims[1..], themeId)
  }

  /** A claim's citations are exactly the citations that name it. */
  lemma {:induction false} ClaimCitationsFilter(citations: seq<ExportCitation>, claimId: string)
    ensures forall c :: c in ClaimCitations(citations, claimId) <==> c in citations && c.claim_id == claimId
    ensures |ClaimCitations(citations, claimId)| <= |citations|
  {
    if citations != [] {
      var rest := citations[1..];
      ClaimCitationsFilter(rest, claimId);
      assert forall c :: c in citations <==> c == citations[0] || c in rest;
    }
  }

  /** Each matching row is kept as many times as the query returned it, and no other row is. */
  lemma {:induction false} ClaimCitationsCount(citations: seq<ExportCitation>, claimId: string)
    ensures forall c :: multiset(ClaimCitations(citations, claimId))[c] == if c.claim_id == claimId then multiset(citations)[c] else 0
  {
    if citations != [] {
      var rest := citations[1..];
      ClaimCitationsCount(rest, claimId);
      assert citations == [citations[0]] + rest;
      var head := if citations[0].claim_id == claimId then [citations[0]] else [];
      assert multiset(ClaimCitations(citations, claimId)) == multiset(head) + multiset(ClaimCitations(rest, claimId));
      assert multiset(citations) == multiset{citations[0]} + multiset(rest);
    }
  }

  /** Filtering citations by claim distributes over concatenation, so their order is kept. */
  lemma {:induction false} ClaimCitationsAppend(a: seq<ExportCitation>, b: seq<ExportCitation>, claimId: string)
    ensures ClaimCitations(a + b, claimId) == ClaimCitations(a, claimId) + ClaimCitations(b, claimId)
  {
    if a != [] {
      assert (a + b)[0] == a[0] && (a + b)[1..] == a[1..] + b;
      ClaimCitationsAppend(a[1..], b, claimId);
      var head := if a[0].claim_id == claimId then [a[0]] else [];
      AppendAssoc(head, ClaimCitations(a[1..], claimId), ClaimCitations(b, claimId));
    } else {
      assert a + b == b;
    }
  }

  /** A theme's claims are exactly the claims that name it. */
  lemma {:induction false} ThemeClaimsFilter(claims: seq<ExportClaim>, themeId: string)
    ensures forall c :: c in ThemeClaims(claims, themeId) <==> c in claims && c.theme_id == themeId
    ensures |ThemeClaims(claims, themeId)| <= |claims|
  {
    if claims != [] {
      var rest := claims[1..];
      ThemeClaimsFilter(rest, themeId);
      assert forall c :: c in claims <==> c == claims[0] || c in rest;
    }
  }

  /** Each matching row is kept as many times as the query returned it, and no other row is. */
  lemma {:induction false} ThemeClaimsCount(claims: seq<ExportClaim>, themeId: string)
    ensures forall c :: multiset(ThemeClaims(claims, themeId))[c] == if c.theme_id == themeId then multiset(claims)[c] else 0
  {
    if claims != [] {
      var rest := claims[1..];
      ThemeClaimsCount(rest, themeId);
      assert claims == [claims[0]] + rest;
      var head := if claims[0].theme_id == themeId then [claims[0]] else [];
      assert multiset(ThemeClaims(claims, themeId)) == multiset(head) + multiset(ThemeClaims(rest, themeId));
      assert multiset(claims) == multiset{claims[0]} + multiset(rest);
    }
  }

  /** Filtering claims by theme distributes over concatenation, so their order is kept. */
  lemma {:induction false} ThemeClaimsAppend(a: seq<ExportClaim>, b: seq<ExportClaim>, themeId: string)
    ensures ThemeClaims(a + b, themeId) == ThemeClaims(a, themeId) + ThemeClaims(b, themeId)
  {
    if a != [] {
      assert (a + b)[0] == a[0] && (a + b)[1..] == a[1..] + b;
      ThemeClaimsAppend(a[1..], b, themeId);
      var head := if a[0].theme_id == themeId then [a[0]] else [];
      AppendAssoc(head, ThemeClaims(a[1..], themeId), ThemeClaims(b, themeId));
    } else {
      assert a + b == b;
    }
  }

  /** The citations referenced by a run of claims, in the order the export visits them. */
  function ClaimsRefs(cs: seq<ExportClaim>, citations: seq<ExportCitation>): seq<ExportCitation> {
    if cs == [] then []
    else ClaimsRefs(cs[..|cs| - 1], citations) + ClaimCitations(citations, cs[|cs| - 1].id)
  }

  /** The citations referenced by a run of themes, in the order the export visits them. */
  function ThemesRefs(ts: seq<ExportTheme>, claims: seq<ExportClaim>, citations: seq<ExportCitation>): seq<ExportCitation> {
    if ts == [] then []
    else ThemesRefs(ts[..|ts| - 1], claims, citations) + ClaimsRefs(ThemeClaims(claims, ts[|ts| - 1].id), citations)
  }

  /** The citation ids of a reference list. */
  function Ids(refs: seq<ExportCitation>): (r: seq<string>)
    ensures |r| == |refs| && forall i :: 0 <= i < |refs| ==> r[i] == refs[i].id
  {
    if refs == [] then [] else Ids(refs[..|refs| - 1]) + [refs[|refs| - 1].id]
  }

  /** The `footnotes` dictionary after a list of references: a new id gets the next index. */
  function Numbering(refs: seq<ExportCitation>): map<string, nat> {
    if refs == [] then map[]
    else
      var m := Numbering(refs[..|refs| - 1]);
      var c := refs[|refs| - 1];
      if c.id in m then m else m[c.id := |m| + 1]
  }

  /**
   * The footnote index bijection: the ids are numbered 1..n in the order in
   * which they first appear.
   */
  lemma {:induction false} NumberingFirstAppearance(refs: seq<ExportCitation>)
    ensures FirstAppearance(Numbering(refs), Dedup(Ids(refs)))
  {
    if refs != [] {
      var init := refs[..|refs| - 1];
      var c := refs[|refs| - 1];
      NumberingFirstAppearance(init);
      assert Ids(refs) == Ids(init) + [c.id];
      DedupSnoc(Ids(init), c.id);
      if c.id !in Ids(init) {
        NumberNew(Numbering(init), Dedup(Ids(init)), c.id);
      }
    }
  }

  /** `m` numbers the elements of `d` 1, 2, ... in order, and nothing else. */
  predicate FirstAppearance(m: map<string, nat>, d: seq<string>) {
    && m.Keys == Elems(d)
    && |m| == |d|
    && forall i :: 0 <= i < |d| ==> d[i] in m && m[d[i]] == i + 1
  }

  lemma NumberNew(m: map<string, nat>, d: seq<string>, x: string)
    requires FirstAppearance(m, d) && x !in d
    ensures FirstAppearance(m[x := |m| + 1], d + [x])
  {
    assert x !in m.Keys;
    assert Elems(d + [x]) == Elems(d) + {x};
    assert |m[x := |m| + 1]| == |m| + 1;
    forall i | 0 <= i < |d| ensures (d + [x])[i] == d[i] && d[i] != x {
      assert d[i] in d;
    }
  }

  /** Every index lies in 1..n, and two ids never share an index. */
  lemma NumberingIsBijection(refs: seq<ExportCitation>)
    ensures var m := Numbering(refs);
      && (forall k :: k in m ==> 1 <= m[k] <= |m|)
      && (forall a, b :: a in m && b in m && a != b ==> m[a] != m[b])
  {
    NumberingFirstAppearance(refs);
    FirstAppearanceInjective(Numbering(refs), Dedup(Ids(refs)));
  }

  lemma FirstAppearanceInjective(m: map<string, nat>, d: seq<string>)
    requires FirstAppearance(m, d)
    ensures forall k :: k in m ==> 1 <= m[k] <= |m| && d[m[k] - 1] == k
    ensures forall a, b :: a in m && b in m && a != b ==> m[a] != m[b]
  {
    forall k | k in m ensures 1 <= m[k] <= |m| && d[m[k] - 1] == k {
      assert k in Elems(d);
      var i :| 0 <= i < |d| && d[i] == k;
    }
  }

  /** An index, once given, is never changed by later references. */
  lemma {:induction false} NumberingExtends(p: seq<ExportCitation>, q: seq<ExportCitation>, id: string)
    requires id in Numbering(p)
    ensures id in Numbering(p + q) && Numbering(p + q)[id] == Numbering(p)[id]
    decreases |q|
  {
    if q == [] {
      assert p + q == p;
    } else {
      NumberingExtends(p, q[..|q| - 1], id);
      assert (p + q)[..|p + q| - 1] == p + q[..|q| - 1];
    }
  }

  /** `[^i]`. */
  function Marker(i: nat): string {
    "[^" + NatToString(i) + "]"
  }

  /** `source.title or source.uri or source.kind`, or `Reference` without a source. */
  function DisplayTitle(source: Option<ExportSource>): string {
    if source.None? then "Reference"
    else if Truthy(source.value.title) then source.value.title.value
    else if source.value.uri != "" then source.value.uri
    else source.value.kind
  }

  /** The lines of a footnote: its title line, the quote and location when present, and a blank line. */
  function FootnoteBlock(c: ExportCitation, i: nat, sourceOf: map<string, ExportSource>): seq<string> {
    [Marker(i) + ": " + DisplayTitle(if c.id in sourceOf then Some(sourceOf[c.id]) else None)]
    + (if Truthy(c.quote) then ["> " + Trim(c.quote.value)] else [])
    + (if Truthy(c.location) then ["Location: " + c.location.value] else [])
    + [""]
  }

  /**
   * A footnote block opens with its marker and the source's display title,
   * has a line for the quote and one for the location exactly when they are
   * set, and closes with a blank line.
   */
  lemma FootnoteBlockShape(c: ExportCitation, i: nat, sourceOf: map<string, ExportSource>)
    ensures var b := FootnoteBlock(c, i, sourceOf);
      && |b| == 2 + (if Truthy(c.quote) then 1 else 0) + (if Truthy(c.location) then 1 else 0)
      && b[0] == Marker(i) + ": " + DisplayTitle(if c.id in sourceOf then Some(sourceOf[c.id]) else None)
      && b[|b| - 1] == ""
      && (Truthy(c.quote) ==> b[1] == "> " + Trim(c.quote.value))
  {
  }

  /** `footnote_lines` after a list of references: one block per id, at its first appearance. */
  function Blocks(refs: seq<ExportCitation>, sourceOf: map<string, ExportSource>): seq<string> {
    if refs == [] then []
    else
      var init := refs[..|refs| - 1];
      var c := refs[|refs| - 1];
      var m := Numbering(init);
      Blocks(init, sourceOf) + (if c.id in m then [] else FootnoteBlock(c, |m| + 1, sourceOf))
  }

  /** There are footnote lines exactly when some citation is referenced. */
  lemma {:induction false} BlocksEmptyIff(refs: seq<ExportCitation>, sourceOf: map<string, ExportSource>)
    ensures Blocks(refs, sourceOf) == [] <==> refs == []
  {
    if refs != [] {
      var init := refs[..|refs| - 1];
      BlocksEmptyIff(init, sourceOf);
      if init == [] {
        assert Numbering(init) == map[];
      }
    }
  }

  /** The footnote markers of a claim's citations, under numbering `f`. */
  function Marks(cs: seq<ExportCitation>, f: map<string, nat>): (r: seq<string>)
    ensures |r| == |cs|
  {
    if cs == [] then []
    else Marks(cs[..|cs| - 1], f) + [Marker(if cs[|cs| - 1].id in f then f[cs[|cs| - 1].id] else 0)]
  }

  lemma MarksSnoc(cs: seq<ExportCitation>, k: nat, f: map<string, nat>)
    requires k < |cs|
    ensures Marks(cs[..k + 1], f) == Marks(cs[..k], f) + [Marker(if cs[k].id in f then f[cs[k].id] else 0)]
  {
    assert cs[..k + 1][..k] == cs[..k];
  }

  /** A claim's bullet: statement, confidence, and its footnote markers when it has citations. */
  function ClaimLine(c: ExportClaim, cits: seq<ExportCitation>, f: map<string, nat>): string {
    var head := "- " + c.statement + " (" + c.confidenceText + " confidence)";
    if cits == [] then head else head + (" " + Join(Marks(cits, f), " "))
  }

  function ClaimsLines(cs: seq<ExportClaim>, citations: seq<ExportCitation>, f: map<string, nat>): (r: seq<string>)
    ensures |r| == |cs|
  {
    if cs == [] then []
    else
      var c := cs[|cs| - 1];
      ClaimsLines(cs[..|cs| - 1], citations, f) + [ClaimLine(c, ClaimCitations(citations, c.id), f)]
  }

  /** A theme's heading, its summary when it has one, and a blank line. */
  function ThemeHead(t: ExportTheme): seq<string> {
    ["### " + t.title + " (" + t.confidenceText + " confidence)"]
    + (if Truthy(t.summary) then [t.summary.value] else [])
    + [""]
  }

  /** A theme's lines: the head, then its claims and a blank line, or the placeholder. */
  function ThemeLines(t: ExportTheme, claims: seq<ExportClaim>, citations: seq<ExportCitation>, f: map<string, nat>): (r: seq<string>)
  {
    var tc := ThemeClaims(claims, t.id);
    if tc == [] then ThemeHead(t) + ["_No claims available._", ""]
    else ThemeHead(t) + ClaimsLines(tc, citations, f) + [""]
  }

  function ThemesLines(ts: seq<ExportTheme>, claims: seq<ExportClaim>, citations: seq<ExportCitation>, f: map<string, nat>): seq<string> {
    if ts == [] then []
    else ThemesLines(ts[..|ts| - 1], claims, citations, f) + ThemeLines(ts[|ts| - 1], claims, citations, f)
  }

  lemma ClaimsRefsFront(cs: seq<ExportClaim>, j: nat, citations: seq<ExportCitation>)
    requires j < |cs|
    ensures ClaimsRefs(cs[j..], citations) == ClaimCitations(citations, cs[j].id) + ClaimsRefs(cs[j + 1..], citations)
  {
    ClaimsRefsOne(cs[j], citations);
    ClaimsRefsAppend([cs[j]], cs[j + 1..], citations);
    ConsAt(cs, j);
  }

  lemma ClaimsRefsOne(c: ExportClaim, citations: seq<ExportCitation>)
    ensures ClaimsRefs([c], citations) == ClaimCitations(citations, c.id)
  {
    assert [c][..0] == [];
  }

  lemma {:induction false} ClaimsRefsAppend(a: seq<ExportClaim>, b: seq<ExportClaim>, citations: seq<ExportCitation>)
    ensures ClaimsRefs(a + b, citations) == ClaimsRefs(a, citations) + ClaimsRefs(b, citations)
    decreases |b|
  {
    if b == [] {
      assert a + b == a;
    } else {
      var init := b[..|b| - 1];
      ClaimsRefsAppend(a, init, citations);
      AppendLast(a, b);
      AppendAssoc(ClaimsRefs(a, citations), ClaimsRefs(init, citations), ClaimCitations(citations, b[|b| - 1].id));
    }
  }

  lemma ThemesRefsFront(ts: seq<ExportTheme>, i: nat, claims: seq<ExportClaim>, citations: seq<ExportCitation>)
    requires i < |ts|
    ensures ThemesRefs(ts[i..], claims, citations)
         == ClaimsRefs(ThemeClaims(claims, ts[i].id), citations) + ThemesRefs(ts[i + 1..], claims, citations)
  {
    ThemesRefsOne(ts[i], claims, citations);
    ThemesRefsAppend([ts[i]], ts[i + 1..], claims, citations);
    ConsAt(ts, i);
  }

  lemma ThemesRefsOne(t: ExportTheme, claims: seq<ExportClaim>, citations: seq<ExportCitation>)
    ensures ThemesRefs([t], claims, citations) == ClaimsRefs(ThemeClaims(claims, t.id), citations)
  {
    assert [t][..0] == [];
  }

  lemma {:induction false} ThemesRefsAppend(a: seq<ExportTheme>, b: seq<ExportTheme>, claims: seq<ExportClaim>, citations: seq<ExportCitation>)
    ensures ThemesRefs(a + b, claims, citations) == ThemesRefs(a, claims, citations) + ThemesRefs(b, claims, citations)
    decreases |b|
  {
    if b == [] {
      assert a + b == a;
    } else {
      var init := b[..|b| - 1];
      ThemesRefsAppend(a, init, claims, citations);
      AppendLast(a, b);
      AppendAssoc(ThemesRefs(a, claims, citations), ThemesRefs(init, claims, citations),
                  ClaimsRefs(ThemeClaims(claims, b[|b| - 1].id), citations));
    }
  }

  /**
   * The innermost loop: each citation of a claim gets its index (an old one
   * or the next), a new one also its footnote block, and its marker.
   */
  method CiteAll(cc: seq<ExportCitation>, sourceOf: map<string, ExportSource>, footnotes0: map<string, nat>,
                 footLines0: seq<string>, ghost seen0: seq<ExportCitation>, ghost all: seq<ExportCitation>,
                 ghost after: seq<ExportCitation>)
    returns (refs: seq<string>, footnotes: map<string, nat>, footLines: seq<string>)
    requires footnotes0 == Numbering(seen0) && footLines0 == Blocks(seen0, sourceOf)
    requires all == seen0 + cc + after
    ensures footnotes == Numbering(seen0 + cc) && footLines == Blocks(seen0 + cc, sourceOf)
    ensures refs == Marks(cc, Numbering(all))
  {
    refs, footnotes, footLines := [], footnotes0, footLines0;
    assert seen0 + cc[..0] == seen0;
    var k := 0;
    while k < |cc|
      invariant 0 <= k <= |cc|
      invariant footnotes == Numbering(seen0 + cc[..k]) && footLines == Blocks(seen0 + cc[..k], sourceOf)
      invariant refs == Marks(cc[..k], Numbering(all))
    {
      var c := cc[k];
      ghost var seen := seen0 + cc[..k];
      CiteStep(seen0, cc, after, k);
      var index;
      index, footnotes, footLines := Cite(c, sourceOf, footnotes, footLines, seen);
      NumberingExtends(seen + [c], cc[k + 1..] + after, c.id);
      MarksSnoc(cc, k, Numbering(all));
      refs := refs + [Marker(index)];
      k := k + 1;
    }
    assert cc[..|cc|] == cc;
  }

  /**
   * One citation: an id seen before keeps its index; a new id gets the next
   * index and its footnote block.
   */
  method Cite(c: ExportCitation, sourceOf: map<string, ExportSource>, footnotes0: map<string, nat>,
              footLines0: seq<string>, ghost seen: seq<ExportCitation>)
    returns (index: nat, footnotes: map<string, nat>, footLines: seq<string>)
    requires footnotes0 == Numbering(seen) && footLines0 == Blocks(seen, sourceOf)
    ensures footnotes == Numbering(seen + [c]) && footLines == Blocks(seen + [c], sourceOf)
    ensures c.id in footnotes && index == footnotes[c.id]
  {
    footnotes, footLines := footnotes0, footLines0;
    if c.id in footnotes {
      index := footnotes[c.id];
      CiteKnown(seen, c, sourceOf);
    } else {
      index := |footnotes| + 1;
      CiteNew(seen, c, sourceOf);
      footnotes := footnotes[c.id := index];
      footLines := footLines + FootnoteBlock(c, index, sourceOf);
    }
  }

  lemma CiteStep(seen0: seq<ExportCitation>, cc: seq<ExportCitation>, after: seq<ExportCitation>, k: nat)
    requires k < |cc|
    ensures seen0 + cc[..k + 1] == (seen0 + cc[..k]) + [cc[k]]
    ensures seen0 + cc + after == (seen0 + cc[..k] + [cc[k]]) + (cc[k + 1..] + after)
  {
    assert cc[..k + 1] == cc[..k] + [cc[k]];
    assert cc == cc[..k] + [cc[k]] + cc[k + 1..];
  }

  lemma CiteKnown(seen: seq<ExportCitation>, c: ExportCitation, sourceOf: map<string, ExportSource>)
    requires c.id in Numbering(seen)
    ensures Numbering(seen + [c]) == Numbering(seen) && Blocks(seen + [c], sourceOf) == Blocks(seen, sourceOf)
  {
    assert (seen + [c])[..|seen|] == seen;
  }

  lemma CiteNew(seen: seq<ExportCitation>, c: ExportCitation, sourceOf: map<string, ExportSource>)
    requires c.id !in Numbering(seen)
    ensures Numbering(seen + [c]) == Numbering(seen)[c.id := |Numbering(seen)| + 1]
    ensures Blocks(seen + [c], sourceOf) == Blocks(seen, sourceOf) + FootnoteBlock(c, |Numbering(seen)| + 1, sourceOf)
  {
    assert (seen + [c])[..|seen|] == seen;
  }

  /** The loop over a theme's claims: each claim's bullet, with its citations numbered on the way. */
  method RenderClaims(tc: seq<ExportClaim>, citations: seq<ExportCitation>, sourceOf: map<string, ExportSource>,
                      footnotes0: map<string, nat>, footLines0: seq<string>, ghost seen0: seq<ExportCitation>,
                      ghost all: seq<ExportCitation>, ghost after: seq<ExportCitation>)
    returns (lines: seq<string>, footnotes: map<string, nat>, footLines: seq<string>)
    requires footnotes0 == Numbering(seen0) && footLines0 == Blocks(seen0, sourceOf)
    requires all == seen0 + ClaimsRefs(tc, citations) + after
    ensures footnotes == Numbering(seen0 + ClaimsRefs(tc, citations))
    ensures footLines == Blocks(seen0 + ClaimsRefs(tc, citations), sourceOf)
    ensures lines == ClaimsLines(tc, citations, Numbering(all))
  {
    lines, footnotes, footLines := [], footnotes0, footLines0;
    assert seen0 + ClaimsRefs(tc[..0], citations) == seen0;
    var j := 0;
    while j < |tc|
      invariant 0 <= j <= |tc|
      invariant footnotes == Numbering(seen0 + ClaimsRefs(tc[..j], citations))
      invariant footLines == Blocks(seen0 + ClaimsRefs(tc[..j], citations), sourceOf)
      invariant lines == ClaimsLines(tc[..j], citations, Numbering(all))
    {
      var claim := tc[j];
      var cc := ClaimCitations(citations, claim.id);
      ghost var seen := seen0 + ClaimsRefs(tc[..j], citations);
      ClaimStep(seen0, tc, after, citations, j, Numbering(all));
      var line;
      line, footnotes, footLines := RenderClaim(claim, cc, sourceOf, footnotes, footLines, seen, all,
                                                ClaimsRefs(tc[j + 1..], citations) + after);
      lines := lines + [line];
      j := j + 1;
    }
    assert tc[..|tc|] == tc;
  }

  /** One claim's bullet: statement, confidence and, when it has citations, their markers. */
  method RenderClaim(claim: ExportClaim, cc: seq<ExportCitation>, sourceOf: map<string, ExportSource>,
                     footnotes0: map<string, nat>, footLines0: seq<string>, ghost seen: seq<ExportCitation>,
                     ghost all: seq<ExportCitation>, ghost after: seq<ExportCitation>)
    returns (line: string, footnotes: map<string, nat>, footLines: seq<string>)
    requires footnotes0 == Numbering(seen) && footLines0 == Blocks(seen, sourceOf)
    requires all == seen + cc + after
    ensures footnotes == Numbering(seen + cc) && footLines == Blocks(seen + cc, sourceOf)
    ensures line == ClaimLine(claim, cc, Numbering(all))
  {
    footnotes, footLines := footnotes0, footLines0;
    line := "- " + claim.statement + " (" + claim.confidenceText + " confidence)";
    if cc != [] {
      var refs;
      refs, footnotes, footLines := CiteAll(cc, sourceOf, footnotes, footLines, seen, all, after);
      line := line + (" " + Join(refs, " "));
    } else {
      assert seen + cc == seen;
    }
  }

  lemma ClaimStep(seen0: seq<ExportCitation>, tc: seq<ExportClaim>, after: seq<ExportCitation>,
                  citations: seq<ExportCitation>, j: nat, f: map<string, nat>)
    requires j < |tc|
    ensures var cc := ClaimCitations(citations, tc[j].id);
      && seen0 + ClaimsRefs(tc[..j + 1], citations) == (seen0 + ClaimsRefs(tc[..j], citations)) + cc
      && seen0 + ClaimsRefs(tc, citations) + after
         == (seen0 + ClaimsRefs(tc[..j], citations)) + cc + (ClaimsRefs(tc[j + 1..], citations) + after)
      && ClaimsLines(tc[..j + 1], citations, f) == ClaimsLines(tc[..j], citations, f) + [ClaimLine(tc[j], cc, f)]
  {
    var cc := ClaimCitations(citations, tc[j].id);
    ClaimsRefsSnoc(tc, j, citations);
    AppendAssoc(seen0, ClaimsRefs(tc[..j], citations), cc);
    ClaimsRefsSplit(tc, j, citations);
    Regroup(seen0, ClaimsRefs(tc[..j], citations), cc, ClaimsRefs(tc[j + 1..], citations), after);
    ClaimsLinesSnoc(tc, j, citations, f);
  }

  lemma ClaimsRefsSnoc(tc: seq<ExportClaim>, j: nat, citations: seq<ExportCitation>)
    requires j < |tc|
    ensures ClaimsRefs(tc[..j + 1], citations) == ClaimsRefs(tc[..j], citations) + ClaimCitations(citations, tc[j].id)
  {
    assert tc[..j + 1][..j] == tc[..j];
  }

  lemma ClaimsLinesSnoc(tc: seq<ExportClaim>, j: nat, citations: seq<ExportCitation>, f: map<string, nat>)
    requires j < |tc|
    ensures ClaimsLines(tc[..j + 1], citations, f)
         == ClaimsLines(tc[..j], citations, f) + [ClaimLine(tc[j], ClaimCitations(citations, tc[j].id), f)]
  {
    assert tc[..j + 1][..j] == tc[..j];
  }

  lemma ClaimsRefsSplit(tc: seq<ExportClaim>, j: nat, citations: seq<ExportCitation>)
    requires j < |tc|
    ensures ClaimsRefs(tc, citations)
         == ClaimsRefs(tc[..j], citations) + ClaimCitations(citations, tc[j].id) + ClaimsRefs(tc[j + 1..], citations)
  {
    ClaimsRefsAppend(tc[..j], tc[j..], citations);
    SplitAt(tc, j);
    ClaimsRefsFront(tc, j, citations);
    AppendAssoc(ClaimsRefs(tc[..j], citations), ClaimCitations(citations, tc[j].id), ClaimsRefs(tc[j + 1..], citations));
  }

  /** The theme loop: every theme's lines, and the footnote lines gathered on the way. */
  method RenderThemes(themes: seq<ExportTheme>, claims: seq<ExportClaim>, citations: seq<ExportCitation>,
                      sourceOf: map<string, ExportSource>) returns (lines: seq<string>, footLines: seq<string>)
    ensures var all := ThemesRefs(themes, claims, citations);
      lines == ThemesLines(themes, claims, citations, Numbering(all)) && footLines == Blocks(all, sourceOf)
  {
    ghost var all := ThemesRefs(themes, claims, citations);
    var footnotes: map<string, nat> := map[];
    lines, footLines := [], [];
    var i := 0;
    while i < |themes|
      invariant 0 <= i <= |themes|
      invariant footnotes == Numbering(ThemesRefs(themes[..i], claims, citations))
      invariant footLines == Blocks(ThemesRefs(themes[..i], claims, citations), sourceOf)
      invariant lines == ThemesLines(themes[..i], claims, citations, Numbering(all))
    {
      var theme := themes[i];
      ghost var seen := ThemesRefs(themes[..i], claims, citations);
      ThemeStep(themes, claims, citations, i);
      ThemesLinesSnoc(themes, claims, citations, i, Numbering(all));
      var block := ThemeHead(theme);
      var tc := ThemeClaims(claims, theme.id);
      if tc == [] {
        block := block + ["_No claims available._", ""];
        assert seen + ClaimsRefs(tc, citations) == seen;
      } else {
        var claimLines;
        claimLines, footnotes, footLines := RenderClaims(tc, citations, sourceOf, footnotes, footLines, seen, all,
                                                         ThemesRefs(themes[i + 1..], claims, citations));
        block := block + claimLines + [""];
      }
      lines := lines + block;
      i := i + 1;
    }
    assert themes[..|themes|] == themes;
  }

  lemma ThemeStep(themes: seq<ExportTheme>, claims: seq<ExportClaim>, citations: seq<ExportCitation>, i: nat)
    requires i < |themes|
    ensures var cr := ClaimsRefs(ThemeClaims(claims, themes[i].id), citations);
      && ThemesRefs(themes[..i + 1], claims, citations) == ThemesRefs(themes[..i], claims, citations) + cr
      && ThemesRefs(themes, claims, citations)
         == ThemesRefs(themes[..i], claims, citations) + cr + ThemesRefs(themes[i + 1..], claims, citations)
  {
    ThemesRefsSnoc(themes, claims, citations, i);
    ThemesRefsSplit(themes, claims, citations, i);
  }

  lemma ThemesRefsSnoc(themes: seq<ExportTheme>, claims: seq<ExportClaim>, citations: seq<ExportCitation>, i: nat)
    requires i < |themes|
    ensures ThemesRefs(themes[..i + 1], claims, citations)
         == ThemesRefs(themes[..i], claims, citations) + ClaimsRefs(ThemeClaims(claims, themes[i].id), citations)
  {
    assert themes[..i + 1][..i] == themes[..i];
  }

  lemma ThemesRefsSplit(themes: seq<ExportTheme>, claims: seq<ExportClaim>, citations: seq<ExportCitation>, i: nat)
    requires i < |themes|
    ensures ThemesRefs(themes, claims, citations)
         == ThemesRefs(themes[..i], claims, citations) + ClaimsRefs(ThemeClaims(claims, themes[i].id), citations)
            + ThemesRefs(themes[i + 1..], claims, citations)
  {
    var before := ThemesRefs(themes[..i], claims, citations);
    var rest := ThemesRefs(themes[i..], claims, citations);
    assert ThemesRefs(themes, claims, citations) == before + rest by {
      ThemesRefsAppend(themes[..i], themes[i..], claims, citations);
      SplitAt(themes, i);
    }
    var here := ClaimsRefs(ThemeClaims(claims, themes[i].id), citations);
    assert rest == here + ThemesRefs(themes[i + 1..], claims, citations) by {
      ThemesRefsFront(themes, i, claims, citations);
    }
    AppendAssoc(before, here, ThemesRefs(themes[i + 1..], claims, citations));
  }

  lemma ThemesLinesSnoc(themes: seq<ExportTheme>, claims: seq<ExportClaim>, citations: seq<ExportCitation>, i: nat,
                        f: map<string, nat>)
    requires i < |themes|
    ensures ThemesLines(themes[..i + 1], claims, citations, f)
         == ThemesLines(themes[..i], claims, citations, f) + ThemeLines(themes[i], claims, citations, f)
  {
    assert themes[..i + 1][..i] == themes[..i];
  }

  /** Python's `str.capitalize()` on ASCII: the first letter upper-case, the rest lower-case. */
  function Capitalize(s: string): (r: string)
    ensures |r| == |s|
    ensures s != [] ==> r[0] == UpperChar(s[0])
    ensures forall i :: 1 <= i < |s| ==> r[i] == LowerChar(s[i])
  {
    if s == [] then [] else [UpperChar(s[0])] + Lower(s[1..])
  }

  /** Capitalizing twice is capitalizing once. */
  lemma CapitalizeIdempotent(s: string)
    ensures Capitalize(Capitalize(s)) == Capitalize(s)
  {
    var c := Capitalize(s);
    var cc := Capitalize(c);
    forall i | 0 <= i < |s| ensures cc[i] == c[i] {
      if i == 0 {
        assert UpperChar(UpperChar(s[0])) == UpperChar(s[0]);
      } else {
        assert LowerChar(LowerChar(s[i])) == LowerChar(s[i]);
      }
    }
  }

  /** A decision's bullet and its detail lines. */
  function DecisionLines(d: ExportDecision): (r: seq<string>)
  {
    ["- **" + d.title + "** \U{2014} " + (if Truthy(d.rationale) then d.rationale.value else "No rationale provided.")]
    + (if Truthy(d.pros) then ["  - Pros: " + d.pros.value] else [])
    + (if Truthy(d.cons) then ["  - Cons: " + d.cons.value] else [])
    + (if Truthy(d.risks) then ["  - Risks: " + d.risks.value] else [])
    + (if d.confidencePercent.Some? then ["  - Confidence: " + d.confidencePercent.value + "%"] else [])
    + (if d.linked_claim_ids != [] then ["  - Linked claims: " + Join(d.linked_claim_ids, ", ")] else [])
  }

  function AllDecisionLines(ds: seq<ExportDecision>): seq<string> {
    if ds == [] then [] else AllDecisionLines(ds[..|ds| - 1]) + DecisionLines(ds[|ds| - 1])
  }

  lemma AllDecisionLinesSnoc(ds: seq<ExportDecision>, i: nat)
    requires i < |ds|
    ensures AllDecisionLines(ds[..i + 1]) == AllDecisionLines(ds[..i]) + DecisionLines(ds[i])
  {
    assert ds[..i + 1][..i] == ds[..i];
  }

  /** The decisions section: the heading, each decision or the placeholder, a blank line. */
  function DecisionsSection(ds: seq<ExportDecision>): (r: seq<string>)
  {
    ["## Decisions", ""] + (if ds == [] then ["_No decisions recorded._"] else AllDecisionLines(ds)) + [""]
  }

  /** The parts of a task's detail: the capitalised status, then owner, due date and decision when set. */
  function TaskDetails(t: ExportTask): (r: seq<string>)
    ensures |r| == 1 + (if Truthy(t.owner) then 1 else 0) + (if t.dueDate.Some? then 1 else 0) + (if Truthy(t.decision_id) then 1 else 0)
    ensures r[0] == Capitalize(t.status)
  {
    [Capitalize(t.status)]
    + (if Truthy(t.owner) then ["owner: " + t.owner.value] else [])
    + (if t.dueDate.Some? then ["due: " + t.dueDate.value] else [])
    + (if Truthy(t.decision_id) then ["decision: " + t.decision_id.value] else [])
  }

  function TaskLine(t: ExportTask): string {
    "- **" + t.title + "** (" + Join(TaskDetails(t), ", ") + ")"
  }

  function AllTaskLines(ts: seq<ExportTask>): (r: seq<string>)
    ensures |r| == |ts| && forall i :: 0 <= i < |ts| ==> r[i] == TaskLine(ts[i])
  {
    if ts == [] then [] else AllTaskLines(ts[..|ts| - 1]) + [TaskLine(ts[|ts| - 1])]
  }

  /** The tasks section: the heading, one line per task or the placeholder, a blank line. */
  function TasksSection(ts: seq<ExportTask>): (r: seq<string>)
    ensures ts != [] ==> |r| == |ts| + 3
  {
    ["## Tasks", ""] + (if ts == [] then ["_No tasks recorded._"] else AllTaskLines(ts)) + [""]
  }

  /** The decision loop. */
  method RenderDecisions(ds: seq<ExportDecision>) returns (lines: seq<string>)
    ensures lines == DecisionsSection(ds)
  {
    var items: seq<string> := [];
    if ds != [] {
      var i := 0;
      while i < |ds|
        invariant 0 <= i <= |ds|
        invariant items == AllDecisionLines(ds[..i])
      {
        AllDecisionLinesSnoc(ds, i);
        items := items + DecisionLines(ds[i]);
        i := i + 1;
      }
      assert ds[..|ds|] == ds;
    } else {
      items := ["_No decisions recorded._"];
    }
    lines := ["## Decisions", ""] + items + [""];
  }

  /** The task loop. */
  method RenderTasks(ts: seq<ExportTask>) returns (lines: seq<string>)
    ensures lines == TasksSection(ts)
  {
    lines := ["## Tasks", ""];
    if ts != [] {
      var i := 0;
      while i < |ts|
        invariant 0 <= i <= |ts|
        invariant lines == ["## Tasks", ""] + AllTaskLines(ts[..i])
      {
        assert ts[..i + 1][..i] == ts[..i];
        AppendAssoc(["## Tasks", ""], AllTaskLines(ts[..i]), [TaskLine(ts[i])]);
        lines := lines + [TaskLine(ts[i])];
        i := i + 1;
      }
      assert ts[..|ts|] == ts;
    } else {
      lines := lines + ["_No tasks recorded._"];
    }
    lines := lines + [""];
  }

  function Header(projectName: string, runId: string): seq<string> {
    ["# Insight Export \U{2014} " + projectName, "", "_Generated from run " + runId + "_", "", "## Themes & Claims", ""]
  }

  /** Everything `export_project_markdown` renders for a project and its newest run. */
  function ExportLines(projectName: string, runId: string, themes: seq<ExportTheme>, claims: seq<ExportClaim>,
                       citations: seq<ExportCitation>, sourceOf: map<string, ExportSource>,
                       decisions: seq<ExportDecision>, tasks: seq<ExportTask>): seq<string>
  {
    var all := ThemesRefs(themes, claims, citations);
    var body := Header(projectName, runId) + ThemesLines(themes, claims, citations, Numbering(all))
                + DecisionsSection(decisions) + TasksSection(tasks);
    var footLines := Blocks(all, sourceOf);
    if footLines == [] then body else body + ["## References", ""] + footLines
  }

  /** The references section appears exactly when some claim of the run has a citation. */
  lemma ReferencesIffCited(themes: seq<ExportTheme>, claims: seq<ExportClaim>, citations: seq<ExportCitation>,
                           sourceOf: map<string, ExportSource>)
    ensures var all := ThemesRefs(themes, claims, citations);
      (Blocks(all, sourceOf) != []) <==> all != []
  {
    BlocksEmptyIff(ThemesRefs(themes, claims, citations), sourceOf);
  }

  /**
   * `export_project_markdown`: 404 for an unknown project, 400 when it has
   * no run, otherwise the document for its newest run. `projectName` is
   * the project's name when it exists; the other inputs are the queries'
   * results for that run and project.
   */
  method ExportProjectMarkdown(projectName: Option<string>, runs: seq<ExportRun>, themes: seq<ExportTheme>,
                               claims: seq<ExportClaim>, citations: seq<ExportCitation>,
                               sourceOf: map<string, ExportSource>, decisions: seq<ExportDecision>,
                               tasks: seq<ExportTask>) returns (r: Result<string, HttpError>)
    ensures projectName.None? ==> r == Failure(ProjectNotFound)
    ensures projectName.Some? && runs == [] ==> r == Failure(NoRunsToExport)
    ensures projectName.Some? && runs != [] ==>
      r == Success(Document(ExportLines(projectName.value, NewestRun(runs).value.id, themes, claims, citations,
                                      sourceOf, decisions, tasks)))
  {
    if projectName.None? {
      return Failure(ProjectNotFound);
    }
    var run := NewestRun(runs);
    if run.None? {
      return Failure(NoRunsToExport);
    }
    var lines := Header(projectName.value, run.value.id);
    var themeLines, footLines := RenderThemes(themes, claims, citations, sourceOf);
    var decisionLines := RenderDecisions(decisions);
    var taskLines := RenderTasks(tasks);
    lines := lines + themeLines + decisionLines + taskLines;
    if footLines != [] {
      lines := lines + ["## References", ""] + footLines;
    }
    r := Success(Document(lines));
  }
}
