// One article, rendered twice.
module Articles {
  // app/services/article_render.py, render_article: one article rendered as HTML and, by an independent walk, as
  // Markdown.

  import opened Sequences
  import opened Wrappers
  import opened Numerals
  import opened HtmlText
  import opened RenderWalk
  import H = HtmlRenderer
  import M = MarkdownRenderer

  datatype Suggestion = Suggestion(anchor: string, url: string, title: Option<string>)

  datatype Question = Question(question: string, answer: string)

  /** What the SEO package suggests. */
  datatype Seo = Seo(internal: seq<Suggestion>, external: seq<Suggestion>, faq: seq<Question>)

  datatype Note = NotValidated(kind: LinkKind, url: string) | AnchorMissing(anchor: string)
      | NoSource(labels: seq<string>)

  /** `safe_url`, and the name a source without a title goes by. */
  datatype Web = Web(safeUrl: string -> Option<string>, site: string -> string)

  datatype RenderedSource = RenderedSource(number: nat, name: string, url: string)

  datatype Document = Document(parts: seq<string>, notes: seq<Note>, links: seq<Link>, placed: seq<bool>,
                               related: seq<nat>,
                               sources: seq<RenderedSource>, unknown: seq<string>,
                               markdown: string, headings: seq<string>, markdownPlaced: seq<bool>,
                                   markdownUnknown: seq<string>)

  // ---------- which links there are ----------

  datatype Accepted = Accepted(links: seq<Link>, notes: seq<Note>)

  /** Only allowed targets become links; others are noted. A suggestion without an anchor is dropped. */
  function Accept(e: Engine, web: Web, kind: LinkKind, s: Suggestion, allowed: set<string>): Accepted {
    var url := web.safeUrl(s.url);
    if url.None? || url.value !in allowed then Accepted([], [NotValidated(kind, s.url)])
    else if e.strip(s.anchor) != "" then Accepted([Link(kind, e.strip(s.anchor), url.value, s.title)], [])
    else Accepted([], [])
  }

  function AcceptAll(e: Engine, web: Web, kind: LinkKind, suggestions: seq<Suggestion>,
                     allowed: set<string>): Accepted {
    if suggestions == [] then Accepted([], [])
    else
      var a, rest := Accept(e, web, kind, suggestions[0], allowed), AcceptAll(e, web, kind, suggestions[1..], allowed);
      Accepted(a.links + rest.links, a.notes + rest.notes)
  }

  function AcceptedOf(e: Engine, web: Web, seo: Option<Seo>, internal: set<string>, external: set<string>): Accepted {
    match seo
    case None => Accepted([], [])
    case Some(p) =>
      var a, b := AcceptAll(e, web, Internal, p.internal, internal), AcceptAll(e, web, External, p.external, external);
      Accepted(a.links + b.links, a.notes + b.notes)
  }

  lemma {:induction false} AcceptedAreAllowed(e: Engine, web: Web, kind: LinkKind, suggestions: seq<Suggestion>,
                                              allowed: set<string>)
    ensures forall l | l in AcceptAll(e, web, kind, suggestions, allowed).links ::
             l.kind == kind && l.url in allowed && l.anchor != ""
  {
    if suggestions != [] {
      AcceptedAreAllowed(e, web, kind, suggestions[1..], allowed);
    }
  }

  /** Every link goes to an allowed target and has an anchor. */
  lemma LinksAreAllowed(e: Engine, web: Web, seo: Option<Seo>, internal: set<string>, external: set<string>)
    ensures var links := AcceptedOf(e, web, seo, internal, external).links;
            HaveAnchors(links) && forall l | l in links :: l.url in (if l.kind == Internal then internal else external)
  {
    if seo.Some? {
      AcceptedAreAllowed(e, web, Internal, seo.value.internal, internal);
      AcceptedAreAllowed(e, web, External, seo.value.external, external);
      var links := AcceptedOf(e, web, seo, internal, external).links;
      forall i | 0 <= i < |links| ensures links[i].anchor != "" {
        assert links[i] in links;
      }
    }
  }

  // ---------- what becomes of them ----------

  /** The internal links, from number `i` on, that were not placed. */
  function Related(links: seq<Link>, placed: seq<bool>, i: nat): seq<nat>
    decreases |links| - i
  {
    if i >= |links| || i >= |placed| then []
    else (if links[i].kind == Internal && !placed[i] then [i] else []) + Related(links, placed, i + 1)
  }

  function Missing(links: seq<Link>, placed: seq<bool>, i: nat): seq<nat>
    decreases |links| - i
  {
    if i >= |links| || i >= |placed| then []
    else (if links[i].kind == External && !placed[i] then [i] else []) + Missing(links, placed, i + 1)
  }

  function MissingNotes(links: seq<Link>, missing: seq<nat>): seq<Note> {
    if missing == [] then []
    else
      (if missing[0] < |links| then [AnchorMissing(links[missing[0]].anchor)] else [])
      + MissingNotes(links, missing[1..])
  }

  lemma {:induction false} RelatedAre(links: seq<Link>, placed: seq<bool>, i: nat)
    requires |placed| == |links|
    ensures forall k :: k in Related(links, placed, i) <==> i <= k < |links| && links[k].kind == Internal && !placed[k]
    ensures forall k :: k in Missing(links, placed, i) <==> i <= k < |links| && links[k].kind == External && !placed[k]
    decreases |links| - i
  {
    if i < |links| {
      RelatedAre(links, placed, i + 1);
    }
  }

  lemma {:induction false} MissingIsNoted(links: seq<Link>, missing: seq<nat>, k: nat)
    requires k in missing && k < |links|
    ensures AnchorMissing(links[k].anchor) in MissingNotes(links, missing)
    decreases |missing|
  {
    if missing[0] != k {
      MissingIsNoted(links, missing[1..], k);
    }
  }

  /** No link is lost: it is put inline, exactly once, or listed as related reading, or noted as left out. */
  lemma EveryLinkIsAccountedFor(e: Engine, known: set<string>, links: seq<Link>, ops: seq<Op>, k: nat)
    requires Lawful(e) && HaveAnchors(links) && k < |links|
    ensures var placed, inlined := Walk(e, known, links, ops, Start(links)).placed,
            Inlined(e, known, links, ops, Start(links));
            && |placed| == |links| && Distinct(inlined)
            && (placed[k] <==> k in inlined)
            && (!placed[k] && links[k].kind == Internal <==> k in Related(links, placed, 0))
            && (!placed[k] && links[k].kind == External <==> k in Missing(links, placed, 0))
            && (!placed[k] && links[k].kind == External
                ==> AnchorMissing(links[k].anchor) in MissingNotes(links, Missing(links, placed, 0)))
  {
    EachLinkOnce(e, known, links, ops, Start(links));
    var placed := Walk(e, known, links, ops, Start(links)).placed;
    RelatedAre(links, placed, 0);
    if !placed[k] && links[k].kind == External {
      MissingIsNoted(links, Missing(links, placed, 0), k);
    }
  }

  // ---------- the parts after the sections ----------

  function Asked(e: Engine, faq: seq<Question>): seq<Question> {
    if faq == [] then []
    else (if e.strip(faq[0].question) != "" && e.strip(faq[0].answer) != "" then [faq[0]] else []) + Asked(e, faq[1..])
  }

  function QuestionsHtml(faq: seq<Question>): seq<string> {
    if faq == [] then []
    else
      ["<h3>" + EscapeHtml(faq[0].question) + "</h3>\n<p>" + EscapeHtml(faq[0].answer) + "</p>"]
          + QuestionsHtml(faq[1..])
  }

  function FaqHtml(faq: seq<Question>): seq<string> {
    if faq == [] then [] else ["<h2>Frequently asked questions</h2>"] + QuestionsHtml(faq)
  }

  function RelatedItems(links: seq<Link>, related: seq<nat>): string {
    if related == [] then ""
    else
      (if related[0] < |links| then
         var l := links[related[0]];
         "<li>" + Anchor(l.url, false, if l.title.Some? && l.title.value != "" then l.title.value else l.anchor)
             + "</li>"
       else "")
      + RelatedItems(links, related[1..])
  }

  function RelatedHtml(links: seq<Link>, related: seq<nat>): seq<string> {
    if related == [] then [] else ["<h2>Related reading</h2>", "<ul>" + RelatedItems(links, related) + "</ul>"]
  }

  function SourceOf(e: Engine, web: Web, sources: H.SourceMap, name: string, n: nat): RenderedSource {
    if name !in sources then RenderedSource(n, "", "")
    else
      var (title, url) := sources[name];
      var shown := if title.Some? then e.strip(title.value) else "";
      RenderedSource(n, if shown != "" then shown else web.site(url), url)
  }

  /** The Sources list: one entry for each cited label, numbered from 1. */
  function SourcesOf(e: Engine, web: Web, sources: H.SourceMap, cited: seq<string>): seq<RenderedSource> {
    seq(|cited|, i requires 0 <= i < |cited| => SourceOf(e, web, sources, cited[i], i + 1))
  }

  function SourceItems(list: seq<RenderedSource>): string {
    if list == [] then ""
    else
      "<li id=\"source-" + Decimal(list[0].number) + "\">" + Anchor(list[0].url, true, list[0].name) + "</li>"
          + SourceItems(list[1..])
  }

  function SourcesHtml(list: seq<RenderedSource>): seq<string> {
    if list == [] then [] else ["<h2 id=\"sources\">Sources</h2>", "<ol>" + SourceItems(list) + "</ol>"]
  }

  /** The labels with a stored source that can be linked to. */
  function Linkable(web: Web, sources: H.SourceMap): H.SourceMap {
    map name | name in sources && web.safeUrl(sources[name].1).Some? :: sources[name]
  }

  /** The Sources list is exactly 1 to k, in order of first citation, each entry the stored source of its label. */
  lemma SourcesAreNumbered(e: Engine, web: Web, sources: H.SourceMap, links: seq<Link>, ops: seq<Op>)
    ensures var s := Walk(e, sources.Keys, links, ops, Start(links));
            var list := SourcesOf(e, web, sources, s.cited);
            && s.cited == Unique(H.KnownLabels(e, sources.Keys, ops)) && |list| == |s.cited|
            && forall i | 0 <= i < |list| :: list[i].number == i + 1 && s.cited[i] in sources
                && list[i].url == sources[s.cited[i]].1
  {
    H.NumberedByFirstUse(e, sources.Keys, links, ops);
  }

  /** And every reference in the body carries the number of the entry for the label it stands for. */
  lemma ReferencesFindTheirSource(e: Engine, web: Web, sources: H.SourceMap, links: seq<Link>, ops: seq<Op>)
    ensures var list := SourcesOf(e, web, sources, Walk(e, sources.Keys, links, ops, Start(links)).cited);
            forall r | r in H.AllRefs(e, sources.Keys, links, ops, Start(links)) ::
              1 <= r.1 <= |list| && r.0 in sources && list[r.1 - 1].url == sources[r.0].1
  {
    H.NumberedByFirstUse(e, sources.Keys, links, ops);
    StartIsSound(sources.Keys, links);
    H.EveryReferenceResolves(e, sources.Keys, links, ops, Start(links));
    var cited := Walk(e, sources.Keys, links, ops, Start(links)).cited;
    forall r | r in H.AllRefs(e, sources.Keys, links, ops, Start(links))
      ensures var list := SourcesOf(e, web, sources, cited);
             1 <= r.1 <= |list| && r.0 in sources && list[r.1 - 1].url == sources[r.0].1
    {
    }
  }

  // ---------- the document ----------

  /** Everything the rendering depends on. */
  datatype Request = Request(e: Engine, web: Web, style: M.Style, title: string, sections: seq<Section>,
                             sources: H.SourceMap,
                             seo: Option<Seo>, internal: set<string>, external: set<string>, includeTitle: bool)

  function LinksFor(q: Request): seq<Link> {
    AcceptedOf(q.e, q.web, q.seo, q.internal, q.external).links
  }

  function EndOf(q: Request): State {
    Walk(q.e, Linkable(q.web, q.sources).Keys, LinksFor(q), ArticleOps(q.e, q.sections), Start(LinksFor(q)))
  }

  function FaqFor(q: Request): seq<Question> {
    if q.seo.Some? then Asked(q.e, q.seo.value.faq) else []
  }

  function Pairs(faq: seq<Question>): seq<(string, string)> {
    seq(|faq|, i requires 0 <= i < |faq| => (faq[i].question, faq[i].answer))
  }

  function PartsFor(q: Request): seq<string> {
    var links, known := LinksFor(q), Linkable(q.web, q.sources);
    (if q.includeTitle then ["<h1>" + EscapeHtml(q.title) + "</h1>"] else [])
    + H.SectionsHtml(q.e, known.Keys, links, q.sections, Start(links))
    + FaqHtml(FaqFor(q))
    + RelatedHtml(links, Related(links, EndOf(q).placed, 0))
    + SourcesHtml(SourcesOf(q.e, q.web, known, EndOf(q).cited))
  }

  function NotesFor(q: Request): seq<Note> {
    AcceptedOf(q.e, q.web, q.seo, q.internal, q.external).notes
    + MissingNotes(LinksFor(q), Missing(LinksFor(q), EndOf(q).placed, 0))
    + (if EndOf(q).unknown != [] then [NoSource(EndOf(q).unknown)] else [])
  }

  function MarkdownFor(q: Request): string {
    M.BodyMd(M.Setting(q.e, q.style, Linkable(q.web, q.sources), LinksFor(q)), q.sections, Pairs(FaqFor(q)))
  }

  /** The list behind `sorted(r.numbers.items())`. */
  method ListSources(e: Engine, web: Web, sources: H.SourceMap, numbers: map<string, nat>, ghost cited: seq<string>)
    returns (list: seq<RenderedSource>)
    requires H.Numbered(numbers, cited)
    ensures list == SourcesOf(e, web, sources, cited)
  {
    list := [];
    for n := 0 to |numbers|
      invariant list == SourcesOf(e, web, sources, cited[..n])
    {
      var name := Numbered(numbers, cited, n);
      list := list + [SourceOf(e, web, sources, name, n + 1)];
    }
    assert cited[..|numbers|] == cited;
  }

  method Numbered(numbers: map<string, nat>, ghost cited: seq<string>, n: nat) returns (name: string)
    requires H.Numbered(numbers, cited) && n < |numbers|
    ensures name == cited[n]
  {
    assert cited[n] in numbers && numbers[cited[n]] == n + 1;
    name :| name in numbers && numbers[name] == n + 1;
  }

  /**
   * The two renderers walk the article independently, each with its own flags and its own list of unknown labels: they
   * end with the same ones, for every article, link list and source map.
   */
  method RenderArticle(q: Request) returns (doc: Document)
    requires Lawful(q.e)
    ensures doc.parts == PartsFor(q) && doc.notes == NotesFor(q)
    ensures doc.links == LinksFor(q) && doc.placed == EndOf(q).placed && doc.unknown == EndOf(q).unknown
    ensures doc.related == Related(doc.links, doc.placed, 0)
    ensures doc.sources == SourcesOf(q.e, q.web, Linkable(q.web, q.sources), EndOf(q).cited)
    ensures doc.markdown == MarkdownFor(q)
    ensures doc.headings == M.Headings(q.sections, true)
            + (if FaqFor(q) != [] then ["Frequently asked questions"] else [])
    ensures doc.markdownPlaced == doc.placed && doc.markdownUnknown == doc.unknown
  {
    var accepted := AcceptedOf(q.e, q.web, q.seo, q.internal, q.external);
    var links, notes := accepted.links, accepted.notes;
    LinksAreAllowed(q.e, q.web, q.seo, q.internal, q.external);
    var known := Linkable(q.web, q.sources);
    var r := new H.Renderer(q.e, known, links);
    var parts := if q.includeTitle then ["<h1>" + EscapeHtml(q.title) + "</h1>"] else [];
    var sections := r.Sections(q.sections);
    var faq := FaqFor(q);
    var related := Related(links, r.placed, 0);
    var sources := ListSources(q.e, q.web, known, r.numbers, r.cited);
    parts := parts + sections + FaqHtml(faq) + RelatedHtml(links, related) + SourcesHtml(sources);
    notes := notes + MissingNotes(links, Missing(links, r.placed, 0))
        + (if r.unknown != [] then [NoSource(r.unknown)] else []);
    var markdown, headings, placed, unknown :=
        M.RenderMarkdownBody(M.Setting(q.e, q.style, known, links), q.sections, Pairs(faq));
    doc := Document(parts, notes, links, r.placed, related, sources, r.unknown, markdown, headings, placed, unknown);
  }
}
