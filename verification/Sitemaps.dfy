// The sitemap walk.
module Sitemaps {
  // app/crawling/sitemaps.py: the bounded breadth-first walk of sitemap indexes.

  import opened Sequences
  import opened Wrappers

  /** A page a sitemap lists. */
  datatype Entry = Entry(url: string, sitemap: string)

  /** A child sitemap, with the time it was last changed. */
  datatype Link = Link(url: string, lastmod: Option<int>)

  datatype Parsed = Parsed(entries: seq<Entry>, children: seq<Link>)

  /**
   * The site being walked: what fetching and parsing a sitemap gives (asked at most once for each URL), which URLs are
   * in scope, which look relevant, and the start of the window, if there is one.
   */
  datatype Site = Site(fetch: string -> Result<Parsed, string>, inScope: string -> bool, relevant: string -> bool,
                       since: Option<int>) {
    predicate Admits(c: Link) {
      inScope(c.url) && (since.None? || c.lastmod.None? || c.lastmod.value >= since.value)
    }
  }

  // ---------- the order of children ----------

  predicate StringLess(a: string, b: string) {
    b != [] && (a == [] || a[0] < b[0] || (a[0] == b[0] && StringLess(a[1..], b[1..])))
  }

  function Changed(c: Link): int {
    if c.lastmod.Some? then c.lastmod.value else 0
  }

  /** `_child_priority`: relevant URLs first, then the most recently changed, then by URL. */
  predicate Before(site: Site, a: Link, b: Link) {
    if site.relevant(a.url) != site.relevant(b.url) then site.relevant(a.url)
    else if Changed(a) != Changed(b) then Changed(a) > Changed(b)
    else StringLess(a.url, b.url)
  }

  function InsertLink(site: Site, c: Link, sorted: seq<Link>): seq<Link> {
    if sorted == [] || Before(site, c, sorted[0]) then [c] + sorted else [sorted[0]] + InsertLink(site, c, sorted[1..])
  }

  /** The stable sort of `sorted`. */
  function Sorted(site: Site, links: seq<Link>): seq<Link> {
    if links == [] then [] else InsertLink(site, links[|links| - 1], Sorted(site, links[..|links| - 1]))
  }

  ghost predicate InOrder(site: Site, links: seq<Link>) {
    forall i, j | 0 <= i < j < |links| :: !Before(site, links[j], links[i])
  }

  lemma {:induction false} InsertedIs(site: Site, c: Link, sorted: seq<Link>)
    ensures multiset(InsertLink(site, c, sorted)) == multiset(sorted) + multiset{c}
    ensures forall d :: d in InsertLink(site, c, sorted) <==> d == c || d in sorted
  {
    if sorted != [] && !Before(site, c, sorted[0]) {
      InsertedIs(site, c, sorted[1..]);
      assert sorted == [sorted[0]] + sorted[1..];
    }
  }

  lemma {:induction false} StringOrder(a: string, b: string, c: string)
    ensures !StringLess(a, a)
    ensures StringLess(a, b) ==> !StringLess(b, a)
    ensures StringLess(a, b) && !StringLess(c, b) ==> StringLess(a, c)
    decreases |a| + |b| + |c|
  {
    if a != [] {
      StringOrder(a[1..], [], []);
      if b != [] {
        StringOrder(a[1..], b[1..], if c != [] then c[1..] else []);
      }
    }
  }

  lemma BeforeOrder(site: Site, a: Link, b: Link, c: Link)
    ensures Before(site, a, b) ==> !Before(site, b, a)
    ensures Before(site, a, b) && !Before(site, c, b) ==> Before(site, a, c)
  {
    StringOrder(a.url, b.url, c.url);
  }

  lemma {:induction false} InsertKeepsOrder(site: Site, c: Link, sorted: seq<Link>)
    requires InOrder(site, sorted)
    ensures InOrder(site, InsertLink(site, c, sorted))
  {
    if sorted == [] {
    } else if Before(site, c, sorted[0]) {
      var r := InsertLink(site, c, sorted);
      forall j | 1 <= j < |r| ensures !Before(site, r[j], c) {
        BeforeOrder(site, c, sorted[0], r[j]);
        BeforeOrder(site, c, r[j], c);
        if j > 1 {
          assert !Before(site, sorted[j - 1], sorted[0]);
        } else {
          BeforeOrder(site, sorted[0], c, c);
        }
      }
    } else {
      InsertKeepsOrder(site, c, sorted[1..]);
      InsertedIs(site, c, sorted[1..]);
      var rest := InsertLink(site, c, sorted[1..]);
      forall j | 0 <= j < |rest| ensures !Before(site, rest[j], sorted[0]) {
        assert rest[j] in rest;
      }
    }
  }

  /** Children are queued once each, in order of priority. */
  lemma {:induction false} SortedIs(site: Site, links: seq<Link>)
    ensures multiset(Sorted(site, links)) == multiset(links) && InOrder(site, Sorted(site, links))
    ensures forall c :: c in Sorted(site, links) <==> c in links
  {
    if links != [] {
      var n := |links| - 1;
      SortedIs(site, links[..n]);
      InsertedIs(site, links[n], Sorted(site, links[..n]));
      InsertKeepsOrder(site, links[n], Sorted(site, links[..n]));
      assert links == links[..n] + [links[n]];
    }
  }

  // ---------- one sitemap ----------

  datatype Walk = Walk(queue: seq<string>, seen: set<string>, entries: seq<Entry>, fetched: seq<string>,
                       errors: seq<(string, string)>)

  function Admitted(site: Site, links: seq<Link>, seen: set<string>): seq<Link> {
    if links == [] then []
    else (if site.Admits(links[0]) && links[0].url !in seen then [links[0]] else []) + Admitted(site, links[1..], seen)
  }

  function Urls(links: seq<Link>): seq<string> {
    if links == [] then [] else [links[0].url] + Urls(links[1..])
  }

  function Take<T>(s: seq<T>, n: nat): seq<T> {
    if |s| > n then s[..n] else s
  }

  predicate Goes(w: Walk, maxFiles: nat, maxUrls: nat) {
    w.queue != [] && |w.fetched| < maxFiles && |w.entries| < maxUrls
  }

  function Step(site: Site, maxUrls: nat, w: Walk): Walk
    requires w.queue != [] && |w.entries| <= maxUrls
  {
    var url, queue := w.queue[0], w.queue[1..];
    if url in w.seen then w.(queue := queue)
    else
      var seen := w.seen + {url};
      match site.fetch(url)
      case Err(error) => w.(queue := queue, seen := seen, errors := w.errors + [(url, error)])
      case Ok(parsed) =>
        Walk(queue + Urls(Sorted(site, Admitted(site, parsed.children, seen))), seen,
             w.entries + Take(parsed.entries, maxUrls - |w.entries|), w.fetched + [url], w.errors)
  }

  /** The walk to its end: a fetched file uses up the budget, anything else shortens the queue. */
  function Finish(site: Site, maxFiles: nat, maxUrls: nat, w: Walk): Walk
    requires |w.entries| <= maxUrls
    decreases maxFiles - |w.fetched|, |w.queue|
  {
    if Goes(w, maxFiles, maxUrls) then Finish(site, maxFiles, maxUrls, Step(site, maxUrls, w)) else w
  }

  function Crawl(site: Site, roots: seq<string>, maxFiles: nat, maxUrls: nat): Walk {
    Finish(site, maxFiles, maxUrls, Walk(Unique(roots), {}, [], [], []))
  }

  function Truncated(w: Walk, maxUrls: nat): bool {
    w.queue != [] || |w.entries| >= maxUrls
  }

  // ---------- what every walk keeps ----------

  /** All the entries of these sitemaps, in order. */
  function EntriesOf(site: Site, urls: seq<string>): seq<Entry> {
    if urls == [] then []
    else
      var n := |urls| - 1;
      EntriesOf(site, urls[..n]) + (match site.fetch(urls[n]) case Ok(parsed) => parsed.entries case Err(_) => [])
  }

  function Requested(w: Walk): seq<string> {
    w.fetched + ErrorUrls(w.errors)
  }

  function ErrorUrls(errors: seq<(string, string)>): seq<string> {
    seq(|errors|, i requires 0 <= i < |errors| => errors[i].0)
  }

  /** A chain of followed links: a root, then child after admitted child. */
  ghost predicate Chain(site: Site, roots: seq<string>, path: seq<string>) {
    path != [] && path[0] in roots && forall i | 0 < i < |path| :: Follows(site, path[i - 1], path[i])
  }

  ghost predicate Follows(site: Site, parent: string, child: string) {
    site.fetch(parent).Ok? && exists c | c in site.fetch(parent).value.children :: site.Admits(c) && c.url == child
  }

  ghost predicate Reachable(site: Site, roots: seq<string>, url: string) {
    exists path :: Chain(site, roots, path) && path[|path| - 1] == url
  }

  predicate Pending(w: Walk, url: string) {
    url in w.seen || url in w.queue
  }

  /** What was fetched, and what failed, is what the site gives. */
  ghost predicate Truthful(site: Site, w: Walk) {
    && (forall u | u in w.fetched :: site.fetch(u).Ok?)
    && (forall e | e in w.errors :: site.fetch(e.0) == Err(e.1))
    && (forall u :: u in w.seen <==> u in Requested(w))
  }

  ghost predicate Covers(site: Site, roots: seq<string>, w: Walk) {
    && (forall u | u in roots :: Pending(w, u))
    && (forall u, v | u in w.fetched && Follows(site, u, v) :: Pending(w, v))
    && (forall u | Pending(w, u) :: Reachable(site, roots, u))
  }

  ghost predicate Good(site: Site, roots: seq<string>, maxFiles: nat, maxUrls: nat, w: Walk) {
    && |w.fetched| <= maxFiles && |w.entries| <= maxUrls
    && w.entries == Take(EntriesOf(site, w.fetched), maxUrls)
    && Distinct(Requested(w)) && Truthful(site, w) && Covers(site, roots, w)
  }

  lemma {:induction false} AdmittedAre(site: Site, links: seq<Link>, seen: set<string>)
    ensures forall c :: c in Admitted(site, links, seen) <==> c in links && site.Admits(c) && c.url !in seen
  {
    if links != [] {
      AdmittedAre(site, links[1..], seen);
    }
  }

  lemma {:induction false} UrlsAre(links: seq<Link>, url: string)
    ensures url in Urls(links) <==> exists c | c in links :: c.url == url
  {
    if links != [] {
      UrlsAre(links[1..], url);
    }
  }

  /** What a fetched sitemap adds to the queue. */
  lemma QueuedAre(site: Site, links: seq<Link>, seen: set<string>, url: string)
    ensures url in Urls(Sorted(site, Admitted(site, links, seen)))
            <==> url !in seen && exists c | c in links :: site.Admits(c) && c.url == url
  {
    AdmittedAre(site, links, seen);
    SortedIs(site, Admitted(site, links, seen));
    UrlsAre(Sorted(site, Admitted(site, links, seen)), url);
  }

  lemma ReachesOn(site: Site, roots: seq<string>, parent: string, child: string)
    requires Reachable(site, roots, parent) && Follows(site, parent, child)
    ensures Reachable(site, roots, child)
  {
    var path :| Chain(site, roots, path) && path[|path| - 1] == parent;
    var longer := path + [child];
    assert Chain(site, roots, longer) && longer[|longer| - 1] == child;
  }

  lemma TakeMore(all: seq<Entry>, more: seq<Entry>, n: nat)
    ensures Take(all + more, n) == Take(all, n) + Take(more, n - |Take(all, n)|)
  {
  }

  lemma RequestedGrows(w: Walk, next: Walk, url: string)
    requires (next.fetched == w.fetched + [url] && next.errors == w.errors)
             || (next.fetched == w.fetched && exists e :: next.errors == w.errors + [(url, e)])
    requires Distinct(Requested(w)) && url !in Requested(w)
    ensures Distinct(Requested(next)) && forall u :: u in Requested(next) <==> u in Requested(w) || u == url
  {
    var f, e := |w.fetched|, ErrorUrls(w.errors);
    if next.fetched == w.fetched {
      assert Requested(next) == Requested(w) + [url];
    } else {
      assert Requested(next) == w.fetched + [url] + e;
      forall i, j | 0 <= i < j < |Requested(next)| ensures Requested(next)[i] != Requested(next)[j] {
        var a, b := if i < f then i else i - 1, if j < f then j else j - 1;
        assert i != f ==> Requested(next)[i] == Requested(w)[a];
        assert j != f ==> Requested(next)[j] == Requested(w)[b];
      }
    }
  }

  lemma SkipKeeps(site: Site, roots: seq<string>, maxFiles: nat, maxUrls: nat, w: Walk)
    requires Good(site, roots, maxFiles, maxUrls, w) && w.queue != [] && w.queue[0] in w.seen
    ensures Good(site, roots, maxFiles, maxUrls, Step(site, maxUrls, w))
  {
    var next := Step(site, maxUrls, w);
    assert w.queue == [w.queue[0]] + w.queue[1..];
    assert forall u :: Pending(next, u) <==> Pending(w, u);
  }

  lemma ErrorKeeps(site: Site, roots: seq<string>, maxFiles: nat, maxUrls: nat, w: Walk)
    requires Good(site, roots, maxFiles, maxUrls, w) && w.queue != [] && w.queue[0] !in w.seen
             && site.fetch(w.queue[0]).Err?
    ensures Good(site, roots, maxFiles, maxUrls, Step(site, maxUrls, w))
  {
    var next := Step(site, maxUrls, w);
    RequestedGrows(w, next, w.queue[0]);
    assert w.queue == [w.queue[0]] + w.queue[1..];
    assert forall u :: Pending(next, u) <==> Pending(w, u);
  }

  lemma FetchCovers(site: Site, roots: seq<string>, w: Walk, next: Walk, url: string)
    requires Covers(site, roots, w) && Truthful(site, w) && w.queue != [] && w.queue[0] == url && url !in w.seen
             && site.fetch(url).Ok?
    requires next.seen == w.seen + {url} && next.fetched == w.fetched + [url]
    requires next.queue == w.queue[1..] + Urls(Sorted(site, Admitted(site, site.fetch(url).value.children, next.seen)))
    ensures Covers(site, roots, next)
  {
    var added := Urls(Sorted(site, Admitted(site, site.fetch(url).value.children, next.seen)));
    assert w.queue == [url] + w.queue[1..];
    forall v ensures Follows(site, url, v) ==> Pending(next, v) {
      QueuedAre(site, site.fetch(url).value.children, next.seen, v);
    }
    forall u | Pending(next, u) ensures Reachable(site, roots, u) {
      if !Pending(w, u) {
        QueuedAre(site, site.fetch(url).value.children, next.seen, u);
        assert Pending(w, url);
        ReachesOn(site, roots, url, u);
      }
    }
  }

  lemma FetchKeeps(site: Site, roots: seq<string>, maxFiles: nat, maxUrls: nat, w: Walk)
    requires Good(site, roots, maxFiles, maxUrls, w) && Goes(w, maxFiles, maxUrls) && w.queue[0] !in w.seen
             && site.fetch(w.queue[0]).Ok?
    ensures Good(site, roots, maxFiles, maxUrls, Step(site, maxUrls, w))
  {
    var next, url := Step(site, maxUrls, w), w.queue[0];
    RequestedGrows(w, next, url);
    FetchCovers(site, roots, w, next, url);
    TakeMore(EntriesOf(site, w.fetched), site.fetch(url).value.entries, maxUrls);
    assert next.fetched[..|w.fetched|] == w.fetched;
  }

  lemma {:induction false} FinishKeeps(site: Site, roots: seq<string>, maxFiles: nat, maxUrls: nat, w: Walk)
    requires Good(site, roots, maxFiles, maxUrls, w)
    ensures var end := Finish(site, maxFiles, maxUrls, w);
           Good(site, roots, maxFiles, maxUrls, end) && !Goes(end, maxFiles, maxUrls)
    decreases maxFiles - |w.fetched|, |w.queue|
  {
    if Goes(w, maxFiles, maxUrls) {
      StepKeeps(site, roots, maxFiles, maxUrls, w);
      FinishKeeps(site, roots, maxFiles, maxUrls, Step(site, maxUrls, w));
    }
  }

  lemma StepKeeps(site: Site, roots: seq<string>, maxFiles: nat, maxUrls: nat, w: Walk)
    requires Good(site, roots, maxFiles, maxUrls, w) && Goes(w, maxFiles, maxUrls)
    ensures Good(site, roots, maxFiles, maxUrls, Step(site, maxUrls, w))
  {
    if w.queue[0] in w.seen {
      SkipKeeps(site, roots, maxFiles, maxUrls, w);
    } else if site.fetch(w.queue[0]).Err? {
      ErrorKeeps(site, roots, maxFiles, maxUrls, w);
    } else {
      FetchKeeps(site, roots, maxFiles, maxUrls, w);
    }
  }

  lemma StartIsGood(site: Site, roots: seq<string>, maxFiles: nat, maxUrls: nat)
    ensures Good(site, roots, maxFiles, maxUrls, Walk(Unique(roots), {}, [], [], []))
  {
    UniqueIs(roots);
    forall u | u in roots ensures Reachable(site, roots, u) {
      assert Chain(site, roots, [u]) && [u][|[u]| - 1] == u;
    }
  }

  /** The bounds hold, no URL is requested twice, and the entries are those of the fetched sitemaps, up to the bound. */
  lemma CrawlIsBounded(site: Site, roots: seq<string>, maxFiles: nat, maxUrls: nat)
    ensures var w := Crawl(site, roots, maxFiles, maxUrls);
            && |w.fetched| <= maxFiles && |w.entries| <= maxUrls
            && Distinct(Requested(w)) && Truthful(site, w)
            && w.entries == Take(EntriesOf(site, w.fetched), maxUrls)
            && forall u | u in Requested(w) :: Reachable(site, roots, u)
  {
    StartIsGood(site, roots, maxFiles, maxUrls);
    FinishKeeps(site, roots, maxFiles, maxUrls, Walk(Unique(roots), {}, [], [], []));
    var w := Crawl(site, roots, maxFiles, maxUrls);
    forall u | u in Requested(w) ensures Reachable(site, roots, u) {
      assert Pending(w, u);
    }
  }

  /** Every sitemap reachable through admitted links was asked for, and nothing the fetched ones list is missing. */
  ghost predicate Complete(site: Site, roots: seq<string>, w: Walk) {
    && (forall u :: Reachable(site, roots, u) <==> u in Requested(w))
    && w.entries == EntriesOf(site, w.fetched)
  }

  lemma {:induction false} ChainIsSeen(site: Site, roots: seq<string>, w: Walk, path: seq<string>)
    requires Covers(site, roots, w) && Truthful(site, w) && (forall u | u in w.queue :: u in w.seen)
             && Chain(site, roots, path)
    ensures path[|path| - 1] in w.seen
    decreases |path|
  {
    var n := |path| - 1;
    if n == 0 {
      assert Pending(w, path[0]);
    } else {
      var shorter := path[..n];
      assert Chain(site, roots, shorter) by {
        forall i | 0 < i < n ensures Follows(site, shorter[i - 1], shorter[i]) {
          assert Follows(site, path[i - 1], path[i]);
        }
      }
      ChainIsSeen(site, roots, w, shorter);
      assert Follows(site, path[n - 1], path[n]);
      assert path[n - 1] in Requested(w);
      assert Pending(w, path[n]);
    }
  }

  /** The crawl is complete exactly when whatever is left in the queue was seen already and no entry was dropped. */
  lemma CompleteWhen(site: Site, roots: seq<string>, maxFiles: nat, maxUrls: nat)
    ensures var w := Crawl(site, roots, maxFiles, maxUrls);
            Complete(site, roots, w)
            <==> (forall u | u in w.queue :: u in w.seen) && |EntriesOf(site, w.fetched)| <= maxUrls
  {
    StartIsGood(site, roots, maxFiles, maxUrls);
    FinishKeeps(site, roots, maxFiles, maxUrls, Walk(Unique(roots), {}, [], [], []));
    var w := Crawl(site, roots, maxFiles, maxUrls);
    if forall u | u in w.queue :: u in w.seen {
      forall u | Reachable(site, roots, u) ensures u in w.seen {
        var path :| Chain(site, roots, path) && path[|path| - 1] == u;
        ChainIsSeen(site, roots, w, path);
      }
      forall u | u in w.seen ensures Reachable(site, roots, u) {
        assert Pending(w, u);
      }
    }
    if Complete(site, roots, w) {
      forall u | u in w.queue ensures u in w.seen {
        assert Pending(w, u);
      }
    }
  }

  /** So a crawl not marked as truncated is complete. */
  lemma NotTruncatedIsComplete(site: Site, roots: seq<string>, maxFiles: nat, maxUrls: nat)
    requires !Truncated(Crawl(site, roots, maxFiles, maxUrls), maxUrls)
    ensures Complete(site, roots, Crawl(site, roots, maxFiles, maxUrls))
  {
    CrawlIsBounded(site, roots, maxFiles, maxUrls);
    CompleteWhen(site, roots, maxFiles, maxUrls);
  }

  // ---------- when the flag is right, in terms of the site ----------

  /** The sitemaps that can be reached and fetched, if there are finitely many. */
  ghost predicate AreFiles(site: Site, roots: seq<string>, files: set<string>) {
    forall u :: u in files <==> Reachable(site, roots, u) && site.fetch(u).Ok?
  }

  function CountEntries(site: Site, url: string): nat {
    match site.fetch(url)
    case Ok(parsed) => |parsed.entries|
    case Err(_) => 0
  }

  /** How many entries these sitemaps list. */
  ghost function Total(site: Site, files: set<string>): nat {
    if files == {} then 0
    else
      var u :| u in files;
      CountEntries(site, u) + Total(site, files - {u})
  }

  lemma {:induction false} TotalWithout(site: Site, files: set<string>, url: string)
    requires url in files
    ensures Total(site, files) == CountEntries(site, url) + Total(site, files - {url})
    decreases |files|
  {
    var u :| u in files && Total(site, files) == CountEntries(site, u) + Total(site, files - {u});
    if u != url {
      TotalWithout(site, files - {u}, url);
      TotalWithout(site, files - {url}, u);
      assert files - {u} - {url} == files - {url} - {u};
    }
  }

  lemma {:induction false} TotalGrows(site: Site, some: set<string>, files: set<string>)
    requires some <= files
    ensures Total(site, some) <= Total(site, files) && |some| <= |files|
    ensures |some| == |files| ==> some == files
    decreases |some|
  {
    if url :| url in some {
      TotalWithout(site, some, url);
      TotalWithout(site, files, url);
      TotalGrows(site, some - {url}, files - {url});
    }
  }

  lemma {:induction false} EntriesAreTotal(site: Site, urls: seq<string>)
    requires Distinct(urls)
    ensures var files := set u | u in urls; |EntriesOf(site, urls)| == Total(site, files) && |urls| == |files|
  {
    if urls != [] {
      var n := |urls| - 1;
      EntriesAreTotal(site, urls[..n]);
      var files := set u | u in urls;
      assert files - {urls[n]} == set u | u in urls[..n];
      TotalWithout(site, files, urls[n]);
    }
  }

  lemma FetchedApart(w: Walk)
    requires Distinct(Requested(w))
    ensures Distinct(w.fetched)
  {
    assert forall i | 0 <= i < |w.fetched| :: w.fetched[i] == Requested(w)[i];
  }

  /** A walk fetches some of the files, each once. */
  lemma FetchedAreFiles(site: Site, roots: seq<string>, w: Walk, files: set<string>)
    requires AreFiles(site, roots, files) && Distinct(Requested(w)) && Truthful(site, w)
    requires forall u | u in Requested(w) :: Reachable(site, roots, u)
    ensures |w.fetched| <= |files| && |EntriesOf(site, w.fetched)| <= Total(site, files)
    ensures |w.fetched| == |files| ==> |EntriesOf(site, w.fetched)| == Total(site, files)
  {
    var fetched := set u | u in w.fetched;
    forall u | u in fetched ensures u in files {
      assert u in Requested(w);
    }
    FetchedApart(w);
    EntriesAreTotal(site, w.fetched);
    TotalGrows(site, fetched, files);
  }

  /** A complete walk fetches all of them. */
  lemma CompleteFetchesAll(site: Site, roots: seq<string>, w: Walk)
    requires Truthful(site, w) && Complete(site, roots, w)
    ensures AreFiles(site, roots, set u | u in w.fetched)
  {
    forall u ensures u in w.fetched <==> Reachable(site, roots, u) && site.fetch(u).Ok? {
      assert u in w.fetched ==> u in Requested(w);
      if u in Requested(w) && u !in w.fetched {
        assert u in ErrorUrls(w.errors);
      }
    }
  }

  lemma CompleteCounts(site: Site, roots: seq<string>, w: Walk, files: set<string>)
    requires AreFiles(site, roots, files) && Distinct(Requested(w)) && Truthful(site, w) && Complete(site, roots, w)
    ensures |w.fetched| == |files| && |w.entries| == Total(site, files)
  {
    CompleteFetchesAll(site, roots, w);
    FetchedApart(w);
    EntriesAreTotal(site, w.fetched);
    assert files == set u | u in w.fetched;
  }

  /** No more files or entries than allowed, and of one of them exactly as many. */
  ghost predicate OnBoundary(site: Site, maxFiles: nat, maxUrls: nat, files: set<string>) {
    && |files| <= maxFiles && Total(site, files) <= maxUrls
    && (|files| == maxFiles || Total(site, files) == maxUrls)
  }

  /**
   * Off that boundary `truncated` says exactly whether anything is missing, and nothing is when files and entries are
   * both fewer than allowed.
   */
  lemma TruncatedWhen(site: Site, roots: seq<string>, maxFiles: nat, maxUrls: nat, files: set<string>)
    requires AreFiles(site, roots, files) && !OnBoundary(site, maxFiles, maxUrls, files)
    ensures var w := Crawl(site, roots, maxFiles, maxUrls);
            && (Truncated(w, maxUrls) <==> !Complete(site, roots, w))
            && (Complete(site, roots, w) <==> |files| < maxFiles && Total(site, files) < maxUrls)
  {
    WalkCounts(site, roots, maxFiles, maxUrls, files);
    if !Truncated(Crawl(site, roots, maxFiles, maxUrls), maxUrls) {
      NotTruncatedIsComplete(site, roots, maxFiles, maxUrls);
    }
  }

  /**
   * On the boundary no entry is missing, but the flag may be set: always with exactly as many entries as allowed; with
   * exactly as many files, when anything is left in the queue, be it only a sitemap that fails or was seen before. If
   * no reachable sitemap fails, nothing at all is missing where only the files reach their bound.
   */
  lemma TruncatedOnBoundary(site: Site, roots: seq<string>, maxFiles: nat, maxUrls: nat, files: set<string>)
    requires AreFiles(site, roots, files) && OnBoundary(site, maxFiles, maxUrls, files)
    ensures var w := Crawl(site, roots, maxFiles, maxUrls);
            && |w.entries| == Total(site, files)
            && (Truncated(w, maxUrls) <==> Total(site, files) == maxUrls || w.queue != [])
            && (Total(site, files) < maxUrls && (forall u | Reachable(site, roots, u) :: site.fetch(u).Ok?)
                ==> Complete(site, roots, w))
  {
    WalkCounts(site, roots, maxFiles, maxUrls, files);
    var w := Crawl(site, roots, maxFiles, maxUrls);
    if w.queue == [] && |w.entries| < maxUrls {
      NotTruncatedIsComplete(site, roots, maxFiles, maxUrls);
    } else if Total(site, files) < maxUrls && forall u | Reachable(site, roots, u) :: site.fetch(u).Ok? {
      AllFetchedIsComplete(site, roots, maxFiles, maxUrls, files);
    }
  }

  /** With no sitemap that fails, a walk that has fetched every file has seen all that is left in the queue. */
  lemma AllFetchedIsComplete(site: Site, roots: seq<string>, maxFiles: nat, maxUrls: nat, files: set<string>)
    requires AreFiles(site, roots, files) && Total(site, files) < maxUrls
    requires forall u | Reachable(site, roots, u) :: site.fetch(u).Ok?
    requires |Crawl(site, roots, maxFiles, maxUrls).fetched| == |files|
    ensures Complete(site, roots, Crawl(site, roots, maxFiles, maxUrls))
  {
    var w := Crawl(site, roots, maxFiles, maxUrls);
    CrawlIsBounded(site, roots, maxFiles, maxUrls);
    FetchedAreFiles(site, roots, w, files);
    AllAreFetched(site, roots, w, files);
    StartIsGood(site, roots, maxFiles, maxUrls);
    FinishKeeps(site, roots, maxFiles, maxUrls, Walk(Unique(roots), {}, [], [], []));
    forall u | u in w.queue ensures u in w.seen {
      assert Pending(w, u);
      assert u in w.fetched;
    }
    CompleteWhen(site, roots, maxFiles, maxUrls);
  }

  lemma AllAreFetched(site: Site, roots: seq<string>, w: Walk, files: set<string>)
    requires AreFiles(site, roots, files) && Distinct(Requested(w)) && Truthful(site, w)
    requires (forall u | u in Requested(w) :: Reachable(site, roots, u)) && |w.fetched| == |files|
    ensures forall u | u in files :: u in w.fetched && u in w.seen
  {
    var fetched := set u | u in w.fetched;
    forall u | u in fetched ensures u in files {
      assert u in Requested(w);
    }
    FetchedApart(w);
    EntriesAreTotal(site, w.fetched);
    TotalGrows(site, fetched, files);
    forall u | u in files ensures u in w.fetched && u in w.seen {
      assert u in fetched && u in Requested(w);
    }
  }

  lemma WalkCounts(site: Site, roots: seq<string>, maxFiles: nat, maxUrls: nat, files: set<string>)
    requires AreFiles(site, roots, files)
    ensures var w := Crawl(site, roots, maxFiles, maxUrls);
            && |w.fetched| <= |files| && !Goes(w, maxFiles, maxUrls)
            && |w.fetched| <= maxFiles && |w.entries| <= maxUrls && |w.entries| <= Total(site, files)
            && (|w.fetched| == |files| && Total(site, files) <= maxUrls ==> |w.entries| == Total(site, files))
            && (Complete(site, roots, w) ==> |w.fetched| == |files| && |w.entries| == Total(site, files))
  {
    var w := Crawl(site, roots, maxFiles, maxUrls);
    CrawlIsBounded(site, roots, maxFiles, maxUrls);
    FetchedAreFiles(site, roots, w, files);
    if Complete(site, roots, w) {
      CompleteCounts(site, roots, w, files);
    }
    StartIsGood(site, roots, maxFiles, maxUrls);
    FinishKeeps(site, roots, maxFiles, maxUrls, Walk(Unique(roots), {}, [], [], []));
  }

  /** Where there is no end to the sitemaps, every walk is marked as truncated, and is. */
  lemma EndlessIsTruncated(site: Site, roots: seq<string>, maxFiles: nat, maxUrls: nat)
    requires forall files: set<string> :: !AreFiles(site, roots, files)
    ensures var w := Crawl(site, roots, maxFiles, maxUrls); Truncated(w, maxUrls) && !Complete(site, roots, w)
  {
    CrawlIsBounded(site, roots, maxFiles, maxUrls);
    var w := Crawl(site, roots, maxFiles, maxUrls);
    if Complete(site, roots, w) {
      CompleteFetchesAll(site, roots, w);
    }
    if !Truncated(w, maxUrls) {
      NotTruncatedIsComplete(site, roots, maxFiles, maxUrls);
    }
  }

  /** An index that lists one empty sitemap twice. */
  ghost predicate ListsTwice(site: Site) {
    && site.fetch("r") == Ok(Parsed([], [Link("a", None), Link("a", None)])) && site.fetch("a") == Ok(Parsed([], []))
    && site.inScope("a") && site.since.None?
  }

  lemma TwinsAreQueued(site: Site)
    requires ListsTwice(site)
    ensures Urls(Sorted(site, Admitted(site, [Link("a", None), Link("a", None)], {"r"}))) == ["a", "a"]
  {
    var a := Link("a", None);
    assert [a, a][1..] == [a];
    assert Admitted(site, [a], {"r"}) == [a];
    assert Admitted(site, [a, a], {"r"}) == [a, a];
    SortedIs(site, [a, a]);
    var sorted := Sorted(site, [a, a]);
    assert |sorted| == |multiset(sorted)| == |multiset([a, a])| == 2;
    assert sorted[0] in sorted && sorted[1] in sorted;
    assert sorted == [a, a];
    assert Urls([a]) == ["a"];
  }

  lemma TwinsAreWalked(site: Site)
    requires ListsTwice(site)
    ensures Step(site, 10, Walk(["r"], {}, [], [], [])) == Walk(["a", "a"], {"r"}, [], ["r"], [])
    ensures Step(site, 10, Walk(["a", "a"], {"r"}, [], ["r"], [])) == Walk(["a"], {"r", "a"}, [], ["r", "a"], [])
  {
    TwinsAreQueued(site);
    assert {} + {"r"} == {"r"} && {"r"} + {"a"} == {"r", "a"};
    assert ["r"][1..] == [] && ["a", "a"][1..] == ["a"];
    assert [] + ["a", "a"] == ["a", "a"];
  }

  /**
   * `truncated` may be a false alarm: a child listed twice is still in the queue when the last file allowed is fetched.
   */
  lemma CompleteButTruncated(site: Site)
    requires ListsTwice(site)
    ensures Truncated(Crawl(site, ["r"], 2, 10), 10) && Complete(site, ["r"], Crawl(site, ["r"], 2, 10))
  {
    var first, second, third := Walk(["r"], {}, [], [], []), Walk(["a", "a"], {"r"}, [], ["r"], []),
        Walk(["a"], {"r", "a"}, [], ["r", "a"], []);
    TwinsAreWalked(site);
    assert ["r"][..0] == [];
    assert Unique(["r"]) == ["r"];
    assert Finish(site, 2, 10, third) == third;
    assert Finish(site, 2, 10, second) == third;
    assert Finish(site, 2, 10, first) == third;
    assert ["r", "a"][..1] == ["r"] && ["r"][..0] == [];
    assert EntriesOf(site, ["r"]) == [];
    CompleteWhen(site, ["r"], 2, 10);
  }

  // ---------- the walk, in place ----------

  /** What the lists of a finished walk say. */
  lemma CrawlMeans(site: Site, roots: seq<string>, maxFiles: nat, maxUrls: nat)
    ensures var w := Crawl(site, roots, maxFiles, maxUrls);
            && |w.fetched| <= maxFiles && |w.entries| <= maxUrls
            && (!Truncated(w, maxUrls)
                ==> w.entries == EntriesOf(site, w.fetched)
                    && forall u :: Reachable(site, roots, u) ==> u in w.fetched || exists e :: (u, e) in w.errors)
  {
    CrawlIsBounded(site, roots, maxFiles, maxUrls);
    var w := Crawl(site, roots, maxFiles, maxUrls);
    if !Truncated(w, maxUrls) {
      NotTruncatedIsComplete(site, roots, maxFiles, maxUrls);
      forall u | Reachable(site, roots, u) ensures u in w.fetched || exists e :: (u, e) in w.errors {
        assert u in Requested(w);
        if u !in w.fetched {
          var i :| 0 <= i < |w.errors| && ErrorUrls(w.errors)[i] == u;
          assert (u, w.errors[i].1) in w.errors;
        }
      }
    }
  }

  class SitemapCrawl {
    var entries: seq<Entry>
    var fetched: seq<string>
    var errors: seq<(string, string)>
    var truncated: bool

    constructor ()
      ensures entries == [] && fetched == [] && errors == [] && !truncated
    {
      entries, fetched, errors, truncated := [], [], [], false;
    }

    method CrawlSitemaps(site: Site, roots: seq<string>, maxFiles: nat, maxUrls: nat)
      requires entries == [] && fetched == [] && errors == []
      modifies this
      ensures var w := Crawl(site, roots, maxFiles, maxUrls);
              entries == w.entries && fetched == w.fetched && errors == w.errors && truncated == Truncated(w, maxUrls)
      ensures |fetched| <= maxFiles && |entries| <= maxUrls
      ensures !truncated ==> forall u :: Reachable(site, roots, u) ==> u in fetched || exists e :: (u, e) in errors
      ensures !truncated ==> entries == EntriesOf(site, fetched)
    {
      var queue, seen: set<string> := Unique(roots), {};
      while queue != [] && |fetched| < maxFiles && |entries| < maxUrls
        invariant |entries| <= maxUrls
        invariant Finish(site, maxFiles, maxUrls, Walk(queue, seen, entries, fetched, errors))
                  == Crawl(site, roots, maxFiles, maxUrls)
        decreases maxFiles - |fetched|, |queue|
      {
        ghost var before := Walk(queue, seen, entries, fetched, errors);
        var url := queue[0];
        queue := queue[1..];
        if url in seen {
          continue;
        }
        seen := seen + {url};
        var result := site.fetch(url);
        match result {
          case Err(error) => errors := errors + [(url, error)];
          case Ok(parsed) =>
            fetched := fetched + [url];
            entries := entries + Take(parsed.entries, maxUrls - |entries|);
            queue := queue + Urls(Sorted(site, Admitted(site, parsed.children, seen)));
        }
        assert Walk(queue, seen, entries, fetched, errors) == Step(site, maxUrls, before);
      }
      truncated := queue != [] || |entries| >= maxUrls;
      CrawlMeans(site, roots, maxFiles, maxUrls);
    }
  }
}
