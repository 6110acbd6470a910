// What a fetch may request and how it ends, over redirects, retries and the robots.txt it looks up.
module Fetcher {
  // app/crawling/fetcher.py and robots.py.
  // Replies, name resolution and the clock answer anything; only what the fetcher does with the answers is fixed.

  import opened Wrappers

  datatype Kind = Page | Feed | Sitemap | Robots

  /** What comes back of one request: `body` is what is read of the body, and `tooLong` says that there was more. */
  datatype Reply =
    | TransportFailure
    | ProtocolFailure
    | WrongType
    | Response(status: nat, location: Option<string>, challenge: bool, retryAfter: Option<int>, body: string,
               tooLong: bool)

  datatype FetchError =
    | InvalidUrl
    | OutOfScope
    | UnsafeDestination
    | RobotsDisallowed
    | Blocked
    | ClientStatus(status: nat)
    | ServerStatus(status: nat)
    | NetworkFailure
    | TooManyRedirects
    | UnsupportedContentType
    | ResponseTooLarge

  datatype Rules = Rules(allows: string -> bool, crawlDelay: Option<int>)

  datatype PolicyStatus = Enforced | Missing | Unreachable

  datatype Policy = Policy(url: string, status: PolicyStatus, rules: Option<Rules>) {
    predicate CanFetch(u: string) {
      match status
      case Missing => true
      case Unreachable => false
      case Enforced => rules.Some? && rules.value.allows(u)
    }

    function CrawlDelay(): Option<int> {
      if rules.Some? then rules.value.crawlDelay else None
    }
  }

  datatype FetchResult = FetchResult(url: string, finalUrl: string, status: nat, body: string, redirects: seq<string>)

  datatype Settings = Settings(maxRedirects: nat, maxRetries: nat, minDelay: int, maxRetryAfter: int, robotsTtl: int,
                               allowPrivate: bool)

  datatype HostCheck = Public | NotPublic | NoAddress

  /**
   * URL handling, the robots.txt parser, and the outside world: the check of a host at a given request count, the
   * reply to the n-th request, the n-th reading of the clock, and the wait before a retry.
   */
  datatype World = World(normalize: string -> Option<string>, join: (string, string) -> Option<string>,
                         host: string -> string, origin: string -> string, parse: string -> Rules,
                         check: (string, nat) -> HostCheck, reply: nat -> Reply, clock: nat -> int, backoff: nat -> int)

  function RobotsUrl(origin: string): string {
    origin + "/robots.txt"
  }

  // ---------- one reply ----------

  datatype Verdict = Retry | Raise(error: FetchError) | Return

  predicate Retryable(status: nat) {
    status == 408 || status == 429 || status >= 500
  }

  /**
   * What `_send` does with a reply; `last` says that no retry is left, `wait` how long one would wait. A body that is
   * too long is refused, but for robots.txt, which is cut short.
   */
  function Judge(kind: Kind, reply: Reply, last: bool, wait: int, maxRetryAfter: int): Verdict {
    match reply
    case TransportFailure => if last then Raise(NetworkFailure) else Retry
    case ProtocolFailure => Raise(NetworkFailure)
    case WrongType => Raise(UnsupportedContentType)
    case Response(status, _, challenge, _, _, tooLong) =>
      if 200 <= status < 300 && tooLong && kind != Robots then Raise(ResponseTooLarge)
      else if status == 401 || status == 403 || challenge then Raise(Blocked)
      else if Retryable(status) then if last || wait > maxRetryAfter then Raise(ServerStatus(status)) else Retry
      else if status >= 400 then Raise(ClientStatus(status))
      else Return
  }

  /** How long one would wait before repeating the n-th request. */
  function Wait(w: World, n: nat): int {
    var reply := w.reply(n);
    if reply.Response? && reply.retryAfter.Some? then reply.retryAfter.value else w.backoff(n)
  }

  predicate IsRedirect(status: nat) {
    status in {301, 302, 303, 307, 308}
  }

  /** Where a reply to `url` redirects to. */
  function Target(w: World, url: string, reply: Reply): Option<string> {
    if reply.Response? && IsRedirect(reply.status) && reply.location.Some? then w.join(reply.location.value, url)
        else None
  }

  // ---------- robots.txt ----------

  type Outcome = Result<FetchResult, FetchError>

  /** The policy a robots.txt fetch gives, or the error that goes through to the caller. */
  function PolicyFrom(w: World, url: string, outcome: Outcome): (policy: Result<Policy, FetchError>)
    ensures policy.Ok? ==> policy.value.url == url
  {
    match outcome
    case Ok(result) => Ok(Policy(url, Enforced, Some(w.parse(result.body))))
    case Err(error) =>
      match error
      case ClientStatus(_) => Ok(Policy(url, Missing, None))
      case Blocked => Ok(Policy(url, Missing, None))
      case TooManyRedirects => Ok(Policy(url, Missing, None))
      case UnsupportedContentType => Ok(Policy(url, Missing, None))
      case ServerStatus(_) => Ok(Policy(url, Unreachable, None))
      case NetworkFailure => Ok(Policy(url, Unreachable, None))
      case _ => Err(error)
  }

  const UNREACHABLE_TTL := 300

  /** How long a policy is kept; that a site was unreachable is not kept for long. */
  function Lifetime(settings: Settings, policy: Policy): int {
    if policy.status == Unreachable && UNREACHABLE_TTL < settings.robotsTtl then UNREACHABLE_TTL else settings.robotsTtl
  }

  /** The n-th reading of the clock. */
  function TimeOf(w: World, n: nat): int {
    w.clock(n)
  }

  /** When a policy expires that is stored at the n-th reading of the clock. */
  function Expiry(w: World, settings: Settings, n: nat, policy: Policy): int {
    TimeOf(w, n) + Lifetime(settings, policy)
  }

  // ---------- what was sent ----------

  /**
   * A request, with the policy it was checked against (none for robots.txt itself), the pause before it, and how often
   * the clock had been read.
   */
  datatype Request = Request(url: string, kind: Kind, policy: Option<Policy>, delay: int, readings: nat)

  /** How a robots.txt fetch ended, and at which reading of the clock its policy was stored. */
  datatype Lookup = Lookup(outcome: Outcome, reading: nat)

  /** How often the clock had been read when the last request was sent. */
  function LastSent(log: seq<Request>): int {
    if log == [] then -1 else log[|log| - 1].readings
  }

  function CountKind(log: seq<Request>, kind: Kind): nat {
    if log == [] then 0 else CountKind(log[..|log| - 1], kind) + if log[|log| - 1].kind == kind then 1 else 0
  }

  lemma {:induction false} CountJoin(a: seq<Request>, b: seq<Request>, kind: Kind)
    ensures CountKind(a + b, kind) == CountKind(a, kind) + CountKind(b, kind)
  {
    if b == [] {
      assert a + b == a;
    } else {
      assert (a + b)[..|a + b| - 1] == a + b[..|b| - 1];
      CountJoin(a, b[..|b| - 1], kind);
    }
  }

  lemma {:induction false} CountAll(a: seq<Request>, kind: Kind)
    requires forall r | r in a :: r.kind == kind
    ensures forall k :: CountKind(a, k) == if k == kind then |a| else 0
  {
    if a != [] {
      CountAll(a[..|a| - 1], kind);
    }
  }

  lemma {:induction false} CountNone(a: seq<Request>, kind: Kind)
    requires forall i | 0 <= i < |a| :: a[i].kind != kind
    ensures CountKind(a, kind) == 0
  {
    if a != [] {
      CountNone(a[..|a| - 1], kind);
    }
  }

  /** The most requests one fetch may send itself: every hop with every retry. */
  function Most(settings: Settings): nat {
    (settings.maxRedirects + 1) * (settings.maxRetries + 1)
  }

  /** And the most for robots.txt: every hop may look up a policy. */
  function MostForRobots(settings: Settings): nat {
    (settings.maxRedirects + 1) * Most(settings)
  }

  /** `n` hops of at most `c` requests. */
  function Times(n: nat, c: nat): nat {
    if n == 0 then 0 else Times(n - 1, c) + c
  }

  lemma TimesIs(n: nat, m: nat, c: nat)
    requires n <= m
    ensures Times(n, c) <= Times(m, c) == m * c
  {
    TimesIsProduct(m, c);
    TimesGrows(n, m, c);
  }

  lemma {:induction false} TimesIsProduct(m: nat, c: nat)
    ensures Times(m, c) == m * c
  {
    if m > 0 {
      TimesIsProduct(m - 1, c);
      assert (m - 1) * c + c == m * c;
    }
  }

  lemma {:induction false} TimesGrows(n: nat, m: nat, c: nat)
    requires n <= m
    ensures Times(n, c) <= Times(m, c)
    decreases m
  {
    if n < m {
      TimesGrows(n, m - 1, c);
    }
  }

  // ---------- one fetch, as a relation between its log and its result ----------

  /** How a fetch ends at `current`: with an error, a response, or one redirect too many. */
  function Ending(w: World, hop: Result<Reply, FetchError>, first: string, current: string,
                  redirects: seq<string>): Outcome
    requires hop.Ok? ==> hop.value.Response?
  {
    match hop
    case Err(error) => Err(error)
    case Ok(reply) =>
      if !IsRedirect(reply.status) then Ok(FetchResult(first, current, reply.status, reply.body, redirects))
      else if Target(w, current, reply).None? then Err(ClientStatus(reply.status))
      else Err(TooManyRedirects)
  }

  /** Whether the redirect loop ends with this hop. */
  predicate Over(w: World, settings: Settings, current: string, redirects: seq<string>,
                 hop: Result<Reply, FetchError>)
  {
    hop.Err? || Target(w, current, hop.value).None? || |redirects| >= settings.maxRedirects
  }

  /** The host was found to be public before the n-th request, or at that point. */
  ghost predicate HostPassed(w: World, host: string, n: nat) {
    exists k: nat :: k <= n && w.check(host, k) == Public
  }

  /** A fetch: what it is for, where it may go, and how many requests had been sent before it. */
  datatype Errand = Errand(w: World, settings: Settings, kind: Kind, scope: Option<string -> bool>, start: nat) {
    /** What comes of the n-th reply, to a request repeated `attempt` times before; nothing if it is repeated again. */
    function Answer(n: nat, attempt: nat): (hop: Option<Result<Reply, FetchError>>)
      ensures hop.Some? && hop.value.Ok? ==> hop.value.value.Response?
    {
      match Judge(kind, w.reply(n), attempt >= settings.maxRetries, Wait(w, n), settings.maxRetryAfter)
      case Retry => None
      case Raise(error) => Some(Err(error))
      case Return => Some(Ok(w.reply(n)))
    }

    /** Nothing of this kind was sent from `from` on. */
    ghost predicate Quiet(log: seq<Request>, from: nat) {
      forall i | from <= i < |log| :: log[i].kind != kind
    }

    /** The requests from `from` on are a first try and its retries, the last of them not to be repeated. */
    ghost predicate Tried(log: seq<Request>, url: string, from: nat) {
      && start <= from < |log| && Answer(|log| - 1, |log| - 1 - from).Some?
      && (forall i | from <= i < |log| :: log[i].url == url && log[i].kind == kind)
      && (forall i: nat | from <= i < |log| - 1 :: Again(from, i))
    }

    ghost predicate Again(from: nat, i: nat)
      requires from <= i
    {
      Answer(i, i - from).None?
    }

    function Hop(log: seq<Request>, from: nat): Result<Reply, FetchError>
      requires from < |log| && Answer(|log| - 1, |log| - 1 - from).Some?
    {
      Answer(|log| - 1, |log| - 1 - from).value
    }

    /** The requests from the i-th to the j-th went to `from`, and the reply to the last redirects to `to`. */
    ghost predicate Turn(log: seq<Request>, from: string, to: string, i: nat, j: nat) {
      && i <= j < |log| && Tried(log[..j + 1], from, i)
      && Hop(log[..j + 1], i) == Ok(w.reply(j)) && Target(w, from, w.reply(j)) == Some(to)
      && Quiet(log, j + 1)
    }

    /** What this fetch sent is one turn for each of `redirects`, the first to `first`, and leads to `current`. */
    ghost predicate Trail(log: seq<Request>, first: string, redirects: seq<string>, current: string)
      decreases |redirects|
    {
      if redirects == [] then
        current == first && Quiet(log, start)
      else
        var n := |redirects| - 1;
        exists i: nat, j: nat :: Turn(log, redirects[n], current, i, j)
                                 && Trail(log[..i], first, redirects[..n], redirects[n])
    }

    /** The host was checked during this fetch, and this is what was found. */
    ghost predicate Checked(log: seq<Request>, host: string, found: HostCheck) {
      exists n: nat :: start <= n <= |log| && w.check(host, n) == found
    }

    /** A host check fails only where private networks are not enabled, and for what was found. */
    ghost predicate Unsafe(log: seq<Request>, host: string, error: FetchError) {
      && !settings.allowPrivate
      && ((error == UnsafeDestination && Checked(log, host, NotPublic))
          || (error == NetworkFailure && Checked(log, host, NoAddress)))
    }

    /** The errors of a robots.txt fetch that go through to the caller. */
    ghost predicate NoPolicy(log: seq<Request>, origin: string, error: FetchError) {
      || (error == InvalidUrl && w.normalize(RobotsUrl(origin)).None?)
      || (error == UnsafeDestination && exists host :: Unsafe(log, host, error))
    }

    /** What its origin's robots.txt gave keeps this URL out. */
    ghost predicate Forbidden(fetched: map<string, Lookup>, url: string) {
      var origin := w.origin(url);
      origin in fetched
      && var policy := PolicyFrom(w, RobotsUrl(origin), fetched[origin].outcome);
         policy.Ok? && !policy.value.CanFetch(url)
    }

    /** Why no request to `current` was sent. */
    ghost predicate Refused(fetched: map<string, Lookup>, log: seq<Request>, current: string, error: FetchError) {
      || (error == OutOfScope && scope.Some? && !scope.value(current))
      || Unsafe(log, w.host(current), error)
      || (kind != Robots && NoPolicy(log, w.origin(current), error))
      || (kind != Robots && error == RobotsDisallowed && Forbidden(fetched, current))
    }

    /** After the redirects nothing was sent to `current`, for the reason given; or the last reply came from there. */
    ghost predicate EndsAt(fetched: map<string, Lookup>, log: seq<Request>, first: string, redirects: seq<string>,
                           current: string, result: Outcome)
    {
      && |redirects| <= settings.maxRedirects
      && ((result.Err? && Trail(log, first, redirects, current) && Refused(fetched, log, current, result.error))
          || exists from :: Replied(log, first, redirects, current, from, result))
    }

    ghost predicate Replied(log: seq<Request>, first: string, redirects: seq<string>, current: string, from: nat,
                            result: Outcome)
    {
      && Tried(log, current, from) && Trail(log[..from], first, redirects, current)
      && Over(w, settings, current, redirects, Hop(log, from))
      && result == Ending(w, Hop(log, from), first, current, redirects)
    }

    /** How a fetch of `url` ends. */
    ghost predicate Ends(fetched: map<string, Lookup>, log: seq<Request>, url: string, result: Outcome) {
      match w.normalize(url)
      case None => result == Err(InvalidUrl) && |log| == start
      case Some(first) => exists redirects, current :: EndsAt(fetched, log, first, redirects, current, result)
    }

    // ---------- what may be sent ----------

    /** After what was sent before, this fetch may send this request. */
    ghost predicate May(past: seq<Request>, r: Request) {
      || (MayForRobots(w, settings, past, r) && (kind == Robots && scope.Some? ==> scope.value(r.url)))
      || (kind != Robots && r.kind == kind && (scope.Some? ==> scope.value(r.url)) && MayForPages(w, settings, past, r))
    }

    /** Every request of this fetch was one it might send at that point. */
    ghost predicate Proper(log: seq<Request>) {
      forall i | start <= i < |log| :: ProperAt(log, i)
    }

    ghost predicate ProperAt(log: seq<Request>, i: nat)
      requires i < |log|
    {
      May(log[..i], log[i])
    }

    /** What every fetch does. */
    ghost predicate Done(fetched: map<string, Lookup>, log: seq<Request>, url: string, result: Outcome) {
      && start <= |log| && Ends(fetched, log, url, result) && Proper(log)
      && CountKind(log[start..], kind) <= Most(settings)
      && (kind != Robots ==> CountKind(log[start..], Robots) <= MostForRobots(settings))
    }

    /** The page is the last reply, to a request in scope, after no more redirects than allowed. */
    ghost predicate Served(log: seq<Request>, url: string, page: FetchResult) {
      && start < |log| && log[|log| - 1].url == page.finalUrl && log[|log| - 1].kind == kind
      && w.normalize(url) == Some(page.url) && (scope.Some? ==> scope.value(page.finalUrl))
      && |page.redirects| <= settings.maxRedirects
      && var reply := w.reply(|log| - 1);
         reply.Response? && reply.status == page.status < 400 && !IsRedirect(reply.status) && reply.body == page.body
    }

    /** The state of the redirect loop, with at most `lookups` policies looked up. */
    ghost predicate Going(log: seq<Request>, first: string, redirects: seq<string>, current: string, lookups: nat) {
      && start <= |log| && |redirects| <= settings.maxRedirects
      && Trail(log, first, redirects, current) && Proper(log)
      && (kind != Robots ==> CountKind(log[start..], Robots) <= Times(lookups, Most(settings)))
    }

    /** After a turn of the loop the fetch is over, or goes on at the redirect's target. */
    ghost predicate AfterHop(fetched: map<string, Lookup>, log: seq<Request>, url: string, first: string,
                             redirects: seq<string>, current: string, hop: Result<Reply, FetchError>)
      requires hop.Ok? ==> hop.value.Response?
    {
      if Over(w, settings, current, redirects, hop) then
        Done(fetched, log, url, Ending(w, hop, first, current, redirects))
      else
        Going(log, first, redirects + [current], Target(w, current, hop.value).value, |redirects| + 1)
    }
  }

  /** A robots.txt fetch consults no policy, so that what it ends with does not depend on the ones recorded. */
  function ForRobots(w: World, settings: Settings, start: nat): Errand {
    Errand(w, settings, Robots, None, start)
  }

  /** A fetch of the origin's robots.txt ended like this, the clock being read next after its last request. */
  ghost predicate Recorded(w: World, settings: Settings, log: seq<Request>, origin: string, lookup: Lookup) {
    exists start: nat, end: nat :: RecordedAt(w, settings, log, origin, lookup, start, end)
  }

  ghost predicate RecordedAt(w: World, settings: Settings, log: seq<Request>, origin: string, lookup: Lookup,
                             start: nat, end: nat)
  {
    && start <= end <= |log| && (start < end ==> LastSent(log[..end]) == lookup.reading)
    && ForRobots(w, settings, start).Ends(map[], log[..end], RobotsUrl(origin), lookup.outcome)
  }

  /** Each origin's recorded outcome is how a fetch of its robots.txt ended. */
  ghost predicate Honest(w: World, settings: Settings, log: seq<Request>, fetched: map<string, Lookup>) {
    forall origin | origin in fetched :: Recorded(w, settings, log, origin, fetched[origin])
  }

  /** After `readings` readings of the clock: the policy was stored at the last one, or had not expired then. */
  ghost predicate Unexpired(w: World, settings: Settings, policy: Policy, stored: nat, readings: nat) {
    && stored < readings
    && (stored == readings - 1 || Expiry(w, settings, stored, policy) >= TimeOf(w, readings - 1))
  }

  /** The policy is what a fetch of the robots.txt of this URL's origin gave, and has not expired. */
  ghost predicate PolicyGiven(w: World, settings: Settings, log: seq<Request>, url: string, policy: Policy,
                              readings: nat)
  {
    exists lookup :: Recorded(w, settings, log, w.origin(url), lookup)
      && PolicyFrom(w, RobotsUrl(w.origin(url)), lookup.outcome) == Ok(policy)
      && Unexpired(w, settings, policy, lookup.reading, readings)
  }

  /** The clock was read since the last request, unless that is repeated. */
  ghost predicate Looks(past: seq<Request>, r: Request) {
    LastSent(past) < r.readings || past[|past| - 1] == r
  }

  ghost predicate Safe(w: World, settings: Settings, past: seq<Request>, url: string) {
    settings.allowPrivate || HostPassed(w, w.host(url), |past|)
  }

  /** A request for robots.txt: its host is checked like any other. */
  ghost predicate MayForRobots(w: World, settings: Settings, past: seq<Request>, r: Request) {
    r.kind == Robots && Safe(w, settings, past, r.url) && r.policy.None? && r.delay == settings.minDelay
  }

  /**
   * Any other request: robots.txt, as fetched before and not expired when looked up for it, allows it, and the pause is
   * as long as it asks for.
   */
  ghost predicate MayForPages(w: World, settings: Settings, past: seq<Request>, r: Request) {
    && Safe(w, settings, past, r.url)
    && r.policy.Some? && r.policy.value.CanFetch(r.url)
    && PolicyGiven(w, settings, past, r.url, r.policy.value, r.readings) && Looks(past, r)
    && r.delay >= settings.minDelay
    && (r.policy.value.CrawlDelay().Some? ==> r.delay >= r.policy.value.CrawlDelay().value)
  }

  // ---------- what later requests leave true ----------

  lemma PassedLater(w: World, host: string, n: nat, m: nat)
    requires HostPassed(w, host, n) && n <= m
    ensures HostPassed(w, host, m)
  {
  }

  lemma RecordedLater(w: World, settings: Settings, log: seq<Request>, more: seq<Request>, origin: string,
                      lookup: Lookup)
    requires Recorded(w, settings, log, origin, lookup) && log <= more
    ensures Recorded(w, settings, more, origin, lookup)
  {
    var start: nat, end: nat :| RecordedAt(w, settings, log, origin, lookup, start, end);
    assert more[..end] == log[..end];
    assert RecordedAt(w, settings, more, origin, lookup, start, end);
  }

  lemma HonestLater(w: World, settings: Settings, log: seq<Request>, more: seq<Request>, fetched: map<string, Lookup>)
    requires Honest(w, settings, log, fetched) && log <= more
    ensures Honest(w, settings, more, fetched)
  {
    forall origin | origin in fetched ensures Recorded(w, settings, more, origin, fetched[origin]) {
      RecordedLater(w, settings, log, more, origin, fetched[origin]);
    }
  }

  lemma MayLater(e: Errand, past: seq<Request>, more: seq<Request>, r: Request)
    requires e.May(past, r) && past <= more && forall i | |past| <= i < |more| :: more[i] == r
    ensures e.May(more, r)
  {
    if !e.settings.allowPrivate {
      PassedLater(e.w, e.w.host(r.url), |past|, |more|);
    }
    if !MayForRobots(e.w, e.settings, past, r) {
      GivenLater(e.w, e.settings, past, more, r.url, r.policy.value, r.readings);
    }
  }

  lemma GivenLater(w: World, settings: Settings, past: seq<Request>, more: seq<Request>, url: string, policy: Policy,
                   readings: nat)
    requires PolicyGiven(w, settings, past, url, policy, readings) && past <= more
    ensures PolicyGiven(w, settings, more, url, policy, readings)
  {
    var lookup :| Recorded(w, settings, past, w.origin(url), lookup)
      && PolicyFrom(w, RobotsUrl(w.origin(url)), lookup.outcome) == Ok(policy)
      && Unexpired(w, settings, policy, lookup.reading, readings);
    RecordedLater(w, settings, past, more, w.origin(url), lookup);
  }

  /** Another request like one that might be sent keeps the log proper. */
  lemma ProperOn(e: Errand, log: seq<Request>, more: seq<Request>, r: Request)
    requires e.Proper(log) && log <= more && e.May(log, r) && forall i | |log| <= i < |more| :: more[i] == r
    ensures e.Proper(more)
  {
    forall i | e.start <= i < |more| ensures e.ProperAt(more, i) {
      if i < |log| {
        assert more[..i] == log[..i] && e.ProperAt(log, i);
      } else {
        MayLater(e, log, more[..i], r);
      }
    }
  }

  /** So do the requests of a robots.txt fetch. */
  lemma ProperWithRobots(e: Errand, log: seq<Request>, more: seq<Request>)
    requires e.Proper(log) && log <= more && ForRobots(e.w, e.settings, |log|).Proper(more) && e.kind != Robots
    ensures e.Proper(more)
  {
    forall i | e.start <= i < |more| ensures e.ProperAt(more, i) {
      if i < |log| {
        assert more[..i] == log[..i] && e.ProperAt(log, i);
      } else {
        assert ForRobots(e.w, e.settings, |log|).ProperAt(more, i);
      }
    }
  }

  lemma TrailLater(e: Errand, log: seq<Request>, more: seq<Request>, first: string, redirects: seq<string>,
                   current: string)
    requires e.Trail(log, first, redirects, current) && log <= more && e.Quiet(more, |log|)
    ensures e.Trail(more, first, redirects, current)
  {
    if redirects != [] {
      var n := |redirects| - 1;
      var i: nat, j: nat :| e.Turn(log, redirects[n], current, i, j)
                            && e.Trail(log[..i], first, redirects[..n], redirects[n]);
      assert more[..i] == log[..i] && more[..j + 1] == log[..j + 1];
      assert e.Turn(more, redirects[n], current, i, j);
    }
  }

  /** The last reply redirects once more. */
  lemma TrailOn(e: Errand, log: seq<Request>, from: nat, first: string, redirects: seq<string>, current: string,
                next: string)
    requires e.Tried(log, current, from) && e.Trail(log[..from], first, redirects, current)
    requires e.Hop(log, from).Ok? && Target(e.w, current, e.Hop(log, from).value) == Some(next)
    ensures e.Trail(log, first, redirects + [current], next)
  {
    var longer := redirects + [current];
    assert longer[..|longer| - 1] == redirects && log[..|log| - 1 + 1] == log;
    assert e.Turn(log, longer[|redirects|], next, from, |log| - 1);
  }

  // ---------- how many requests ----------

  /** A first try is repeated at most `maxRetries` times. */
  lemma TriedAtMost(e: Errand, log: seq<Request>, url: string, from: nat)
    requires e.Tried(log, url, from)
    ensures |log| - from <= e.settings.maxRetries + 1
    ensures CountKind(log[from..], e.kind) == |log| - from
  {
    assert !e.Again(from, from + e.settings.maxRetries);
    CountAll(log[from..], e.kind);
  }

  lemma {:induction false} TrailCounts(e: Errand, log: seq<Request>, first: string, redirects: seq<string>,
                                       current: string)
    requires e.Trail(log, first, redirects, current) && e.start <= |log|
    ensures CountKind(log[e.start..], e.kind) <= Times(|redirects|, e.settings.maxRetries + 1)
    decreases |redirects|
  {
    if redirects == [] {
      CountNone(log[e.start..], e.kind);
    } else {
      var n := |redirects| - 1;
      var i: nat, j: nat :| e.Turn(log, redirects[n], current, i, j)
                            && e.Trail(log[..i], first, redirects[..n], redirects[n]);
      TrailCounts(e, log[..i], first, redirects[..n], redirects[n]);
      TurnCounts(e, log, redirects[n], current, i, j);
      assert log[..i][e.start..] == log[e.start..i];
      OneMore(n, e.settings.maxRetries + 1);
    }
  }

  lemma OneMore(n: nat, c: nat)
    ensures Times(n + 1, c) == Times(n, c) + c
  {
  }

  lemma TurnCounts(e: Errand, log: seq<Request>, from: string, to: string, i: nat, j: nat)
    requires e.Turn(log, from, to, i, j)
    ensures e.start <= i
    ensures CountKind(log[e.start..], e.kind) <= CountKind(log[..i][e.start..], e.kind) + e.settings.maxRetries + 1
  {
    TriedAtMost(e, log[..j + 1], from, i);
    CountNone(log[j + 1..], e.kind);
    CountThree(log, e.start, i, j + 1, e.kind);
  }

  lemma CountThree(log: seq<Request>, a: nat, b: nat, c: nat, kind: Kind)
    requires a <= b <= c <= |log|
    ensures CountKind(log[a..], kind)
         == CountKind(log[..b][a..], kind) + CountKind(log[..c][b..], kind) + CountKind(log[c..], kind)
  {
    assert log[a..] == log[..b][a..] + log[..c][b..] + log[c..];
    CountJoin(log[..b][a..] + log[..c][b..], log[c..], kind);
    CountJoin(log[..b][a..], log[..c][b..], kind);
  }

  /** Whatever the replies, a fetch sends at most (maxRedirects + 1)(maxRetries + 1) requests of its own. */
  lemma OwnAtMost(e: Errand, fetched: map<string, Lookup>, log: seq<Request>, first: string, redirects: seq<string>,
                  current: string, result: Outcome)
    requires e.EndsAt(fetched, log, first, redirects, current, result) && e.start <= |log|
    ensures CountKind(log[e.start..], e.kind) <= Most(e.settings)
  {
    MostIs(e.settings, |redirects|);
    if from: nat :| e.Replied(log, first, redirects, current, from, result) {
      RepliedCounts(e, log, first, redirects, current, from, result);
    } else {
      TrailCounts(e, log, first, redirects, current);
    }
  }

  lemma MostIs(settings: Settings, hops: nat)
    requires hops <= settings.maxRedirects
    ensures Times(hops, settings.maxRetries + 1) <= Times(hops + 1, settings.maxRetries + 1) <= Most(settings)
  {
    TimesIs(hops + 1, settings.maxRedirects + 1, settings.maxRetries + 1);
  }

  lemma RepliedCounts(e: Errand, log: seq<Request>, first: string, redirects: seq<string>, current: string, from: nat,
                      result: Outcome)
    requires e.Replied(log, first, redirects, current, from, result)
    ensures CountKind(log[e.start..], e.kind) <= Times(|redirects| + 1, e.settings.maxRetries + 1)
  {
    TrailCounts(e, log[..from], first, redirects, current);
    TriedAtMost(e, log, current, from);
    CountThree(log, e.start, from, |log|, e.kind);
    assert log[..|log|] == log && log[|log|..] == [];
  }

  // ---------- one turn of the redirect loop ----------

  /** A robots.txt lookup in between. */
  lemma WithLookup(e: Errand, before: seq<Request>, log: seq<Request>, first: string, redirects: seq<string>,
                   current: string)
    requires e.Going(before, first, redirects, current, |redirects|) && before <= log
    requires |log| <= |before| + Most(e.settings) && ForRobots(e.w, e.settings, |before|).Proper(log)
    requires e.kind == Robots ==> log == before
    ensures e.Going(log, first, redirects, current, |redirects| + 1)
  {
    if e.kind != Robots {
      forall i | |before| <= i < |log| ensures log[i].kind == Robots {
        assert ForRobots(e.w, e.settings, |before|).ProperAt(log, i);
      }
      TrailLater(e, before, log, first, redirects, current);
      ProperWithRobots(e, before, log);
      CountThree(log, e.start, |before|, |log|, Robots);
      CountAll(log[|before|..], Robots);
      assert log[..|before|] == before && log[..|log|] == log && log[|log|..] == [];
    }
  }

  lemma LookupsAtMost(settings: Settings, hops: nat)
    requires hops <= settings.maxRedirects
    ensures Times(hops + 1, Most(settings)) <= MostForRobots(settings)
  {
    TimesIs(hops + 1, settings.maxRedirects + 1, Most(settings));
  }

  /** A fetch that ends has done what every fetch does. */
  lemma NowDone(e: Errand, fetched: map<string, Lookup>, log: seq<Request>, url: string, first: string,
                redirects: seq<string>, current: string, result: Outcome)
    requires e.w.normalize(url) == Some(first) && e.EndsAt(fetched, log, first, redirects, current, result)
    requires e.start <= |log| && e.Proper(log)
    requires e.kind != Robots ==> CountKind(log[e.start..], Robots) <= Times(|redirects| + 1, Most(e.settings))
    ensures e.Done(fetched, log, url, result)
  {
    OwnAtMost(e, fetched, log, first, redirects, current, result);
    LookupsAtMost(e.settings, |redirects|);
  }

  lemma PageIsServed(e: Errand, fetched: map<string, Lookup>, log: seq<Request>, url: string, page: FetchResult)
    requires e.Done(fetched, log, url, Ok(page))
    ensures e.Served(log, url, page)
  {
    var first := e.w.normalize(url).value;
    var redirects, current :| e.EndsAt(fetched, log, first, redirects, current, Ok(page));
    var from :| e.Replied(log, first, redirects, current, from, Ok(page));
    assert e.ProperAt(log, |log| - 1);
  }

  lemma AfterRefusal(e: Errand, fetched: map<string, Lookup>, log: seq<Request>, url: string, first: string,
                     redirects: seq<string>, current: string, error: FetchError)
    requires e.w.normalize(url) == Some(first) && e.Going(log, first, redirects, current, |redirects| + 1)
    requires e.Refused(fetched, log, current, error)
    ensures e.AfterHop(fetched, log, url, first, redirects, current, Err(error))
  {
    NowDone(e, fetched, log, url, first, redirects, current, Err(error));
  }

  lemma AfterSend(e: Errand, fetched: map<string, Lookup>, cleared: seq<Request>, log: seq<Request>, url: string,
                  first: string, redirects: seq<string>, current: string, r: Request)
    requires e.w.normalize(url) == Some(first) && e.Going(cleared, first, redirects, current, |redirects| + 1)
    requires cleared <= log && e.May(cleared, r) && forall i | |cleared| <= i < |log| :: log[i] == r
    requires r.kind == e.kind && e.Tried(log, current, |cleared|)
    ensures e.AfterHop(fetched, log, url, first, redirects, current, e.Hop(log, |cleared|))
  {
    var hop := e.Hop(log, |cleared|);
    assert log[..|cleared|] == cleared;
    ProperOn(e, cleared, log, r);
    if e.kind != Robots {
      SameRobots(cleared, log, e.start, r);
    }
    if Over(e.w, e.settings, current, redirects, hop) {
      assert e.Replied(log, first, redirects, current, |cleared|, Ending(e.w, hop, first, current, redirects));
      NowDone(e, fetched, log, url, first, redirects, current, Ending(e.w, hop, first, current, redirects));
    } else {
      TrailOn(e, log, |cleared|, first, redirects, current, Target(e.w, current, hop.value).value);
    }
  }

  lemma SameRobots(cleared: seq<Request>, log: seq<Request>, start: nat, r: Request)
    requires start <= |cleared| && cleared <= log && r.kind != Robots
             && forall i | |cleared| <= i < |log| :: log[i] == r
    ensures CountKind(log[start..], Robots) == CountKind(cleared[start..], Robots)
  {
    CountThree(log, start, |cleared|, |log|, Robots);
    CountNone(log[|cleared|..], Robots);
    assert log[..|cleared|] == cleared && log[..|log|] == log && log[|log|..] == [];
  }

  // ---------- robots.txt, fetched ----------

  lemma RobotsEnds(w: World, settings: Settings, fetched: map<string, Lookup>, log: seq<Request>, start: nat,
                   origin: string, outcome: Outcome, reading: nat)
    requires start <= |log| && ForRobots(w, settings, start).Ends(fetched, log, RobotsUrl(origin), outcome)
    requires start < |log| ==> LastSent(log) == reading
    ensures ForRobots(w, settings, start).Ends(map[], log, RobotsUrl(origin), outcome)
    ensures Recorded(w, settings, log, origin, Lookup(outcome, reading))
  {
    var e, first := ForRobots(w, settings, start), w.normalize(RobotsUrl(origin));
    if first.Some? {
      var redirects, current :| e.EndsAt(fetched, log, first.value, redirects, current, outcome);
      assert e.EndsAt(map[], log, first.value, redirects, current, outcome);
    }
    assert log[..|log|] == log;
    assert RecordedAt(w, settings, log, origin, Lookup(outcome, reading), start, |log|);
  }

  /** Only two errors go through: a robots.txt URL that is none, and a host that is not public. */
  lemma RobotsErrors(w: World, settings: Settings, fetched: map<string, Lookup>, log: seq<Request>, start: nat,
                     origin: string, error: FetchError)
    requires ForRobots(w, settings, start).Ends(fetched, log, RobotsUrl(origin), Err(error))
    requires PolicyFrom(w, RobotsUrl(origin), Err(error)).Err?
    ensures ForRobots(w, settings, start).NoPolicy(log, origin, error)
  {
    var e, first := ForRobots(w, settings, start), w.normalize(RobotsUrl(origin));
    if first.Some? {
      var redirects, current :| e.EndsAt(fetched, log, first.value, redirects, current, Err(error));
      if from: nat :| e.Replied(log, first.value, redirects, current, from, Err(error)) {
        ReplyGivesPolicy(e, log, origin, first.value, redirects, current, from, Err(error));
      }
    }
  }

  lemma ReplyGivesPolicy(e: Errand, log: seq<Request>, origin: string, first: string, redirects: seq<string>,
                         current: string, from: nat, outcome: Outcome)
    requires e.kind == Robots && e.Replied(log, first, redirects, current, from, outcome)
    ensures PolicyFrom(e.w, RobotsUrl(origin), outcome).Ok?
  {
  }

  /**
   * What fetching robots.txt leaves: requests for robots.txt only, and a policy to record or a cause why there is none.
   */
  lemma RobotsDone(w: World, settings: Settings, fetched: map<string, Lookup>, before: seq<Request>, log: seq<Request>,
                   origin: string, outcome: Outcome, reading: nat)
    requires before <= log && Honest(w, settings, log, fetched)
    requires log == before || LastSent(log) == reading
    requires ForRobots(w, settings, |before|).Done(fetched, log, RobotsUrl(origin), outcome)
    ensures |log| <= |before| + Most(settings)
    ensures Honest(w, settings, log, fetched[origin := Lookup(outcome, reading)])
    ensures ForRobots(w, settings, |before|).Ends(map[], log, RobotsUrl(origin), outcome)
    ensures Settled(w, log, |before|, RobotsUrl(origin), PolicyFrom(w, RobotsUrl(origin), outcome))
    ensures PolicyFrom(w, RobotsUrl(origin), outcome).Err?
            ==> ForRobots(w, settings, |before|).NoPolicy(log, origin, PolicyFrom(w, RobotsUrl(origin), outcome).error)
  {
    RobotsSettled(w, settings, fetched, log, |before|, origin, outcome);
    OnlyRobots(ForRobots(w, settings, |before|), log);
    RobotsEnds(w, settings, fetched, log, |before|, origin, outcome, reading);
    if PolicyFrom(w, RobotsUrl(origin), outcome).Err? {
      RobotsErrors(w, settings, fetched, log, |before|, origin, outcome.error);
    }
  }

  /** What went wrong since `later` went wrong since `e.start`. */
  lemma NoPolicySince(e: Errand, log: seq<Request>, later: nat, origin: string, error: FetchError)
    requires e.start <= later && ForRobots(e.w, e.settings, later).NoPolicy(log, origin, error)
    ensures e.NoPolicy(log, origin, error)
  {
    if error == UnsafeDestination {
      var host :| ForRobots(e.w, e.settings, later).Unsafe(log, host, error);
      assert e.Unsafe(log, host, error);
    }
  }

  lemma OnlyRobots(e: Errand, log: seq<Request>)
    requires e.kind == Robots && e.start <= |log| && e.Proper(log)
    ensures forall i | e.start <= i < |log| :: log[i].kind == Robots
    ensures CountKind(log[e.start..], Robots) == |log| - e.start
  {
    forall i | e.start <= i < |log| ensures log[i].kind == Robots {
      assert e.ProperAt(log, i);
    }
    CountAll(log[e.start..], Robots);
  }

  predicate Redirects(reply: Reply) {
    reply.Response? && IsRedirect(reply.status) && !reply.challenge
  }

  /** The policy that the last reply to a request for robots.txt, if it is no redirect, stands for. */
  function PolicyBy(w: World, url: string, reply: Reply): Policy {
    match reply
    case TransportFailure => Policy(url, Unreachable, None)
    case ProtocolFailure => Policy(url, Unreachable, None)
    case WrongType => Policy(url, Missing, None)
    case Response(status, _, challenge, _, body, _) =>
      if challenge || (400 <= status < 500 && !Retryable(status)) then Policy(url, Missing, None)
      else if status >= 400 then Policy(url, Unreachable, None)
      else Policy(url, Enforced, Some(w.parse(body)))
  }

  /** The last reply decides on the policy; without one, or after redirects that lead nowhere, there are no rules. */
  ghost predicate Settled(w: World, log: seq<Request>, start: nat, url: string, policy: Result<Policy, FetchError>) {
    if |log| <= start then policy.Ok? ==> policy.value == Policy(url, Unreachable, None)
    else if Redirects(w.reply(|log| - 1)) then policy.Ok? ==> policy.value.status != Enforced
    else policy == Ok(PolicyBy(w, url, w.reply(|log| - 1)))
  }

  lemma RobotsSettled(w: World, settings: Settings, fetched: map<string, Lookup>, log: seq<Request>, start: nat,
                      origin: string, outcome: Outcome)
    requires ForRobots(w, settings, start).Done(fetched, log, RobotsUrl(origin), outcome)
    ensures Settled(w, log, start, RobotsUrl(origin), PolicyFrom(w, RobotsUrl(origin), outcome))
  {
    var e, first := ForRobots(w, settings, start), w.normalize(RobotsUrl(origin));
    if first.Some? {
      var redirects, current :| e.EndsAt(fetched, log, first.value, redirects, current, outcome);
      if from: nat :| e.Replied(log, first.value, redirects, current, from, outcome) {
        ReplySettles(e, log, origin, first.value, redirects, current, from, outcome);
      } else {
        OnlyRobots(e, log);
        RedirectIsLast(e, log, first.value, redirects, current);
      }
    }
  }

  lemma ReplySettles(e: Errand, log: seq<Request>, origin: string, first: string, redirects: seq<string>,
                     current: string,
                     from: nat, outcome: Outcome)
    requires e.kind == Robots && e.Replied(log, first, redirects, current, from, outcome)
    ensures Settled(e.w, log, e.start, RobotsUrl(origin), PolicyFrom(e.w, RobotsUrl(origin), outcome))
  {
  }

  /**
   * Sections 2.3.1.3 and 2.3.1.4 of RFC 9309, for the last reply of a lookup and every URL of the origin: a client
   * error leaves the site unrestricted, a server or network error disallows all of it, and otherwise what robots.txt
   * says holds. 408 and 429 count as server errors here, a challenge or a wrong type of content as a client error.
   */
  lemma RobotsStatusMeans(w: World, settings: Settings, fetched: map<string, Lookup>, log: seq<Request>, start: nat,
                          origin: string, outcome: Outcome, url: string)
    requires ForRobots(w, settings, start).Done(fetched, log, RobotsUrl(origin), outcome) && start < |log|
    requires !Redirects(w.reply(|log| - 1))
    ensures var reply, policy := w.reply(|log| - 1), PolicyFrom(w, RobotsUrl(origin), outcome);
            && policy.Ok?
            && (reply.TransportFailure? || reply.ProtocolFailure? ==> !policy.value.CanFetch(url))
            && (reply.WrongType? || (reply.Response? && reply.challenge) ==> policy.value.CanFetch(url))
            && (reply.Response? && !reply.challenge && reply.status < 400
                ==> (policy.value.CanFetch(url) <==> w.parse(reply.body).allows(url)))
            && (reply.Response? && 400 <= reply.status < 500 && reply.status !in {408, 429}
                ==> policy.value.CanFetch(url))
            && (reply.Response? && !reply.challenge && (reply.status >= 500 || reply.status in {408, 429})
                ==> !policy.value.CanFetch(url))
  {
    RobotsSettled(w, settings, fetched, log, start, origin, outcome);
  }

  lemma RedirectIsLast(e: Errand, log: seq<Request>, first: string, redirects: seq<string>, current: string)
    requires e.Trail(log, first, redirects, current)
    requires forall i | e.start <= i < |log| :: log[i].kind == e.kind
    ensures e.start < |log| ==> Redirects(e.w.reply(|log| - 1))
  {
    if e.start < |log| {
      assert log[|log| - 1].kind == e.kind;
      if redirects != [] {
        var n := |redirects| - 1;
        var i: nat, j: nat :| e.Turn(log, redirects[n], current, i, j);
        assert log[..j + 1] == log;
      }
    }
  }

  // ---------- the fetcher ----------

  /** A cached policy is what fetching its origin's robots.txt gave last, and expires a lifetime after that. */
  ghost predicate IsKept(w: World, settings: Settings, origin: string, entry: (int, Policy),
                         fetched: map<string, Lookup>, readings: nat)
  {
    && origin in fetched && fetched[origin].reading < readings
    && PolicyFrom(w, RobotsUrl(origin), fetched[origin].outcome) == Ok(entry.1)
    && entry.0 == Expiry(w, settings, fetched[origin].reading, entry.1)
  }

  ghost predicate CacheIsKept(w: World, settings: Settings, cache: map<string, (int, Policy)>,
                              fetched: map<string, Lookup>, readings: nat)
  {
    forall o | o in cache :: IsKept(w, settings, o, cache[o], fetched, readings)
  }

  ghost predicate AllPassed(w: World, hosts: set<string>, n: nat) {
    forall h | h in hosts :: HostPassed(w, h, n)
  }

  lemma AllPassedLater(w: World, hosts: set<string>, n: nat)
    requires AllPassed(w, hosts, n)
    ensures AllPassed(w, hosts, n + 1)
  {
    forall h | h in hosts ensures HostPassed(w, h, n + 1) {
      PassedLater(w, h, n, n + 1);
    }
  }

  lemma CacheIsKeptLater(w: World, settings: Settings, cache: map<string, (int, Policy)>, fetched: map<string, Lookup>,
                         n: nat, m: nat)
    requires CacheIsKept(w, settings, cache, fetched, n) && n <= m
    ensures CacheIsKept(w, settings, cache, fetched, m)
  {
    forall o | o in cache ensures IsKept(w, settings, o, cache[o], fetched, m) {
      assert IsKept(w, settings, o, cache[o], fetched, n);
    }
  }

  /** A cached policy that has not expired at the last reading of the clock may be used. */
  lemma CachedIsGiven(w: World, settings: Settings, log: seq<Request>, cache: map<string, (int, Policy)>,
                      fetched: map<string, Lookup>, readings: nat, url: string)
    requires Honest(w, settings, log, fetched) && CacheIsKept(w, settings, cache, fetched, readings)
    requires w.origin(url) in cache && cache[w.origin(url)].0 >= TimeOf(w, readings)
    ensures PolicyGiven(w, settings, log, url, cache[w.origin(url)].1, readings + 1)
  {
    var origin := w.origin(url);
    assert IsKept(w, settings, origin, cache[origin], fetched, readings);
    assert Recorded(w, settings, log, origin, fetched[origin]);
  }

  /** So may one that was stored just now. */
  lemma StoredIsGiven(w: World, settings: Settings, log: seq<Request>, fetched: map<string, Lookup>, n: nat,
                      url: string, policy: Policy, outcome: Outcome)
    requires Honest(w, settings, log, fetched) && w.origin(url) in fetched && n > 0
    requires fetched[w.origin(url)] == Lookup(outcome, n - 1)
    requires PolicyFrom(w, RobotsUrl(w.origin(url)), outcome) == Ok(policy)
    ensures PolicyGiven(w, settings, log, url, policy, n)
  {
    assert Recorded(w, settings, log, w.origin(url), fetched[w.origin(url)]);
  }

  lemma CacheIsKeptWith(w: World, settings: Settings, cache: map<string, (int, Policy)>, fetched: map<string, Lookup>,
                        n: nat, origin: string, policy: Policy, outcome: Outcome)
    requires CacheIsKept(w, settings, cache, fetched, n) && PolicyFrom(w, RobotsUrl(origin), outcome) == Ok(policy)
    ensures CacheIsKept(w, settings, cache[origin := (Expiry(w, settings, n, policy), policy)],
                        fetched[origin := Lookup(outcome, n)], n + 1)
  {
    forall o | o in cache && o != origin
      ensures IsKept(w, settings, o, cache[o], fetched[origin := Lookup(outcome, n)], n + 1)
    {
      assert IsKept(w, settings, o, cache[o], fetched, n);
    }
  }

  class PoliteFetcher {
    const w: World
    const settings: Settings
    var safeHosts: set<string>
    var cache: map<string, (int, Policy)>     // per origin: when it expires, and the policy
    var requestCount: nat
    var readings: nat                         // of the clock
    ghost var log: seq<Request>
    ghost var fetched: map<string, Lookup>    // per origin: how fetching its robots.txt last ended

    constructor (w: World, settings: Settings)
      ensures this.w == w && this.settings == settings && Valid() && log == [] && safeHosts == {} && cache == map[]
    {
      this.w, this.settings := w, settings;
      safeHosts, cache, requestCount, readings := {}, map[], 0, 0;
      log, fetched := [], map[];
    }

    /**
     * Every cached policy is what its origin's robots.txt gave, with its time, and every trusted host passed the check
     * once.
     */
    ghost predicate Valid()
      reads this
    {
      && requestCount == |log| && Honest(w, settings, log, fetched)
      && LastSent(log) <= readings
      && CacheIsKept(w, settings, cache, fetched, readings) && AllPassed(w, safeHosts, requestCount)
    }

    /** The errand is one of this fetcher's, begun earlier. */
    ghost predicate Mine(e: Errand)
      reads this
    {
      e.w == w && e.settings == settings && e.start <= |log|
    }

    /** Is there a policy that has not expired at the next reading of the clock? */
    predicate Current(origin: string)
      reads this`cache, this`readings
    {
      origin in cache && cache[origin].0 >= TimeOf(w, readings)
    }

    method Cached(origin: string) returns (policy: Option<Policy>)
      requires Valid()
      modifies this`readings
      ensures Valid() && CacheIsKept(w, settings, cache, fetched, old(readings))
      ensures policy == (if old(Current(origin)) then Some(cache[origin].1) else None) && readings == old(readings) + 1
      ensures policy.Some? ==> origin in cache && cache[origin].0 >= TimeOf(w, old(readings))
    {
      var now := TimeOf(w, readings);
      CacheIsKeptLater(w, settings, cache, fetched, readings, readings + 1);
      readings := readings + 1;
      policy := if origin in cache && cache[origin].0 >= now then Some(cache[origin].1) else None;
    }

    method Put(origin: string, policy: Policy, ghost outcome: Outcome)
      requires Valid() && Honest(w, settings, log, fetched[origin := Lookup(outcome, readings)])
      requires PolicyFrom(w, RobotsUrl(origin), outcome) == Ok(policy)
      modifies this`cache, this`fetched, this`readings
      ensures Valid() && readings == old(readings) + 1
      ensures fetched == old(fetched)[origin := Lookup(outcome, old(readings))]
      ensures cache == old(cache)[origin := (Expiry(w, settings, old(readings), policy), policy)]
    {
      var expires := Expiry(w, settings, readings, policy);
      CacheIsKeptWith(w, settings, cache, fetched, readings, origin, policy, outcome);
      fetched := fetched[origin := Lookup(outcome, readings)];
      readings := readings + 1;
      cache := cache[origin := (expires, policy)];
    }

    method EnsureSafe(url: string) returns (result: Result<(), FetchError>)
      requires Valid()
      modifies this`safeHosts
      ensures Valid() && old(safeHosts) <= safeHosts <= old(safeHosts) + {w.host(url)}
      ensures result.Ok? <==> settings.allowPrivate || w.host(url) in safeHosts
      ensures result.Err? ==> w.host(url) !in old(safeHosts) && !settings.allowPrivate
      ensures result.Err? ==> result.error == (if w.check(w.host(url), |log|).NotPublic? then UnsafeDestination
                                               else NetworkFailure)
      ensures result.Err? ==> !w.check(w.host(url), |log|).Public?
    {
      if settings.allowPrivate {
        return Ok(());
      }
      var host := w.host(url);
      if host in safeHosts {
        return Ok(());
      }
      match w.check(host, requestCount) {
        case Public =>
          safeHosts := safeHosts + {host};
          result := Ok(());
        case NotPublic => result := Err(UnsafeDestination);
        case NoAddress => result := Err(NetworkFailure);
      }
    }

    /** One hop of the errand: the request and its retries, and what comes of the last reply. */
    method Send(url: string, kind: Kind, delay: int, ghost policy: Option<Policy>, ghost e: Errand)
      returns (result: Result<Reply, FetchError>)
      requires Valid() && Mine(e) && e.kind == kind
      modifies this`requestCount, this`log
      ensures Valid() && |old(log)| < |log| <= |old(log)| + settings.maxRetries + 1 && old(log) <= log
      ensures forall i | |old(log)| <= i < |log| :: log[i] == Request(url, kind, policy, delay, readings)
      ensures e.Tried(log, url, |old(log)|) && result == e.Hop(log, |old(log)|)
    {
      var attempt := 0;
      ghost var start := |log|;
      while true
        invariant Valid() && |log| == start + attempt && attempt <= settings.maxRetries && start == |old(log)|
        invariant old(log) <= log
        invariant forall i: nat | start <= i < |log| :: e.Again(start, i)
        invariant forall i | start <= i < |log| :: log[i] == Request(url, kind, policy, delay, readings)
        decreases settings.maxRetries - attempt
      {
        var reply := w.reply(requestCount);
        var wait := Wait(w, requestCount);
        AllPassedLater(w, safeHosts, requestCount);
        requestCount := requestCount + 1;
        HonestLater(w, settings, log, log + [Request(url, kind, policy, delay, readings)], fetched);
        log := log + [Request(url, kind, policy, delay, readings)];
        var verdict := Judge(kind, reply, attempt >= settings.maxRetries, wait, settings.maxRetryAfter);
        match verdict {
          case Raise(error) => return Err(error);
          case Return => return Ok(reply);
          case Retry => attempt := attempt + 1;
        }
      }
    }

    /** The policy of the URL's origin: cached, or from its robots.txt, which is fetched without consulting a policy. */
    method RobotsPolicy(url: string) returns (result: Result<Policy, FetchError>)
      requires Valid()
      modifies this
      ensures Valid() && |old(log)| <= |log| <= |old(log)| + Most(settings) && old(log) <= log
      ensures ForRobots(w, settings, |old(log)|).Proper(log)
      ensures old(safeHosts) <= safeHosts
      ensures result.Ok? ==> PolicyGiven(w, settings, log, url, result.value, readings)
      ensures result.Ok? ==> w.origin(url) in fetched
                             && PolicyFrom(w, RobotsUrl(w.origin(url)), fetched[w.origin(url)].outcome) == result
      ensures result.Ok? ==> LastSent(log) < readings
      ensures result.Err? ==> ForRobots(w, settings, |old(log)|).NoPolicy(log, w.origin(url), result.error)
      ensures old(Current(w.origin(url))) ==> result == Ok(old(cache)[w.origin(url)].1) && log == old(log)
      ensures result.Err? || old(Current(w.origin(url))) ==> cache == old(cache) && fetched == old(fetched)
      ensures result.Ok? && !old(Current(w.origin(url)))
              ==> Looked(w.origin(url), result.value, old(cache), old(fetched), old(readings) + 1, |old(log)|)
      decreases 1, 0
    {
      var origin := w.origin(url);
      var cached := Cached(origin);
      if cached.Some? {
        CachedIsGiven(w, settings, log, cache, fetched, readings - 1, url);
        result := Ok(cached.value);
      } else {
        ghost var outcome;
        result, outcome := LookUp(origin);
        if result.Ok? {
          Put(origin, result.value, outcome);
          StoredIsGiven(w, settings, log, fetched, readings, url, result.value, outcome);
        }
      }
    }

    /** Unless it redirects, the last reply decides for every URL of the origin. */
    method LookUp(origin: string) returns (result: Result<Policy, FetchError>, ghost outcome: Outcome)
      requires Valid()
      modifies this
      ensures Valid() && |old(log)| <= |log| <= |old(log)| + Most(settings) && old(log) <= log
      ensures ForRobots(w, settings, |old(log)|).Proper(log)
      ensures old(safeHosts) <= safeHosts
      ensures cache == old(cache) && fetched == old(fetched) && readings == old(readings)
      ensures result == PolicyFrom(w, RobotsUrl(origin), outcome)
              && Honest(w, settings, log, fetched[origin := Lookup(outcome, readings)])
      ensures ForRobots(w, settings, |old(log)|).Ends(map[], log, RobotsUrl(origin), outcome)
      ensures result.Err? ==> ForRobots(w, settings, |old(log)|).NoPolicy(log, origin, result.error)
      ensures Settled(w, log, |old(log)|, RobotsUrl(origin), result)
      decreases 0, 3
    {
      ghost var before := log;
      var ended := Fetch(RobotsUrl(origin), Robots, None);
      result, outcome := PolicyFrom(w, RobotsUrl(origin), ended), ended;
      RobotsDone(w, settings, fetched, before, log, origin, ended, readings);
    }

    /** The origin's robots.txt was fetched just now, and the policy it gave is cached from now on. */
    ghost predicate Looked(origin: string, policy: Policy, cacheBefore: map<string, (int, Policy)>,
                           fetchedBefore: map<string, Lookup>, readingsBefore: nat, start: nat)
      reads this
    {
      && origin in fetched
      && Settled(w, log, start, RobotsUrl(origin), Ok(policy))
      && fetched == fetchedBefore[origin := fetched[origin]]
      && cache == cacheBefore[origin := (Expiry(w, settings, readingsBefore, policy), policy)]
    }

    /**
     * A fetch. Every request on every hop is in scope, to a host that was found to be public, and allowed by what that
     * origin's robots.txt gave before and had not expired when looked up; those of its own kind number at most
     * (maxRedirects + 1)(maxRetries + 1). What was sent, turn by turn, and the replies to it determine the result.
     * Looking up robots.txt always ends.
     */
    method Fetch(url: string, kind: Kind, scope: Option<string -> bool>) returns (result: Outcome)
      requires Valid()
      modifies this
      ensures Valid() && old(log) <= log && old(safeHosts) <= safeHosts
      ensures Errand(w, settings, kind, scope, |old(log)|).Done(fetched, log, url, result)
      ensures result.Ok?
              ==> Errand(w, settings, kind, scope, |old(log)|).Served(log, url, result.value)
      ensures kind == Robots ==> cache == old(cache) && fetched == old(fetched) && readings == old(readings)
      ensures kind == Robots ==> log == old(log) || LastSent(log) == readings
      decreases if kind == Robots then 0 else 2, 2
    {
      var first := w.normalize(url);
      if first.None? {
        return Err(InvalidUrl);
      }
      var current, redirects: seq<string> := first.value, [];
      var e := Errand(w, settings, kind, scope, requestCount);
      assert log[e.start..] == [];
      while true
        invariant kind == Robots ==> cache == old(cache) && fetched == old(fetched) && readings == old(readings)
        invariant kind == Robots ==> log == old(log) || LastSent(log) == readings
        invariant Valid() && old(log) <= log && old(safeHosts) <= safeHosts
        invariant e.Going(log, first.value, redirects, current, |redirects|)
        decreases settings.maxRedirects - |redirects|
      {
        var hop := Hop(e, current, url, redirects);
        if Over(w, settings, current, redirects, hop) {
          result := Ending(w, hop, first.value, current, redirects);
          if result.Ok? {
            PageIsServed(e, fetched, log, url, result.value);
          }
          return;
        }
        redirects, current := redirects + [current], Target(w, current, hop.value).value;
      }
    }

    /** One turn of the redirect loop. */
    method Hop(e: Errand, current: string, ghost url: string, ghost redirects: seq<string>)
      returns (result: Result<Reply, FetchError>)
      requires Valid() && Mine(e) && w.normalize(url).Some?
      requires e.Going(log, w.normalize(url).value, redirects, current, |redirects|)
      modifies this
      ensures Valid() && old(log) <= log && old(safeHosts) <= safeHosts && (result.Ok? ==> result.value.Response?)
      ensures e.AfterHop(fetched, log, url, w.normalize(url).value, redirects, current, result)
      ensures e.kind == Robots ==> cache == old(cache) && fetched == old(fetched) && readings == old(readings)
      ensures e.kind == Robots ==> log == old(log) || LastSent(log) == readings
      decreases if e.kind == Robots then 0 else 2, 1
    {
      ghost var before := log;
      var clear, delay;
      ghost var policy;
      clear, delay, policy := Clear(e, current);
      WithLookup(e, before, log, w.normalize(url).value, redirects, current);
      if clear.Err? {
        AfterRefusal(e, fetched, log, url, w.normalize(url).value, redirects, current, clear.error);
        return Err(clear.error);
      }
      ghost var cleared := log;
      result := Send(current, e.kind, delay, policy, e);
      AfterSend(e, fetched, cleared, log, url, w.normalize(url).value, redirects, current,
                Request(current, e.kind, policy, delay, readings));
    }

    /**
     * May this URL be requested now, and how long after the previous request? Only robots.txt is fetched to find out.
     */
    method Clear(e: Errand, current: string)
      returns (result: Result<(), FetchError>, delay: int, ghost policy: Option<Policy>)
      requires Valid() && Mine(e)
      modifies this
      ensures Valid() && |old(log)| <= |log| <= |old(log)| + Most(settings) && old(log) <= log
              && old(safeHosts) <= safeHosts
      ensures e.kind == Robots
              ==> log == old(log) && cache == old(cache) && fetched == old(fetched) && readings == old(readings)
      ensures ForRobots(w, settings, |old(log)|).Proper(log)
      ensures result.Ok? ==> e.May(log, Request(current, e.kind, policy, delay, readings))
      ensures result.Err? ==> e.Refused(fetched, log, current, result.error)
      ensures result.Ok? && e.kind != Robots ==>
              && policy.Some?
              && if old(Current(w.origin(current))) then policy == Some(old(cache)[w.origin(current)].1)
                 else Settled(w, log, |old(log)|, RobotsUrl(w.origin(current)), Ok(policy.value))
      decreases if e.kind == Robots then 0 else 2, 0
    {
      delay, policy := settings.minDelay, None;
      if e.scope.Some? && !e.scope.value(current) {
        return Err(OutOfScope), delay, policy;
      }
      result := EnsureSafe(current);
      if result.Err? || e.kind == Robots {
        return;
      }
      var found := RobotsPolicy(current);
      if found.Err? {
        NoPolicySince(e, log, |old(log)|, w.origin(current), found.error);
        return Err(found.error), delay, policy;
      }
      if !found.value.CanFetch(current) {
        return Err(RobotsDisallowed), delay, policy;
      }
      if found.value.CrawlDelay().Some? && found.value.CrawlDelay().value > delay {
        delay := found.value.CrawlDelay().value;
      }
      policy := Some(found.value);
    }
  }
}
