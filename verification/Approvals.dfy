// Decisions on articles.
module Approvals {
  // app/services/approvals.py and approval_rules.py: decisions on one exact version and quality report of an article,
  // in an append-only log, while validation, edits and cancellation keep changing the article.

  import opened Wrappers

  datatype Status = Cancelled | NeedsReview | Ready | Underway(name: string)

  datatype Article = Article(status: Status, recommended: Option<nat>, report: Option<nat>)

  /** A quality report; reports are only ever added. */
  datatype Report = Report(version: nat, passed: bool)

  datatype Decision = Approved | Rejected

  datatype Method = Manual | Auto

  datatype Channel = Api | Cli | Policy

  datatype Stale = ArticleCancelled | VersionChanged(from: nat, to: Option<nat>)
      | ReportReplaced(from: nat, to: Option<nat>)

  datatype Reason = Outdated(stale: Stale) | Superseded(decision: Decision, successor: nat) | NewEdit(version: nat)

  /** One row of the log. Row `i` has id `i + 1`. */
  datatype Approval = Approval(version: nat, report: nat, decision: Decision, how: Method, channel: Channel,
                               approver: string, note: Option<string>, created: int,
                               invalidatedAt: Option<int>, reason: Option<Reason>)
  {
    predicate IsLive() {
      invalidatedAt.None?
    }

    function Invalidated(now: int, why: Reason): Approval {
      this.(invalidatedAt := Some(now), reason := Some(why))
    }
  }

  /** One article, the reports there are, and the decisions about it, oldest first. */
  datatype History = History(article: Article, reports: map<nat, Report>, rows: seq<Approval>) {
    function CurrentReport(): Option<Report> {
      if article.report.Some? && article.report.value in reports then Some(reports[article.report.value]) else None
    }

    /** `live_decision` */
    function Live(): Option<nat> {
      FirstLive(rows, 0)
    }

    function LiveRow(): Option<Approval> {
      var live := FirstLive(rows, 0);
      if live.Some? && live.value < |rows| then Some(rows[live.value]) else None
    }
  }

  function FirstLive(rows: seq<Approval>, i: nat): Option<nat>
    decreases |rows| - i
  {
    if i >= |rows| then None else if rows[i].IsLive() then Some(i) else FirstLive(rows, i + 1)
  }

  lemma {:induction false} FirstLiveIsFirst(rows: seq<Approval>, i: nat)
    requires i <= |rows|
    ensures var r := FirstLive(rows, i);
            && (r.Some? ==> i <= r.value < |rows| && rows[r.value].IsLive())
            && forall k | i <= k < (if r.Some? then r.value else |rows|) :: !rows[k].IsLive()
    decreases |rows| - i
  {
    if i < |rows| && !rows[i].IsLive() {
      FirstLiveIsFirst(rows, i + 1);
    }
  }

  // ---------- the rules ----------

  datatype Problem =
    | WasCancelled
    | NeedsAReview
    | NotReady(status: Status)
    | NoValidatedVersion
    | WrongReport(version: nat, recommended: nat)
    | GatesFailed

  function ReadinessProblems(article: Article, report: Option<Report>): seq<Problem> {
    if article.status.Cancelled? then [WasCancelled]
    else
      (if article.status.NeedsReview? then [NeedsAReview] else if !article.status.Ready? then [NotReady(article.status)]
       else [])
      + (if article.recommended.None? || report.None? then [NoValidatedVersion]
         else
           (if report.value.version != article.recommended.value
            then [WrongReport(report.value.version, article.recommended.value)] else [])
           + (if !report.value.passed then [GatesFailed] else []))
  }

  function StaleReason(article: Article, approval: Approval): Option<Stale> {
    if article.status.Cancelled? then Some(ArticleCancelled)
    else if article.recommended != Some(approval.version)
        then Some(VersionChanged(approval.version, article.recommended))
    else if article.report != Some(approval.report) then Some(ReportReplaced(approval.report, article.report))
    else None
  }

  datatype Refusal =
    | NoApproval
    | WasInvalidated(reason: Option<Reason>)
    | WasRejected(note: Option<string>)
    | NoLongerApplies(stale: Stale)
    | NotPublishable(problems: seq<Problem>)

  function AuthorizationProblem(article: Article, report: Option<Report>, approval: Option<Approval>): Option<Refusal> {
    if approval.None? then Some(NoApproval)
    else if !approval.value.IsLive() then Some(WasInvalidated(approval.value.reason))
    else if approval.value.decision != Approved then Some(WasRejected(approval.value.note))
    else
      match StaleReason(article, approval.value)
      case Some(stale) => Some(NoLongerApplies(stale))
      case None =>
        var problems := ReadinessProblems(article, report);
        if problems != [] then Some(NotPublishable(problems)) else None
  }

  /** Ready for a decision: the report is there, is for the recommended version, and passed. */
  predicate IsReady(h: History) {
    && h.article.status.Ready? && h.article.recommended.Some?
    && h.CurrentReport() == Some(Report(h.article.recommended.value, true))
  }

  lemma ReadyIsNoProblem(h: History)
    ensures ReadinessProblems(h.article, h.CurrentReport()) == [] <==> IsReady(h)
  {
  }

  // ---------- the operations ----------

  function WithoutStale(h: History, now: int): History {
    var live := h.Live();
    if live.None? || live.value >= |h.rows| then h
    else
      match StaleReason(h.article, h.rows[live.value])
      case None => h
      case Some(stale) => h.(rows := h.rows[live.value := h.rows[live.value].Invalidated(now, Outdated(stale))])
  }

  function WithoutLive(h: History, now: int, why: Reason): History {
    var live := h.Live();
    if live.None? || live.value >= |h.rows| then h
    else h.(rows := h.rows[live.value := h.rows[live.value].Invalidated(now, why)])
  }

  /**
   * Who decides, how and when: what a decision records besides its subject. White space around the texts is stripped.
   */
  datatype Request = Request(decision: Decision, how: Method, channel: Channel, approver: string, note: string,
                             now: int)

  function Clip(s: string, n: nat): string {
    if |s| > n then s[..n] else s
  }

  function Approver(r: Request): string {
    if r.approver != "" then Clip(r.approver, 200)
    else
      match r.channel
      case Api => "api"
      case Cli => "cli"
      case Policy => "auto-approval policy"
  }

  function Note(r: Request): Option<string> {
    if r.note != "" then Some(Clip(r.note, 2000)) else None
  }

  /** The row a decision adds. */
  function RowOf(article: Article, r: Request): Approval
    requires article.recommended.Some? && article.report.Some?
  {
    Approval(article.recommended.value, article.report.value, r.decision, r.how, r.channel, Approver(r), Note(r), r.now,
             None, None)
  }

  datatype Refused = NotDecidable(problems: seq<Problem>) | NothingToDecide | NeedsAReason

  /** The history after a decision, the row that records it, and whether that row is new. */
  datatype Outcome = Outcome(history: History, row: nat, created: bool)

  function RecordDecision(h: History, r: Request): Result<Outcome, Refused> {
    if h.article.recommended.None? || h.article.report.None? then Err(NothingToDecide)
    else
      var h1 := WithoutStale(h, r.now);
      var live, id := h1.Live(), |h1.rows| + 1;
      var row := RowOf(h.article, r);
      if live.None? || live.value >= |h1.rows| then Ok(Outcome(h1.(rows := h1.rows + [row]), id - 1, true))
      else
        var old' := h1.rows[live.value];
        if old'.decision == r.decision && (old'.how == r.how || r.how == Auto) then Ok(Outcome(h1, live.value, false))
        else
          Ok(Outcome(h1.(rows := h1.rows[live.value := old'.Invalidated(r.now, Superseded(r.decision, id))] + [row]),
                     id - 1, true))
  }

  /** `approve` and `reject`: only a ready article can be decided on, and a rejection needs a reason. */
  function Decide(h: History, r: Request): Result<Outcome, Refused> {
    var problems := ReadinessProblems(h.article, h.CurrentReport());
    if r.decision == Rejected && r.note == "" then Err(NeedsAReason)
    else if problems != [] then Err(NotDecidable(problems)) else RecordDecision(h, r)
  }

  const POLICY_NOTE := "PUBLISH_AUTO_APPROVE: ready, every quality gate passed"

  function AutoRequest(now: int): Request {
    Request(Approved, Auto, Policy, "", POLICY_NOTE, now)
  }

  /** The auto-approval policy: the history after it, and the approval it found or made. */
  function AutoApprove(h: History, enabled: bool, now: int): (History, Option<nat>) {
    if !enabled || ReadinessProblems(h.article, h.CurrentReport()) != [] then (h, None)
    else
      var h1 := WithoutStale(h, now);
      var live := h1.Live();
      if live.Some? && live.value < |h1.rows| && h1.rows[live.value].decision == Rejected then (h1, None)
      else if live.Some? then (h1, live)
      else
        match RecordDecision(h1, AutoRequest(now))
        case Ok(outcome) => (outcome.history, Some(outcome.row))
        case Err(_) => (h, None)
  }

  // ---------- what happens to an article ----------

  datatype Step =
    | Approve(channel: Channel, approver: string, note: string, now: int)
    | Reject(channel: Channel, approver: string, note: string, now: int)
    | ApplyPolicy(enabled: bool, now: int)
    | AddReport(id: nat, content: Report)                                 // a validation is recorded
    | Finalize(version: nat, report: nat, passed: bool, now: int)         // it recommends a version
    | Edit(version: nat, now: int)                                        // a new edited version is stored
    | Cancel(now: int)
    | Move(name: string)                                                  // any other change of status

  function Decided(h: History, r: Result<Outcome, Refused>): History {
    match r
    case Ok(outcome) => outcome.history
    case Err(_) => h
  }

  function Next(h: History, step: Step): History {
    match step
    case Approve(channel, approver, note, now) =>
      Decided(h, Decide(h, Request(Approved, Manual, channel, approver, note, now)))
    case Reject(channel, approver, note, now) =>
      Decided(h, Decide(h, Request(Rejected, Manual, channel, approver, note, now)))
    case ApplyPolicy(enabled, now) => AutoApprove(h, enabled, now).0
    case AddReport(id, report) => if id in h.reports then h else h.(reports := h.reports[id := report])
    case Finalize(version, report, passed, now) =>
      if h.article.status.Cancelled? then h
      else WithoutStale(h.(article := Article(if passed then Ready else NeedsReview, Some(version), Some(report))), now)
    case Edit(version, now) =>
      if h.article.status.Cancelled? then h
      else WithoutLive(h.(article := h.article.(recommended := None, report := None)), now, NewEdit(version))
    case Cancel(now) =>
      if h.article.status.Cancelled? then h
      else WithoutLive(h.(article := h.article.(status := Cancelled)), now, Outdated(ArticleCancelled))
    case Move(name) =>
      if h.article.status.Cancelled? then h else h.(article := h.article.(status := Underway(name)))
  }

  function After(h: History, steps: seq<Step>): History
    decreases |steps|
  {
    if steps == [] then h else After(Next(h, steps[0]), steps[1..])
  }

  /** A new article: nothing validated, nothing decided. */
  predicate IsNew(h: History) {
    h.rows == [] && h.article.recommended.None? && h.article.report.None?
  }

  // ---------- what every run keeps ----------

  ghost predicate OneLive(rows: seq<Approval>) {
    forall i, j | 0 <= i < |rows| && 0 <= j < |rows| && rows[i].IsLive() && rows[j].IsLive() :: i == j
  }

  /** An invalidated row says why; if a decision replaced it, that one came later, at that very time. */
  ghost predicate Reasoned(rows: seq<Approval>, i: nat)
    requires i < |rows|
  {
    && (rows[i].IsLive() <==> rows[i].reason.None?)
    && (rows[i].reason.Some? && rows[i].reason.value.Superseded? ==>
          var id := rows[i].reason.value.successor;
          i + 1 < id <= |rows| && rows[id - 1].decision == rows[i].reason.value.decision
          && Some(rows[id - 1].created) == rows[i].invalidatedAt)
  }

  /** Every decision, rejections included, is about a report that passed, of the very version it names. */
  ghost predicate Backed(reports: map<nat, Report>, row: Approval) {
    row.report in reports && reports[row.report] == Report(row.version, true)
  }

  ghost predicate Sound(h: History) {
    && OneLive(h.rows)
    && (forall i | 0 <= i < |h.rows| :: Reasoned(h.rows, i))
    && (forall i | 0 <= i < |h.rows| :: Backed(h.reports, h.rows[i]))
    && (forall i | 0 <= i < |h.rows| :: Fits(h.article, h.rows[i]))
  }

  /** A live decision is about what the article recommends now. */
  ghost predicate Fits(article: Article, row: Approval) {
    row.IsLive() ==> StaleReason(article, row) == None
  }

  /** Nothing recorded is altered or removed: a live row may be invalidated, and an invalidated one stays as it is. */
  ghost predicate KeepsRow(row: Approval, next: Approval) {
    next == row || (row.IsLive() && !next.IsLive()
                    && next == row.(invalidatedAt := next.invalidatedAt, reason := next.reason))
  }

  ghost predicate Appends(rows: seq<Approval>, next: seq<Approval>) {
    |rows| <= |next| && forall i | 0 <= i < |rows| :: KeepsRow(rows[i], next[i])
  }

  /**
   * What a transaction leaves, given the article as it then is: everything but `Fits` holds before `Fits` is restored.
   */
  ghost predicate Recorded(h: History) {
    && OneLive(h.rows)
    && (forall i | 0 <= i < |h.rows| :: Reasoned(h.rows, i))
    && (forall i | 0 <= i < |h.rows| :: Backed(h.reports, h.rows[i]))
  }

  lemma WithoutStaleKeeps(h: History, now: int)
    requires Recorded(h)
    ensures var next := WithoutStale(h, now);
            && Sound(next) && Appends(h.rows, next.rows) && |next.rows| == |h.rows|
            && next.article == h.article && next.reports == h.reports
            && (Sound(h) ==> next == h)
  {
    FirstLiveIsFirst(h.rows, 0);
    var next := WithoutStale(h, now);
    forall i | 0 <= i < |next.rows| ensures Reasoned(next.rows, i) && Backed(next.reports, next.rows[i])
        && Fits(next.article, next.rows[i]) {
      assert Reasoned(h.rows, i) && Backed(h.reports, h.rows[i]);
    }
    if Sound(h) && h.Live().Some? {
      assert Fits(h.article, h.rows[h.Live().value]);
    }
  }

  lemma WithoutLiveKeeps(h: History, now: int, why: Reason)
    requires Recorded(h) && !why.Superseded?
    ensures var next := WithoutLive(h, now, why);
            && Sound(next) && Appends(h.rows, next.rows) && next.Live() == None && next.article == h.article
                && next.reports == h.reports
  {
    FirstLiveIsFirst(h.rows, 0);
    var next := WithoutLive(h, now, why);
    FirstLiveIsFirst(next.rows, 0);
    forall i | 0 <= i < |next.rows| ensures Reasoned(next.rows, i) && Backed(next.reports, next.rows[i])
        && !next.rows[i].IsLive() {
      assert Reasoned(h.rows, i) && Backed(h.reports, h.rows[i]);
    }
  }

  /** What recording a decision does, on a sound history of a ready article. */
  lemma RecordDecisionKeeps(h: History, r: Request)
    requires Sound(h) && IsReady(h)
    ensures RecordDecision(h, r).Ok?
    ensures var o := RecordDecision(h, r).value;
            && Sound(o.history) && Appends(h.rows, o.history.rows)
            && o.history.article == h.article && o.history.reports == h.reports
            && o.history.Live() == Some(o.row) && o.row < |o.history.rows|
                && o.history.rows[o.row].decision == r.decision
            && o.history.rows[o.row].version == h.article.recommended.value
            && o.history.rows[o.row].report == h.article.report.value
            && |o.history.rows| == |h.rows| + (if o.created then 1 else 0)
            && (!o.created ==> o.history == h)
  {
    WithoutStaleKeeps(h, r.now);
    FirstLiveIsFirst(h.rows, 0);
    var o := RecordDecision(h, r).value;
    FirstLiveIsFirst(o.history.rows, 0);
    if o.created {
      CreatedKeeps(h, o.history, r);
    } else {
      assert Fits(h.article, h.rows[o.row]);
    }
  }

  lemma CreatedKeeps(h: History, next: History, r: Request)
    requires Sound(h) && IsReady(h) && RecordDecision(h, r) == Ok(Outcome(next, |h.rows|, true))
             && WithoutStale(h, r.now) == h
    ensures Sound(next) && Appends(h.rows, next.rows) && |next.rows| == |h.rows| + 1
    ensures next.article == h.article && next.reports == h.reports && next.Live() == Some(|h.rows|)
  {
    FirstLiveIsFirst(h.rows, 0);
    FirstLiveIsFirst(next.rows, 0);
    forall i | 0 <= i < |next.rows|
      ensures Reasoned(next.rows, i) && Backed(next.reports, next.rows[i]) && Fits(next.article, next.rows[i])
      ensures next.rows[i].IsLive() ==> i == |h.rows|
    {
      if i < |h.rows| {
        assert Reasoned(h.rows, i) && Backed(h.reports, h.rows[i]);
      }
    }
    assert next.rows[|h.rows|] == RowOf(h.article, r);
  }

  lemma AutoApproveKeeps(h: History, enabled: bool, now: int)
    requires Sound(h)
    ensures var (next, found) := AutoApprove(h, enabled, now);
            && Sound(next) && Appends(h.rows, next.rows) && next.article == h.article && next.reports == h.reports
            && (next == h || |next.rows| == |h.rows| + 1)
            && (found.Some?
                ==> found == next.Live() && found.value < |next.rows| && next.rows[found.value].decision == Approved)
  {
    WithoutStaleKeeps(h, now);
    FirstLiveIsFirst(h.rows, 0);
    ReadyIsNoProblem(h);
    if enabled && IsReady(h) {
      RecordDecisionKeeps(h, AutoRequest(now));
    }
  }

  lemma AppendsRefl(rows: seq<Approval>)
    ensures Appends(rows, rows)
  {
  }

  lemma DecideKeeps(h: History, r: Request)
    requires Sound(h)
    ensures var next := Decided(h, Decide(h, r)); Sound(next) && Appends(h.rows, next.rows)
  {
    ReadyIsNoProblem(h);
    if IsReady(h) {
      RecordDecisionKeeps(h, r);
    }
  }

  /** Whatever happens to the article, the log stays sound and only grows. */
  lemma StepKeeps(h: History, step: Step)
    requires Sound(h)
    ensures Sound(Next(h, step)) && Appends(h.rows, Next(h, step).rows)
  {
    match step
    case Approve(channel, approver, note, now) =>
      DecideKeeps(h, Request(Approved, Manual, channel, approver, note, now));
    case Reject(channel, approver, note, now) =>
      DecideKeeps(h, Request(Rejected, Manual, channel, approver, note, now));
    case ApplyPolicy(enabled, now) => AutoApproveKeeps(h, enabled, now);
    case AddReport(id, report) =>
    case Finalize(version, report, passed, now) =>
      if !h.article.status.Cancelled? {
        WithoutStaleKeeps(h.(article := Article(if passed then Ready else NeedsReview, Some(version), Some(report))),
                          now);
      }
    case Edit(version, now) =>
      if !h.article.status.Cancelled? {
        WithoutLiveKeeps(h.(article := h.article.(recommended := None, report := None)), now, NewEdit(version));
      }
    case Cancel(now) =>
      if !h.article.status.Cancelled? {
        WithoutLiveKeeps(h.(article := h.article.(status := Cancelled)), now, Outdated(ArticleCancelled));
      }
    case Move(name) => MoveKeeps(h, name);
  }

  lemma MoveKeeps(h: History, name: string)
    requires Sound(h)
    ensures Sound(Next(h, Move(name))) && Next(h, Move(name)).rows == h.rows
  {
    var next := Next(h, Move(name));
    forall i | 0 <= i < |next.rows| ensures Reasoned(next.rows, i) && Backed(next.reports, next.rows[i])
        && Fits(next.article, next.rows[i]) {
      assert Reasoned(h.rows, i) && Backed(h.reports, h.rows[i]) && Fits(h.article, h.rows[i]);
    }
  }

  lemma {:induction false} RunKeeps(h: History, steps: seq<Step>)
    requires Sound(h)
    ensures Sound(After(h, steps)) && Appends(h.rows, After(h, steps).rows)
    decreases |steps|
  {
    if steps != [] {
      StepKeeps(h, steps[0]);
      RunKeeps(Next(h, steps[0]), steps[1..]);
    }
  }

  /**
   * Over every run of a new article: one live decision at most, every invalidation explained, every decision backed.
   */
  lemma EveryRunIsSound(h: History, steps: seq<Step>)
    requires IsNew(h)
    ensures Sound(After(h, steps))
  {
    RunKeeps(h, steps);
  }

  /** An invalidated decision stays so, word for word, and never authorizes again, whatever is recommended later. */
  lemma InvalidatedForGood(h: History, steps: seq<Step>, i: nat)
    requires Sound(h) && i < |h.rows| && !h.rows[i].IsLive()
    ensures var later := After(h, steps);
            && i < |later.rows| && later.rows[i] == h.rows[i]
            && later.Live() != Some(i)
            && AuthorizationProblem(later.article, later.CurrentReport(), Some(later.rows[i])).Some?
  {
    RunKeeps(h, steps);
    var later := After(h, steps);
    assert KeepsRow(h.rows[i], later.rows[i]);
    FirstLiveIsFirst(later.rows, 0);
  }

  // ---------- view ----------

  datatype ApprovalState = NotReadyYet | IsApproved | IsRejected | IsInvalidated | IsPending

  datatype View = View(state: ApprovalState, canPublish: bool, problems: seq<Problem>, refusal: Option<Refusal>,
                       decision: Option<nat>)

  function ViewOf(h: History): View {
    var live := h.LiveRow();
    var problems := ReadinessProblems(h.article, h.CurrentReport());
    var stale := if live.Some? then StaleReason(h.article, live.value) else None;
    var last := if h.rows == [] then None else Some(h.rows[|h.rows| - 1]);
    var state :=
      if problems != [] then NotReadyYet
      else if live.Some? && stale.None? then if live.value.decision == Approved then IsApproved else IsRejected
      else if last.Some? && (stale.Some? || !last.value.IsLive()) then IsInvalidated
      else IsPending;
    var refusal := AuthorizationProblem(h.article, h.CurrentReport(), live);
    View(state, refusal.None?, problems, refusal, if live.Some? && stale.None? then h.Live() else None)
  }

  /** It can be published exactly when it is shown as approved, and then everything fits. */
  lemma CanPublishIsApproved(h: History)
    ensures ViewOf(h).canPublish <==> ViewOf(h).state == IsApproved
    ensures ViewOf(h).canPublish ==> IsReady(h) && h.LiveRow().Some? && h.LiveRow().value.decision == Approved
                                     && Some(h.LiveRow().value.version) == h.article.recommended
                                     && Some(h.LiveRow().value.report) == h.article.report
  {
    FirstLiveIsFirst(h.rows, 0);
    ReadyIsNoProblem(h);
  }

  ghost predicate HasLive(h: History, decision: Decision) {
    exists i :: 0 <= i < |h.rows| && h.rows[i].IsLive() && h.rows[i].decision == decision
  }

  /** What each state means, on a sound history. */
  lemma StatesMean(h: History)
    requires Sound(h)
    ensures var v := ViewOf(h);
            && (v.state == NotReadyYet <==> !IsReady(h))
            && (v.state == IsApproved <==> IsReady(h) && HasLive(h, Approved))
            && (v.state == IsRejected <==> IsReady(h) && HasLive(h, Rejected))
            && (v.state == IsInvalidated
                <==> IsReady(h) && h.rows != [] && forall i | 0 <= i < |h.rows| :: !h.rows[i].IsLive())
            && (v.state == IsPending <==> IsReady(h) && h.rows == [])
            && v.decision == h.Live()
  {
    FirstLiveIsFirst(h.rows, 0);
    ReadyIsNoProblem(h);
    var live := h.Live();
    if live.Some? {
      assert Fits(h.article, h.rows[live.value]);
      forall i | 0 <= i < |h.rows| && h.rows[i].IsLive() ensures i == live.value {
      }
    }
  }

  // ---------- the policy and rejections ----------

  /** Auto-approval records an approval exactly when it is on, the article is ready and no decision is live. */
  lemma PolicyApprovesWhen(h: History, enabled: bool, now: int)
    requires Sound(h)
    ensures AutoApprove(h, enabled, now).0 != h <==> enabled && IsReady(h) && h.Live().None?
    ensures AutoApprove(h, enabled, now).0 != h ==>
              h.article.recommended.Some? && h.article.report.Some? &&
              var next := AutoApprove(h, enabled, now).0;
              next.rows == h.rows + [RowOf(h.article, AutoRequest(now))]
  {
    WithoutStaleKeeps(h, now);
    FirstLiveIsFirst(h.rows, 0);
    ReadyIsNoProblem(h);
  }

  /** Steps that leave what is recommended alone and decide nothing by hand. */
  predicate Undecided(step: Step, version: nat, report: nat) {
    match step
    case ApplyPolicy(_, _) => true
    case AddReport(_, _) => true
    case Move(_) => true
    case Finalize(v, r, _, _) => v == version && r == report
    case _ => false
  }

  /** While a rejection stands and the same version and report stay recommended, the policy approves nothing. */
  lemma {:induction false} RejectionStands(h: History, steps: seq<Step>, i: nat)
    requires Sound(h) && i < |h.rows| && h.Live() == Some(i) && h.rows[i].decision == Rejected
    requires forall s | s in steps :: Undecided(s, h.rows[i].version, h.rows[i].report)
    ensures After(h, steps).rows == h.rows && After(h, steps).Live() == Some(i) && !ViewOf(After(h, steps)).canPublish
    decreases |steps|
  {
    FirstLiveIsFirst(h.rows, 0);
    if steps == [] {
      CanPublishIsApproved(h);
    } else {
      var next := Next(h, steps[0]);
      assert Undecided(steps[0], h.rows[i].version, h.rows[i].report);
      assert Fits(h.article, h.rows[i]);
      StepKeeps(h, steps[0]);
      if steps[0].ApplyPolicy? {
        PolicyApprovesWhen(h, steps[0].enabled, steps[0].now);
      }
      assert next.rows == h.rows;
      RejectionStands(next, steps[1..], i);
    }
  }

  /**
   * But a rejection that another recommendation invalidated no longer stands, even if its version and report are
   * recommended again: the policy then approves what a person had rejected.
   */
  lemma PolicyApprovesWhatWasRejected(h: History)
    requires h == History(Article(Ready, Some(1), Some(1)), map[1 := Report(1, true), 2 := Report(2, true)], [])
    ensures var rejected := Next(h, Reject(Api, "ann", "wrong claims", 0));
            var back := Next(Next(rejected, Finalize(2, 2, true, 1)), Finalize(1, 1, true, 2));
            && rejected.Live() == Some(0) && rejected.rows[0].decision == Rejected
            && rejected.rows[0].version == 1 && rejected.rows[0].report == 1
            && AutoApprove(back, true, 3).1 == Some(1)
            && |AutoApprove(back, true, 3).0.rows| == 2
            && var row := AutoApprove(back, true, 3).0.rows[1];
               row.IsLive() && row.decision == Approved && row.version == 1 && row.report == 1
  {
    var rejected := Next(h, Reject(Api, "ann", "wrong claims", 0));
    assert rejected.rows == [Approval(1, 1, Rejected, Manual, Api, "ann", Some("wrong claims"), 0, None, None)];
    var away := Next(rejected, Finalize(2, 2, true, 1));
    assert away.rows == [rejected.rows[0].Invalidated(1, Outdated(VersionChanged(1, Some(2))))];
    var back := Next(away, Finalize(1, 1, true, 2));
    assert FirstLive(away.rows, 0) == FirstLive(away.rows, 1) == None;
    assert back.rows == away.rows;
    assert AutoApprove(back, true, 3).0.rows == back.rows + [RowOf(back.article, AutoRequest(3))];
  }

  /** A decision was recorded that approves what an earlier row rejected: the same version and report. */
  ghost predicate Overrides(h: History, next: History) {
    exists i, j | 0 <= i < |h.rows| <= j < |next.rows| ::
      h.rows[i].decision == Rejected && next.rows[j].decision == Approved
      && h.rows[i].version == next.rows[j].version && h.rows[i].report == next.rows[j].report
  }

  /** The i-th row rejected what is recommended now. */
  predicate Rejects(h: History, i: nat)
    requires i < |h.rows|
  {
    && h.rows[i].decision == Rejected
    && h.article.recommended == Some(h.rows[i].version) && h.article.report == Some(h.rows[i].report)
  }

  /** It is exactly then that the policy overrides a rejection. */
  lemma PolicyOverridesWhen(h: History, enabled: bool, now: int)
    requires Sound(h)
    ensures Overrides(h, AutoApprove(h, enabled, now).0)
            <==> enabled && IsReady(h) && h.Live().None? && exists i | 0 <= i < |h.rows| :: Rejects(h, i)
  {
    PolicyApprovesWhen(h, enabled, now);
    var next := AutoApprove(h, enabled, now).0;
    if i :| next != h && 0 <= i < |h.rows| && Rejects(h, i) {
      assert next.rows[|h.rows|] == RowOf(h.article, AutoRequest(now)) && next.rows[i] == h.rows[i];
      assert h.rows[i].decision == Rejected && next.rows[|h.rows|].decision == Approved;
    }
    if i, j :| 0 <= i < |h.rows| <= j < |next.rows| && h.rows[i].decision == Rejected
               && next.rows[j].decision == Approved
               && h.rows[i].version == next.rows[j].version && h.rows[i].report == next.rows[j].report {
      assert next != h;
      assert Rejects(h, i);
    }
  }

  // ---------- the log, changed in place ----------

  class ArticleApprovals {
    var article: Article
    var reports: map<nat, Report>
    var rows: seq<Approval>

    function Value(): History
      reads this
    {
      History(article, reports, rows)
    }

    constructor (article: Article)
      requires article.recommended.None? && article.report.None?
      ensures Value() == History(article, map[], []) && Sound(Value())
    {
      this.article, reports, rows := article, map[], [];
    }

    /** `live_decision` */
    method LiveDecision() returns (live: Option<nat>)
      ensures live == Value().Live()
    {
      for i := 0 to |rows|
        invariant Value().Live() == FirstLive(rows, i)
      {
        if rows[i].IsLive() {
          return Some(i);
        }
      }
      live := None;
    }

    method InvalidateStale(now: int) returns (count: nat)
      modifies this`rows
      ensures Value() == WithoutStale(old(Value()), now)
      ensures count == 1 <==> rows != old(rows)
      ensures count <= 1
    {
      FirstLiveIsFirst(rows, 0);
      var live := LiveDecision();
      if live.None? {
        return 0;
      }
      var reason := StaleReason(article, rows[live.value]);
      if reason.None? {
        return 0;
      }
      rows := rows[live.value := rows[live.value].Invalidated(now, Outdated(reason.value))];
      count := 1;
    }

    method InvalidateAll(now: int, why: Reason) returns (count: nat)
      modifies this`rows
      ensures Value() == WithoutLive(old(Value()), now, why)
      ensures count == 1 <==> rows != old(rows)
      ensures count <= 1
    {
      FirstLiveIsFirst(rows, 0);
      var live := LiveDecision();
      if live.None? {
        return 0;
      }
      rows := rows[live.value := rows[live.value].Invalidated(now, why)];
      count := 1;
    }

    /**
     * `decide_in`: the live decision it replaces is invalidated first, and told by which decision once that has an id.
     */
    method DecideIn(r: Request) returns (outcome: Result<(nat, bool), Refused>)
      modifies this`rows
      ensures match RecordDecision(old(Value()), r)
              case Ok(o) => Value() == o.history && outcome == Ok((o.row, o.created))
              case Err(e) => Value() == old(Value()) && outcome == Err(e)
    {
      if article.recommended.None? || article.report.None? {
        return Err(NothingToDecide);
      }
      var _ := InvalidateStale(r.now);
      FirstLiveIsFirst(rows, 0);
      var live := LiveDecision();
      if live.Some? {
        if rows[live.value].decision == r.decision && (rows[live.value].how == r.how || r.how == Auto) {
          return Ok((live.value, false));
        }
        rows := rows[live.value := rows[live.value].(invalidatedAt := Some(r.now))];
      }
      rows := rows + [RowOf(article, r)];
      if live.Some? {
        rows := rows[live.value := rows[live.value].(reason := Some(Superseded(r.decision, |rows|)))];
      }
      outcome := Ok((|rows| - 1, true));
    }

    method DecideNow(r: Request) returns (outcome: Result<(nat, bool), Refused>)
      modifies this`rows
      ensures Value() == Decided(old(Value()), Decide(old(Value()), r))
      ensures outcome.Ok? <==> Decide(old(Value()), r).Ok?
      ensures outcome.Ok? ==> outcome.value == (Decide(old(Value()), r).value.row,
                                                Decide(old(Value()), r).value.created)
    {
      if r.decision == Rejected && r.note == "" {
        return Err(NeedsAReason);
      }
      var problems := ReadinessProblems(article, Value().CurrentReport());
      if problems != [] {
        return Err(NotDecidable(problems));
      }
      outcome := DecideIn(r);
    }

    /** `auto_approve_in` */
    method AutoApproveIn(enabled: bool, now: int) returns (approval: Option<nat>)
      requires Sound(Value())
      modifies this`rows
      ensures (Value(), approval) == AutoApprove(old(Value()), enabled, now)
    {
      if !enabled || ReadinessProblems(article, Value().CurrentReport()) != [] {
        return None;
      }
      ReadyIsNoProblem(Value());
      WithoutStaleKeeps(Value(), now);
      var _ := InvalidateStale(now);
      FirstLiveIsFirst(rows, 0);
      var live := LiveDecision();
      if live.Some? {
        return if rows[live.value].decision == Rejected then None else live;
      }
      var outcome := DecideIn(AutoRequest(now));
      approval := Some(outcome.value.0);
    }

    /**
     * How a request to publish is authorized: by the live approval, or else by the policy. It is exactly when the
     * article is ready and either its live decision approves it or there is none and the policy is on.
     */
    method Authorize(enabled: bool, now: int) returns (approval: Result<nat, Refusal>)
      requires Sound(Value())
      modifies this`rows
      ensures Sound(Value()) && Appends(old(rows), rows)
      ensures approval.Ok? <==> old(IsReady(Value()))
                                && (if old(Value().LiveRow()).Some?
                                    then old(Value().LiveRow()).value.decision == Approved
                                    else enabled)
      ensures approval.Ok? ==> Value().Live() == Some(approval.value) && ViewOf(Value()).canPublish
      ensures rows != old(rows) <==> approval.Ok? && old(Value().LiveRow()).None?
    {
      ghost var before := Value();
      ReadyIsNoProblem(before);
      FirstLiveIsFirst(rows, 0);
      AppendsRefl(rows);
      var problems := ReadinessProblems(article, Value().CurrentReport());
      if problems != [] {
        return Err(NotPublishable(problems));
      }
      var live := LiveDecision();
      var problem := AuthorizationProblem(article, Value().CurrentReport(), Value().LiveRow());
      if problem.None? {
        return Ok(live.value);
      }
      if live.Some? {
        assert Fits(article, rows[live.value]);
      }
      AutoApproveKeeps(before, enabled, now);
      PolicyApprovesWhen(before, enabled, now);
      var found := AutoApproveIn(enabled, now);
      FirstLiveIsFirst(rows, 0);
      problem := AuthorizationProblem(article, Value().CurrentReport(),
                                      if found.Some? then Some(rows[found.value]) else Value().LiveRow());
      if problem.Some? {
        return Err(problem.value);
      }
      if found.None? {
        return Err(NoApproval);
      }
      approval := Ok(found.value);
    }
  }
}
