/**
  The home page's logic: normalising and submitting the URL form, loading the
  recent audits, and the display rules of the recent-audits list (status
  colours, badges, score label). The markup itself is not modelled.
*/
module HomePage {
  import opened Wrappers
  import opened Text
  import opened Records
  import AuditRoute
  import RecentRoute

  const InvalidUrlMessage: string := "Please enter a valid URL"
  const FailurePrefix: string := "Failed to start audit: "

  /** The URL starts with `http://` or `https://`. */
  predicate HasScheme(u: string) {
    StartsWith(u, "http://") || StartsWith(u, "https://")
  }

  /** The URL the form submits: trimmed, with `https://` put in front unless it names `http://` or `https://`. */
  function Normalize(input: string): string {
    var t := Trim(input);
    if !HasScheme(t) then "https://" + t else t
  }

  /**
    The normalised URL always names a scheme: it is the trimmed input when
    that starts with `http://` or `https://`, and `https://` followed by it otherwise.
  */
  lemma NormalizeAddsScheme(input: string)
    ensures HasScheme(Normalize(input))
    ensures var t := Trim(input);
      Normalize(input) == if HasScheme(t) then t else "https://" + t
  {
    var t := Trim(input);
    if !HasScheme(t) {
      assert ("https://" + t)[..8] == "https://";
    }
  }

  /** Putting `https://` in front of a string without white space at its ends leaves none at its ends. */
  lemma SchemePrefixKeepsTrimmed(t: string)
    requires Trimmed(t)
    ensures Trimmed("https://" + t)
  {
    var n := "https://" + t;
    assert n[0] == 'h' && !IsSpace('h');
    assert n[|n| - 1] == if t == [] then '/' else t[|t| - 1];
    assert !IsSpace('/');
  }

  /** A trimmed URL that names a scheme is submitted as it is. */
  lemma NormalizeKeepsSchemed(u: string)
    requires Trimmed(u) && HasScheme(u)
    ensures Normalize(u) == u
  {
    TrimOfTrimmed(u);
  }

  /** A normalised URL is left as it is by normalising it again. */
  lemma NormalizeIdempotent(input: string)
    ensures Normalize(Normalize(input)) == Normalize(input)
  {
    var t := Trim(input);
    NormalizeAddsScheme(input);
    if !HasScheme(t) {
      SchemePrefixKeepsTrimmed(t);
    }
    NormalizeKeepsSchemed(Normalize(input));
  }

  /** The parsed body of the server's answer: its `error` and `auditId` fields. */
  datatype JsonReply = JsonReply(error: Option<string>, auditId: Option<string>)

  /** How the request to `/api/audit` ended. */
  datatype ServerAnswer =
    | FetchThrew(message: string)
    | Answered(ok: bool, status: nat, text: string, json: Option<JsonReply>)  // `json` is None when `JSON.parse` threw

  /** Where a submission ends: the audit page, or an error shown under the form. */
  datatype Settled = Navigate(path: string) | ShowError(message: string)

  /** The message of the error thrown inside the request block, or None when it completes. */
  function ThrownMessage(a: ServerAnswer): Option<string> {
    match a
    case FetchThrew(message) => Some(message)
    case Answered(ok, status, text, json) =>
      match json
      case None => Some("Invalid JSON response: " + Prefix(text, 100))
      case Some(data) =>
        if ok then None
        else if data.error.Some? && data.error.value != "" then Some(data.error.value)
        else Some("Server error: " + NatToString(status))
  }

  /** The outcome of one submission once the server has answered. */
  function Settle(a: ServerAnswer): Settled {
    match ThrownMessage(a)
    case None => Navigate("/audit/" + a.json.value.auditId.GetOr("undefined"))
    case Some(message) => ShowError(FailurePrefix + message)
  }

  /**
    A submission opens the audit page exactly when the server answered OK with
    a JSON body; every other ending shows an error that starts with
    "Failed to start audit: ".
  */
  lemma SettleOutcome(a: ServerAnswer)
    ensures Settle(a).Navigate? <==> a.Answered? && a.ok && a.json.Some?
    ensures Settle(a).ShowError? ==> StartsWith(Settle(a).message, FailurePrefix)
    ensures Settle(a).Navigate? ==> StartsWith(Settle(a).path, "/audit/")
  {
    match ThrownMessage(a)
    case None =>
      var id := a.json.value.auditId.GetOr("undefined");
      assert ("/audit/" + id)[..7] == "/audit/";
    case Some(message) =>
      assert (FailurePrefix + message)[..|FailurePrefix|] == FailurePrefix;
  }

  /** A non-OK answer shows the server's `error` field, or the status code when that is absent or empty. */
  lemma NonOkShowsServerError(a: ServerAnswer)
    requires a.Answered? && !a.ok && a.json.Some?
    ensures var e := a.json.value.error;
      Settle(a) == ShowError(FailurePrefix +
        if e.Some? && e.value != "" then e.value else "Server error: " + NatToString(a.status))
  {
  }

  /** A body that is not JSON shows its first hundred characters, whatever the status. */
  lemma NonJsonShowsBodyPrefix(a: ServerAnswer)
    requires a.Answered? && a.json.None?
    ensures Settle(a).ShowError?
    ensures Settle(a).message == FailurePrefix + "Invalid JSON response: " + Prefix(a.text, 100)
    ensures |Settle(a).message| <= |FailurePrefix + "Invalid JSON response: "| + 100
  {
  }

  /** The answer the browser sees for a reply of the audit handler (its JSON parses). */
  function AnswerOf(reply: AuditRoute.Reply, text: string): ServerAnswer {
    Answered(AuditRoute.StatusCode(reply) == 200, AuditRoute.StatusCode(reply), text,
             Some(JsonReply(AuditRoute.ErrorField(reply), AuditRoute.AuditIdField(reply))))
  }

  /**
    End to end: whatever one call of the audit handler replies, the page opens
    the returned audit on success, and otherwise shows the handler's error
    message after "Failed to start audit: ".
  */
  lemma PageReportsHandlerReply(
    s: AuditRoute.Store, s': AuditRoute.Store, body: AuditRoute.RequestBody, now: nat,
    isUrl: string -> bool, fx: AuditRoute.Effects, publicUrlOf: string -> string,
    reply: AuditRoute.Reply, text: string)
    requires AuditRoute.PostStep(s, s', body, now, isUrl, fx, publicUrlOf, reply)
    ensures AuditRoute.StatusCode(reply) == 200 ==>
      Settle(AnswerOf(reply, text)) == Navigate("/audit/" + AuditRoute.AuditIdField(reply).value)
    ensures AuditRoute.StatusCode(reply) != 200 ==>
      Settle(AnswerOf(reply, text)) == ShowError(FailurePrefix + AuditRoute.ErrorField(reply).value)
  {
    AuditRoute.ErrorsAreNonEmpty(s, s', body, now, isUrl, fx, publicUrlOf, reply);
  }

  /** `getStatusColor`: the badge classes of a status. */
  const GreenClasses: string := "bg-green-500/10 text-green-400 border-green-500/20"
  const AmberClasses: string := "bg-[rgb(252,178,25)]/10 text-[rgb(252,178,25)] border-[rgb(252,178,25)]/20"
  const RedClasses: string := "bg-red-500/10 text-red-400 border-red-500/20"
  const GrayClasses: string := "bg-gray-500/10 text-gray-400 border-gray-500/20"

  function StatusColor(status: string): (r: string)
    ensures r == GreenClasses <==> status == Completed
    ensures r == AmberClasses <==> status == Pending
    ensures r == RedClasses <==> status == Failed
    ensures r == GrayClasses <==> status != Completed && status != Pending && status != Failed
  {
    if status == Completed then GreenClasses
    else if status == Pending then AmberClasses
    else if status == Failed then RedClasses
    else GrayClasses
  }

  /** The label of a status badge. */
  datatype BadgeLabel = DoneBadge | ProcessingBadge | FailedBadge {

    /** The badge text on a wide screen (`md:inline`) or a narrow one (`md:hidden`). */
    function Label(wide: bool): string {
      match this
      case DoneBadge => if wide then "Completed" else "Done"
      case ProcessingBadge => if wide then "Processing" else "Pending"
      case FailedBadge => "Failed"
    }
  }

  function Badge(status: string): (r: BadgeLabel)
    ensures r == DoneBadge <==> status == Completed
    ensures r == ProcessingBadge <==> status == Pending
    ensures r == FailedBadge <==> status != Completed && status != Pending
  {
    if status == Completed then DoneBadge
    else if status == Pending then ProcessingBadge
    else FailedBadge
  }

  /** A status the page does not know is badged "Failed" but coloured gray, not red. */
  lemma UnknownStatusLooksFailedInGray(status: string)
    requires status != Completed && status != Pending && status != Failed
    ensures Badge(status) == FailedBadge && StatusColor(status) == GrayClasses
    ensures StatusColor(status) != StatusColor(Failed)
  {
  }

  /**
    What the score slot of a card renders. `findings?.score && (...)` renders
    nothing when the score is absent, but a score of 0 is itself the value of
    the `&&`, and the page renders that number as the text `0`. Any other
    score renders the label `<score>/100`.
  */
  function ScoreLabel(findings: Option<Findings>): (r: Option<string>)
    ensures r.None? <==> findings.None? || findings.value.score.None?
    ensures r.Some? && findings.value.score.value == 0 ==> r.value == "0"
    ensures r.Some? && findings.value.score.value != 0 ==>
      r.value == IntToString(findings.value.score.value) + "/100"
  {
    if findings.None? || findings.value.score.None? then None
    else if findings.value.score.value == 0 then Some(IntToString(0))
    else Some(IntToString(findings.value.score.value) + "/100")
  }

  /** The slot as the page evidently means it: the label for a present, non-zero score, and nothing otherwise. */
  function IntendedScoreLabel(findings: Option<Findings>): (r: Option<string>)
    ensures r.Some? <==> findings.Some? && findings.value.score.Some? && findings.value.score.value != 0
    ensures r.Some? ==> r.value == IntToString(findings.value.score.value) + "/100"
  {
    if findings.Some? && findings.value.score.Some? && findings.value.score.value != 0 then
      Some(IntToString(findings.value.score.value) + "/100")
    else
      None
  }

  /** A score of 0 renders the bare text `0`, with no `/100` label, where nothing was meant to be shown. */
  lemma ZeroScoreRendersBareZero(summary: string, issues: seq<Issue>)
    ensures ScoreLabel(Some(Findings(summary, Some(0), issues))) == Some("0")
    ensures IntendedScoreLabel(Some(Findings(summary, Some(0), issues))) == None
  {
  }

  /** The slot renders what is intended for every input except a score of exactly 0. */
  lemma ScoreLabelIntendedExceptZero(findings: Option<Findings>)
    requires findings.None? || findings.value.score.None? || findings.value.score.value != 0
    ensures ScoreLabel(findings) == IntendedScoreLabel(findings)
  {
  }

  /** `recentAudits.slice(0, 3)`: the cards shown. */
  function Shown(recent: seq<RecentRoute.RecentAudit>): (r: seq<RecentRoute.RecentAudit>)
    ensures |r| <= 3 && |r| <= |recent| && r == recent[..|r|]
    ensures |r| == 3 || r == recent
  {
    if |recent| <= 3 then recent else recent[..3]
  }

  /** The cards shown from the recent-audits answer are its newest rows, newest first. */
  lemma ShownAreNewest(rows: seq<Row>)
    ensures var shown := Shown(RecentRoute.Recent(rows));
      && |shown| == (if |rows| < 3 then |rows| else 3)
      && (forall i, j :: 0 <= i < j < |shown| ==> shown[j].updatedAt <= shown[i].updatedAt)
      && shown == RecentRoute.Recent(rows)[..|shown|]
  {
  }

  /** The part of the page state a submission changes. */
  datatype Form = Form(
    isLoading: bool,
    error: string,
    requests: seq<string>,  // the URLs posted to `/api/audit`, in order
    visited: seq<string>)   // the paths the router was sent to, in order

  /**
    The form after one submission of `input`: blank input changes nothing; a
    normalised URL that does not parse only sets the error; otherwise the error
    is cleared, loading starts, the URL is posted, the answer is settled and
    loading stops.
  */
  function Submitted(f: Form, input: string, isUrl: string -> bool, answer: ServerAnswer): Form {
    if Trim(input) == [] then f
    else
      var validUrl := Normalize(input);
      Checked(f, validUrl, isUrl(validUrl), Settle(answer))
  }

  /** The form after a non-blank submission of `validUrl`, given whether it parses and how the request settles. */
  function Checked(f: Form, validUrl: string, parses: bool, settled: Settled): Form {
    if !parses then f.(error := InvalidUrlMessage)
    else
      var sent := f.(error := "", isLoading := true, requests := f.requests + [validUrl]);
      var done :=
        match settled
        case Navigate(path) => sent.(visited := sent.visited + [path])
        case ShowError(message) => sent.(error := message);
      done.(isLoading := false)
  }

  /** Input that is blank after trimming returns at once: no request, no error or loading change. */
  lemma BlankInputDoesNothing(f: Form, input: string, isUrl: string -> bool, answer: ServerAnswer)
    requires AllSpace(input)
    ensures Submitted(f, input, isUrl, answer) == f
  {
    TrimCutsSpaceOnly(input);
  }

  /** A normalised URL that does not parse shows "Please enter a valid URL"; nothing is sent and loading never starts. */
  lemma InvalidUrlSendsNothing(f: Form, input: string, isUrl: string -> bool, answer: ServerAnswer)
    requires Trim(input) != [] && !isUrl(Normalize(input))
    ensures var g := Submitted(f, input, isUrl, answer);
      g.error == InvalidUrlMessage && g.isLoading == f.isLoading && g.requests == f.requests && g.visited == f.visited
  {
  }

  /**
    A submission that sends its request posts the normalised URL once, ends
    with loading off whatever the answer, and either opens the audit page with
    no error or shows the settled error.
  */
  lemma SentSubmissionSettles(f: Form, input: string, isUrl: string -> bool, answer: ServerAnswer)
    requires Trim(input) != [] && isUrl(Normalize(input))
    ensures var g := Submitted(f, input, isUrl, answer);
      && !g.isLoading
      && g.requests == f.requests + [Normalize(input)]
      && (Settle(answer).Navigate? ==> g.error == "" && g.visited == f.visited + [Settle(answer).path])
      && (Settle(answer).ShowError? ==> g.error == Settle(answer).message && g.visited == f.visited)
  {
  }

  /** Every URL the page posts names a scheme (`http://` or `https://`). */
  lemma PostedUrlsHaveScheme(f: Form, input: string, isUrl: string -> bool, answer: ServerAnswer)
    requires forall i :: 0 <= i < |f.requests| ==> HasScheme(f.requests[i])
    ensures var g := Submitted(f, input, isUrl, answer);
      forall i :: 0 <= i < |g.requests| ==> HasScheme(g.requests[i])
  {
    if Trim(input) != [] && isUrl(Normalize(input)) {
      SentSubmissionSettles(f, input, isUrl, answer);
      NormalizeAddsScheme(input);
    } else if Trim(input) != [] {
      InvalidUrlSendsNothing(f, input, isUrl, answer);
    }
  }

  /** How the request to `/api/audits/recent` ended. */
  datatype RecentAnswer = RecentThrew | RecentNotOk | RecentOk(audits: Option<seq<RecentRoute.RecentAudit>>)

  /** The state of the home page. */
  class Home {
    var url: string
    var isLoading: bool
    var error: string
    var recentAudits: seq<RecentRoute.RecentAudit>
    var loadingRecent: bool
    /** The URLs posted to `/api/audit`, in order. */
    var requests: seq<string>
    /** The paths the router was sent to, in order. */
    var visited: seq<string>

    constructor ()
      ensures url == "https://setget.com/" && !isLoading && error == ""
      ensures recentAudits == [] && loadingRecent
      ensures requests == [] && visited == []
    {
      url, isLoading, error := "https://setget.com/", false, "";
      recentAudits, loadingRecent := [], true;
      requests, visited := [], [];
    }

    /** Whether the recent-audits section is drawn. */
    predicate ShowsRecent()
      reads this
    {
      !loadingRecent && |recentAudits| > 0
    }

    /** Load the recent audits: keep the list unless the answer is OK; stop loading in every case. */
    method FetchRecentAudits(answer: RecentAnswer)
      modifies this
      ensures !loadingRecent
      ensures recentAudits == if answer.RecentOk? then answer.audits.GetOr([]) else old(recentAudits)
      ensures ShowsRecent() <==> recentAudits != []
      ensures url == old(url) && isLoading == old(isLoading) && error == old(error)
      ensures requests == old(requests) && visited == old(visited)
    {
      if answer.RecentOk? {
        recentAudits := answer.audits.GetOr([]);
      }
      loadingRecent := false;
    }

    ghost function FormState(): Form
      reads this
    {
      Form(isLoading, error, requests, visited)
    }

    /** `handleSubmit`: submit the form with the current input. */
    method HandleSubmit(isUrl: string -> bool, answer: ServerAnswer)
      modifies this
      ensures FormState() == Submitted(old(FormState()), old(url), isUrl, answer)
      ensures url == old(url) && recentAudits == old(recentAudits) && loadingRecent == old(loadingRecent)
    {
      var input := url;
      if Trim(input) == [] {
        return;
      }
      var validUrl := Normalize(input);
      SubmitChecked(validUrl, isUrl(validUrl), Settle(answer));
    }

    /** The state updates of a non-blank submission: validate, post, settle, stop loading. */
    method SubmitChecked(validUrl: string, parses: bool, settled: Settled)
      modifies this
      ensures FormState() == Checked(old(FormState()), validUrl, parses, settled)
      ensures url == old(url) && recentAudits == old(recentAudits) && loadingRecent == old(loadingRecent)
    {
      error := "";
      if !parses {
        error := InvalidUrlMessage;
        return;
      }
      isLoading := true;
      requests := requests + [validUrl];
      if settled.Navigate? {
        visited := visited + [settled.path];
      } else {
        error := settled.message;
      }
      isLoading := false;
    }
  }
}
