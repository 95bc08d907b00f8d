/**
  The `POST /api/audit` handler: validate the submitted URL, reuse an audit of
  the same URL updated within the last hour, otherwise capture a desktop
  screenshot in a headless browser, upload it to the blob store, and either
  refresh the one existing row for that URL or insert a new one.

  The handler is modelled as a step of a service whose state is the `audits`
  table, the blob store and the number of browser sessions left open. What the
  outside world does (parsing the body, `new URL`, the browser, the store's
  answers, the id the table assigns) is an input: `RequestBody`, `isUrl`,
  `Effects`.
*/
module AuditRoute {
  import opened Wrappers
  import opened Text
  import opened Records

  /** One hour in milliseconds: a row updated at or after `now - CacheWindow` is reused. */
  const CacheWindow: int := 60 * 60 * 1000

  /** The `url` field of the JSON body. */
  datatype UrlField = Absent | Given(value: string)

  /** The request body: the parsed JSON's `url` field, or the message of what parsing or destructuring threw. */
  datatype RequestBody = Unreadable(details: string) | Json(url: UrlField)

  /** How the browser part ended. */
  datatype Capture =
    | LaunchFailed(details: string)      // `puppeteer.launch` threw: no browser was opened
    | SetupFailed(details: string)       // `newPage` or `setUserAgent` threw
    | NavigationThrew(details: string)   // `goto` threw (time-out, unknown host)
    | NotOk                              // `goto` gave no response or a non-OK status
    | ScreenshotFailed(details: string)  // scrolling, waiting or `screenshot` threw
    | Captured(image: seq<bv8>)          // the JPEG bytes of the full-page screenshot

  /** The answers of the store and of the browser during one call. */
  datatype Effects = Effects(
    cacheReadFails: bool,   // the one-hour lookup returned an error (no data)
    capture: Capture,
    uploadFails: bool,      // the storage upload returned an error
    matchReadFails: bool,   // the lookup of rows with this URL returned an error (no data)
    writeFails: bool,       // the update or the insert returned an error
    newId: Id)              // the id the table gives an inserted row

  /** What the handler answers. */
  datatype Reply =
    | Cached(auditId: Id)         // 200 `{auditId}`
    | Refreshed(auditId: Id)      // 200 `{message: "Audit refreshed", auditId}`
    | Created(auditId: Id)        // 200 `{message: "Audit created", auditId}`
    | BadRequest(error: string)   // 400 `{error}`
    | ServerError(error: string)  // 500 `{error}`
    | Unexpected(details: string) // 500 `{error: "Audit failed unexpectedly", details}`

  function StatusCode(r: Reply): (code: nat)
    ensures code == 200 <==> r.Cached? || r.Refreshed? || r.Created?
    ensures code == 400 <==> r.BadRequest?
    ensures code == 200 || code == 400 || code == 500
  {
    match r
    case Cached(_) => 200
    case Refreshed(_) => 200
    case Created(_) => 200
    case BadRequest(_) => 400
    case ServerError(_) => 500
    case Unexpected(_) => 500
  }

  /** The `error` field of the reply body, absent on success. */
  function ErrorField(r: Reply): (e: Option<string>)
    ensures e.None? <==> StatusCode(r) == 200
  {
    match r
    case BadRequest(msg) => Some(msg)
    case ServerError(msg) => Some(msg)
    case Unexpected(_) => Some("Audit failed unexpectedly")
    case _ => None
  }

  /** The `auditId` field of the reply body, present exactly on success. */
  function AuditIdField(r: Reply): (id: Option<Id>)
    ensures id.Some? <==> StatusCode(r) == 200
  {
    match r
    case Cached(id) => Some(id)
    case Refreshed(id) => Some(id)
    case Created(id) => Some(id)
    case _ => None
  }

  /** JavaScript truthiness of the `url` field: present and not the empty string. */
  predicate Truthy(f: UrlField) {
    f.Given? && f.value != ""
  }

  /** The URL to audit, or the reply that ends the call before any store is read. */
  function Validate(body: RequestBody, isUrl: string -> bool): (r: Result<string, Reply>)
    ensures r.Ok? <==> body.Json? && Truthy(body.url) && isUrl(body.url.value)
    ensures r.Ok? ==> r.value == body.url.value
    ensures r.Err? && body.Json? ==> StatusCode(r.error) == 400
  {
    match body
    case Unreadable(details) => Err(Unexpected(details))
    case Json(url) =>
      if !Truthy(url) then Err(BadRequest("URL is required"))
      else if !isUrl(url.value) then Err(BadRequest("Invalid URL format"))
      else Ok(url.value)
  }

  /** The message of the error that ended the browser part, for every outcome but a capture. */
  function CaptureFailure(c: Capture): string
    requires !c.Captured?
  {
    match c
    case LaunchFailed(details) => details
    case SetupFailed(details) => details
    case NavigationThrew(details) => details
    case NotOk => "Page failed to load or returned error status"
    case ScreenshotFailed(details) => details
  }

  /** A throw after the launch skips `browser.close()`: the session stays open. */
  predicate LeavesBrowserOpen(c: Capture) {
    c.SetupFailed? || c.NavigationThrew? || c.ScreenshotFailed?
  }

  /** The row is for `url` and was updated within the hour before `now` (the bound included). */
  predicate Fresh(a: Audit, url: string, now: int) {
    a.url == url && a.updatedAt >= now - CacheWindow
  }

  ghost predicate CacheHit(t: map<Id, Audit>, url: string, now: int) {
    exists id :: id in t && Fresh(t[id], url, now)
  }

  /** `id` is a fresh row for `url` and no fresh row for `url` was updated later. */
  predicate IsLatestFresh(t: map<Id, Audit>, url: string, now: int, id: Id) {
    && id in t && Fresh(t[id], url, now)
    && forall j :: j in t && Fresh(t[j], url, now) ==> t[j].updatedAt <= t[id].updatedAt
  }

  /** `id` is the only row whose URL is `url` (what `.eq("url", url).single()` returns data for). */
  ghost predicate SoleMatch(t: map<Id, Audit>, url: string, id: Id) {
    id in t && t[id].url == url && forall j :: j in t && t[j].url == url ==> j == id
  }

  function MatchIds(t: map<Id, Audit>, url: string): set<Id> {
    set id | id in t.Keys && t[id].url == url
  }

  /** The storage key of the screenshot taken at `now`. */
  function ScreenshotKey(now: nat): string {
    "screenshot-" + NatToString(now) + ".jpg"
  }

  /** The merge-update of an existing row: only status, time, screenshot and findings are written. */
  function Refresh(a: Audit, now: nat, publicUrl: string): Audit {
    a.(status := Completed, updatedAt := now, desktopScreenshot := Some(publicUrl), findings := Some(MockFindings))
  }

  /** The inserted row; columns the insert does not name are empty. */
  function NewAudit(url: string, now: nat, publicUrl: string): Audit {
    Audit(url, Completed, now, now, Some(publicUrl), None, Some(MockFindings))
  }

  /** The state the handler acts on. */
  datatype Store = Store(table: map<Id, Audit>, blobs: map<string, seq<bv8>>, openBrowsers: nat)

  /**
    The refresh-or-insert step that ends a call once the screenshot is
    uploaded, from table `t` to table `t'`: a merge-update of the one row with
    this URL, or the insert of a new row.
  */
  ghost predicate PersistStep(
    t: map<Id, Audit>, t': map<Id, Audit>, url: string, now: nat, publicUrl: string, fx: Effects, reply: Reply)
  {
    if !fx.matchReadFails && exists id :: SoleMatch(t, url, id) then
      exists id :: SoleMatch(t, url, id) &&
        if fx.writeFails then
          reply == ServerError("Failed to update audit") && t' == t
        else
          reply == Refreshed(id) && t' == t[id := Refresh(t[id], now, publicUrl)]
    else if fx.writeFails || fx.newId in t then
      reply == ServerError("Failed to save audit") && t' == t
    else
      reply == Created(fx.newId) && t' == t[fx.newId := NewAudit(url, now, publicUrl)]
  }

  /**
    One call of the handler, from store `s` to store `s'` with reply `reply`:
    the specification `AuditService.Post` is proved against.
  */
  ghost predicate PostStep(
    s: Store, s': Store, body: RequestBody, now: nat, isUrl: string -> bool,
    fx: Effects, publicUrlOf: string -> string, reply: Reply)
  {
    match Validate(body, isUrl)
    case Err(r) => reply == r && s' == s
    case Ok(url) =>
      if !fx.cacheReadFails && CacheHit(s.table, url, now) then
        reply.Cached? && IsLatestFresh(s.table, url, now, reply.auditId) && s' == s
      else if !fx.capture.Captured? then
        && reply == Unexpected(CaptureFailure(fx.capture))
        && s' == s.(openBrowsers := s.openBrowsers + if LeavesBrowserOpen(fx.capture) then 1 else 0)
      else if fx.uploadFails then
        reply == ServerError("Failed to upload screenshot") && s' == s
      else
        var key := ScreenshotKey(now);
        && s'.blobs == s.blobs[key := fx.capture.image]
        && s'.openBrowsers == s.openBrowsers
        && PersistStep(s.table, s'.table, url, now, publicUrlOf(key), fx, reply)
  }

  /** Every completed row has findings and a desktop screenshot. */
  ghost predicate Consistent(t: map<Id, Audit>) {
    forall id :: id in t && t[id].status == Completed ==> t[id].findings.Some? && t[id].desktopScreenshot.Some?
  }

  /** `id` is among `ids` and no row of `ids` was updated after it. */
  predicate UpdatedLast(t: map<Id, Audit>, ids: set<Id>, id: Id)
    requires ids <= t.Keys
  {
    id in ids && forall j :: j in ids ==> t[j].updatedAt <= t[id].updatedAt
  }

  /** Among finitely many rows of a table, one was updated last. */
  lemma {:induction false} LatestExists(t: map<Id, Audit>, ids: set<Id>)
    requires ids != {} && ids <= t.Keys
    ensures exists id :: UpdatedLast(t, ids, id)
  {
    var x :| x in ids;
    if ids == {x} {
      assert UpdatedLast(t, ids, x);
    } else {
      var rest := ids - {x};
      LatestExists(t, rest);
      var y :| UpdatedLast(t, rest, y);
      if t[x].updatedAt <= t[y].updatedAt {
        assert UpdatedLast(t, ids, y);
      } else {
        assert UpdatedLast(t, ids, x);
      }
    }
  }

  /** Exactly one row has the URL if and only if the rows with that URL form a one-element set. */
  lemma SoleMatchIffOneMatch(t: map<Id, Audit>, url: string)
    ensures |MatchIds(t, url)| == 1 <==> exists id :: SoleMatch(t, url, id)
  {
    var ids := MatchIds(t, url);
    if |ids| == 1 {
      var id :| id in ids;
      assert ids == {id} by {
        var rest := ids - {id};
        assert |rest| == 0;
        assert rest == {};
      }
      forall j | j in t && t[j].url == url
        ensures j == id
      {
        assert j in ids;
      }
      assert SoleMatch(t, url, id);
    }
    if exists id :: SoleMatch(t, url, id) {
      var id :| SoleMatch(t, url, id);
      assert ids == {id};
    }
  }

  /** Distinct times give distinct storage keys, so only a second upload in the same millisecond overwrites. */
  lemma ScreenshotKeysDistinct(a: nat, b: nat)
    requires a != b
    ensures ScreenshotKey(a) != ScreenshotKey(b)
  {
    if ScreenshotKey(a) == ScreenshotKey(b) {
      var sa, sb := NatToString(a), NatToString(b);
      var n := |"screenshot-"|;
      assert |sa| == |sb|;
      assert sa == ScreenshotKey(a)[n..n + |sa|];
      assert sb == ScreenshotKey(b)[n..n + |sb|];
      NatToStringInjective(a, b);
    }
  }

  /** A missing or empty URL is refused with 400 "URL is required" and nothing changes. */
  lemma RejectsMissingUrl(
    s: Store, s': Store, body: RequestBody, now: nat, isUrl: string -> bool,
    fx: Effects, publicUrlOf: string -> string, reply: Reply)
    requires PostStep(s, s', body, now, isUrl, fx, publicUrlOf, reply)
    requires body.Json? && !Truthy(body.url)
    ensures reply == BadRequest("URL is required") && StatusCode(reply) == 400
    ensures s' == s
  {
  }

  /** A URL that does not parse is refused with 400 "Invalid URL format" and nothing changes. */
  lemma RejectsInvalidUrl(
    s: Store, s': Store, body: RequestBody, now: nat, isUrl: string -> bool,
    fx: Effects, publicUrlOf: string -> string, reply: Reply)
    requires PostStep(s, s', body, now, isUrl, fx, publicUrlOf, reply)
    requires body.Json? && Truthy(body.url) && !isUrl(body.url.value)
    ensures reply == BadRequest("Invalid URL format") && StatusCode(reply) == 400
    ensures s' == s
  {
  }

  /**
    A row for the URL updated within the hour (the bound included) is reused:
    the reply is the id of the latest such row, and neither the browser nor a
    store is touched. Conversely, a reused id means such a row existed.
  */
  lemma CacheHitReusesLatest(
    s: Store, s': Store, body: RequestBody, now: nat, isUrl: string -> bool,
    fx: Effects, publicUrlOf: string -> string, reply: Reply)
    requires PostStep(s, s', body, now, isUrl, fx, publicUrlOf, reply)
    ensures reply.Cached? <==>
      Validate(body, isUrl).Ok? && !fx.cacheReadFails && CacheHit(s.table, body.url.value, now)
    ensures reply.Cached? ==>
      IsLatestFresh(s.table, body.url.value, now, reply.auditId) && s' == s
  {
  }

  /**
    When the browser part fails the reply is 500 "Audit failed unexpectedly" with
    the thrown message, and no row or blob is written. A non-OK page closes the
    browser; a throw after the launch leaves one session open.
  */
  lemma CaptureFailureWritesNothing(
    s: Store, s': Store, body: RequestBody, now: nat, isUrl: string -> bool,
    fx: Effects, publicUrlOf: string -> string, reply: Reply)
    requires PostStep(s, s', body, now, isUrl, fx, publicUrlOf, reply)
    requires Validate(body, isUrl).Ok? && !reply.Cached? && !fx.capture.Captured?
    ensures reply == Unexpected(CaptureFailure(fx.capture)) && StatusCode(reply) == 500
    ensures s'.table == s.table && s'.blobs == s.blobs
    ensures fx.capture.NotOk? ==> s'.openBrowsers == s.openBrowsers
    ensures s'.openBrowsers == s.openBrowsers + 1 <==> LeavesBrowserOpen(fx.capture)
  {
  }

  /** A failed upload answers 500 "Failed to upload screenshot" and writes no row. */
  lemma UploadFailureWritesNothing(
    s: Store, s': Store, body: RequestBody, now: nat, isUrl: string -> bool,
    fx: Effects, publicUrlOf: string -> string, reply: Reply)
    requires PostStep(s, s', body, now, isUrl, fx, publicUrlOf, reply)
    requires Validate(body, isUrl).Ok? && !reply.Cached? && fx.capture.Captured? && fx.uploadFails
    ensures reply == ServerError("Failed to upload screenshot")
    ensures s' == s
  {
  }

  /**
    When exactly one row has the URL it is merge-updated in place: completed,
    stamped `now`, with the new screenshot and the findings; its URL, creation
    time and mobile screenshot stay; no other row changes; its id is returned.
  */
  lemma RefreshUpdatesSoleMatch(
    s: Store, s': Store, body: RequestBody, now: nat, isUrl: string -> bool,
    fx: Effects, publicUrlOf: string -> string, reply: Reply, id: Id)
    requires PostStep(s, s', body, now, isUrl, fx, publicUrlOf, reply)
    requires Validate(body, isUrl).Ok? && !reply.Cached?
    requires fx.capture.Captured? && !fx.uploadFails && !fx.matchReadFails && !fx.writeFails
    requires SoleMatch(s.table, body.url.value, id)
    ensures reply == Refreshed(id)
    ensures s'.table.Keys == s.table.Keys
    ensures s'.table[id].status == Completed && s'.table[id].updatedAt == now
    ensures s'.table[id].desktopScreenshot == Some(publicUrlOf(ScreenshotKey(now)))
    ensures s'.table[id].findings == Some(MockFindings)
    ensures s'.table[id].url == s.table[id].url && s'.table[id].createdAt == s.table[id].createdAt
    ensures s'.table[id].mobileScreenshot == s.table[id].mobileScreenshot
    ensures forall j :: j in s.table && j != id ==> s'.table[j] == s.table[j]
    ensures s'.blobs == s.blobs[ScreenshotKey(now) := fx.capture.image]
  {
  }

  /**
    Without a single matching row (none, several, or the lookup failed) one new
    completed row is inserted under the id the table assigns, created and
    updated at `now`, and its id is returned.
  */
  lemma InsertAddsOneRow(
    s: Store, s': Store, body: RequestBody, now: nat, isUrl: string -> bool,
    fx: Effects, publicUrlOf: string -> string, reply: Reply)
    requires PostStep(s, s', body, now, isUrl, fx, publicUrlOf, reply)
    requires Validate(body, isUrl).Ok? && !reply.Cached?
    requires fx.capture.Captured? && !fx.uploadFails && !fx.writeFails && fx.newId !in s.table
    requires fx.matchReadFails || forall id :: !SoleMatch(s.table, body.url.value, id)
    ensures reply == Created(fx.newId)
    ensures s'.table.Keys == s.table.Keys + {fx.newId}
    ensures s'.table[fx.newId].url == body.url.value && s'.table[fx.newId].status == Completed
    ensures s'.table[fx.newId].createdAt == now && s'.table[fx.newId].updatedAt == now
    ensures forall j :: j in s.table ==> s'.table[j] == s.table[j]
  {
  }

  /**
    The refresh-or-insert step writes nothing on an error; a refresh rewrites
    the one row with the URL and an insert adds a row under an unused id.
  */
  lemma PersistOutcome(
    t: map<Id, Audit>, t': map<Id, Audit>, url: string, now: nat, publicUrl: string, fx: Effects, reply: Reply)
    requires PersistStep(t, t', url, now, publicUrl, fx, reply)
    ensures reply.Refreshed? || reply.Created? || (reply.ServerError? && reply.error != "" && t' == t)
    ensures reply.Refreshed? ==>
      SoleMatch(t, url, reply.auditId) && t' == t[reply.auditId := Refresh(t[reply.auditId], now, publicUrl)]
    ensures reply.Created? ==>
      reply.auditId !in t && t' == t[reply.auditId := NewAudit(url, now, publicUrl)]
  {
    if !fx.matchReadFails && exists id :: SoleMatch(t, url, id) {
      var id :| SoleMatch(t, url, id) &&
        if fx.writeFails then reply == ServerError("Failed to update audit") && t' == t
        else reply == Refreshed(id) && t' == t[id := Refresh(t[id], now, publicUrl)];
    }
  }

  /** A call that writes a row or reports success without the cache got past validation, capture and upload. */
  lemma WriteFollowsUpload(
    s: Store, s': Store, body: RequestBody, now: nat, isUrl: string -> bool,
    fx: Effects, publicUrlOf: string -> string, reply: Reply)
    requires PostStep(s, s', body, now, isUrl, fx, publicUrlOf, reply)
    requires s'.table != s.table || reply.Refreshed? || reply.Created?
    ensures Validate(body, isUrl).Ok? && fx.capture.Captured? && !fx.uploadFails
    ensures fx.cacheReadFails || !CacheHit(s.table, body.url.value, now)
    ensures PersistStep(s.table, s'.table, body.url.value, now, publicUrlOf(ScreenshotKey(now)), fx, reply)
  {
  }

  /**
    At most one row changes, and every row the handler writes is completed,
    stamped `now` and carries the findings and the new screenshot: the handler
    never writes `pending` or `failed`.
  */
  lemma WritesOneCompletedRow(
    s: Store, s': Store, body: RequestBody, now: nat, isUrl: string -> bool,
    fx: Effects, publicUrlOf: string -> string, reply: Reply)
    requires PostStep(s, s', body, now, isUrl, fx, publicUrlOf, reply)
    ensures s.table.Keys <= s'.table.Keys
    ensures forall id :: id in s'.table && (id !in s.table || s'.table[id] != s.table[id]) ==>
      && (reply.Refreshed? || reply.Created?) && id == reply.auditId
      && s'.table[id].status == Completed && s'.table[id].updatedAt == now
      && s'.table[id].findings == Some(MockFindings)
      && s'.table[id].desktopScreenshot == Some(publicUrlOf(ScreenshotKey(now)))
  {
    if s'.table != s.table {
      WriteFollowsUpload(s, s', body, now, isUrl, fx, publicUrlOf, reply);
      PersistOutcome(s.table, s'.table, body.url.value, now, publicUrlOf(ScreenshotKey(now)), fx, reply);
    }
  }

  /** The handler keeps every completed row complete: it writes no completed row without findings and a screenshot. */
  lemma ConsistencyPreserved(
    s: Store, s': Store, body: RequestBody, now: nat, isUrl: string -> bool,
    fx: Effects, publicUrlOf: string -> string, reply: Reply)
    requires PostStep(s, s', body, now, isUrl, fx, publicUrlOf, reply)
    requires Consistent(s.table)
    ensures Consistent(s'.table)
  {
    WritesOneCompletedRow(s, s', body, now, isUrl, fx, publicUrlOf, reply);
  }

  /**
    After a call that wrote a row for a URL, a second call with the same URL
    that starts after the first call returned, within the hour, and whose
    lookup succeeds is answered from the cache, with no capture and no write.
    When the first call's lookup succeeded, the reused id is the one written.
  */
  lemma RepeatSubmitHitsCache(
    s0: Store, s1: Store, s2: Store, body: RequestBody, now1: nat, now2: nat, isUrl: string -> bool,
    fx1: Effects, fx2: Effects, publicUrlOf: string -> string, reply1: Reply, reply2: Reply)
    requires PostStep(s0, s1, body, now1, isUrl, fx1, publicUrlOf, reply1)
    requires reply1.Refreshed? || reply1.Created?
    requires PostStep(s1, s2, body, now2, isUrl, fx2, publicUrlOf, reply2)
    requires now1 <= now2 <= now1 + CacheWindow && !fx2.cacheReadFails
    ensures reply2.Cached? && s2 == s1
    ensures !fx1.cacheReadFails ==> reply2 == Cached(reply1.auditId)
  {
    var url := body.url.value;
    var id := reply1.auditId;
    WriteFollowsUpload(s0, s1, body, now1, isUrl, fx1, publicUrlOf, reply1);
    PersistOutcome(s0.table, s1.table, url, now1, publicUrlOf(ScreenshotKey(now1)), fx1, reply1);
    assert Fresh(s1.table[id], url, now2);
    if !fx1.cacheReadFails {
      forall j | j in s1.table && j != id
        ensures !Fresh(s1.table[j], url, now2)
      {
        assert j in s0.table && s1.table[j] == s0.table[j];
        assert !Fresh(s0.table[j], url, now1);
      }
      assert IsLatestFresh(s1.table, url, now2, reply2.auditId);
    }
  }

  /** Every error the handler answers carries a non-empty `error` field. */
  lemma ErrorsAreNonEmpty(
    s: Store, s': Store, body: RequestBody, now: nat, isUrl: string -> bool,
    fx: Effects, publicUrlOf: string -> string, reply: Reply)
    requires PostStep(s, s', body, now, isUrl, fx, publicUrlOf, reply)
    ensures ErrorField(reply).Some? ==> ErrorField(reply).value != ""
  {
    match Validate(body, isUrl)
    case Err(_) =>
    case Ok(url) =>
      if !(!fx.cacheReadFails && CacheHit(s.table, url, now)) && fx.capture.Captured? && !fx.uploadFails {
        PersistOutcome(s.table, s'.table, url, now, publicUrlOf(ScreenshotKey(now)), fx, reply);
      }
  }

  /**
    The service behind the handler: the `audits` table, the blob store of the
    `audits` bucket and the browser sessions still open.
  */
  class AuditService {
    var table: map<Id, Audit>
    var blobs: map<string, seq<bv8>>
    var openBrowsers: nat
    /** The public URL the blob store gives a storage key. */
    const publicUrlOf: string -> string

    ghost function State(): Store
      reads this
    {
      Store(table, blobs, openBrowsers)
    }

    constructor (table0: map<Id, Audit>, blobs0: map<string, seq<bv8>>, publicUrlOf: string -> string)
      ensures State() == Store(table0, blobs0, 0) && this.publicUrlOf == publicUrlOf
    {
      table, blobs, openBrowsers := table0, blobs0, 0;
      this.publicUrlOf := publicUrlOf;
    }

    /**
      The one-hour lookup (newest first, at most one row): the latest row for
      `url` updated at or after `now - CacheWindow`, if there is one.
    */
    method FindRecent(url: string, now: nat) returns (hit: Option<Id>)
      ensures hit.Some? <==> CacheHit(table, url, now)
      ensures hit.Some? ==> IsLatestFresh(table, url, now, hit.value)
    {
      var recent := set id | id in table.Keys && Fresh(table[id], url, now);
      if recent == {} {
        assert forall id :: id in table && Fresh(table[id], url, now) ==> id in recent;
        return None;
      }
      LatestExists(table, recent);
      var id :| UpdatedLast(table, recent, id);
      return Some(id);
    }

    /** Refresh the one row for `url`, or insert a new one, once the screenshot is stored at `publicUrl`. */
    method Persist(url: string, now: nat, publicUrl: string, fx: Effects) returns (reply: Reply)
      modifies this`table
      ensures PersistStep(old(table), table, url, now, publicUrl, fx, reply)
    {
      var matches := MatchIds(table, url);
      SoleMatchIffOneMatch(table, url);
      if !fx.matchReadFails && |matches| == 1 {
        var id :| id in matches;
        if fx.writeFails {
          return ServerError("Failed to update audit");
        }
        table := table[id := Refresh(table[id], now, publicUrl)];
        return Refreshed(id);
      }
      if fx.writeFails || fx.newId in table {
        return ServerError("Failed to save audit");
      }
      table := table[fx.newId := NewAudit(url, now, publicUrl)];
      return Created(fx.newId);
    }

    /**
      The browser part: launch, open a page, navigate, scroll and take the
      screenshot. The session is closed after a non-OK answer and after the
      screenshot; a throw after the launch leaves it open.
    */
    method RunBrowser(c: Capture) returns (image: Option<seq<bv8>>)
      modifies this`openBrowsers
      ensures image.Some? <==> c.Captured?
      ensures c.Captured? ==> image.value == c.image
      ensures openBrowsers == old(openBrowsers) + if LeavesBrowserOpen(c) then 1 else 0
    {
      match c {
        case LaunchFailed(_) =>
          return None;
        case NotOk =>
          openBrowsers := openBrowsers + 1;  // launch
          openBrowsers := openBrowsers - 1;  // close before throwing
          return None;
        case Captured(bytes) =>
          openBrowsers := openBrowsers + 1;  // launch
          openBrowsers := openBrowsers - 1;  // close after the screenshot
          return Some(bytes);
        case _ =>
          openBrowsers := openBrowsers + 1;  // launch; the throw skips the close
          return None;
      }
    }

    /** Handle one `POST /api/audit` at time `now`. */
    method Post(body: RequestBody, now: nat, isUrl: string -> bool, fx: Effects) returns (reply: Reply)
      modifies this
      ensures PostStep(old(State()), State(), body, now, isUrl, fx, publicUrlOf, reply)
    {
      var checked := Validate(body, isUrl);
      if checked.Err? {
        return checked.error;
      }
      var url := checked.value;
      var key := ScreenshotKey(now);
      var publicUrl := publicUrlOf(key);

      if !fx.cacheReadFails {
        var hit := FindRecent(url, now);
        if hit.Some? {
          return Cached(hit.value);
        }
      }

      var image := RunBrowser(fx.capture);
      if image.None? {
        return Unexpected(CaptureFailure(fx.capture));
      }

      if fx.uploadFails {
        return ServerError("Failed to upload screenshot");
      }
      blobs := blobs[key := image.value];
      reply := Persist(url, now, publicUrl, fx);
    }
  }
}
