/** The Jira client: configuration from the settings row and the keychain,
    `fetchTicket` with its field defaults and error mapping, and the
    `recent_tickets` cache that every successful fetch writes to. The Jira
    REST call is the oracle `api`; the acceptance-criteria regular
    expressions are the oracle `criteria` (see JiraText). */
module Jira {
  import opened Wrappers
  import opened Strings
  import opened Errors
  import opened Ordering
  import opened JiraText
  import opened Settings

  datatype Assignee = Assignee(email: string, displayName: string)
  datatype Attachment = Attachment(filename: string, contentType: string, size: int)

  /** The ticket record handed to the prompt builder and cached. */
  datatype TicketData = TicketData(
    key: string,
    summary: string,
    description: string,
    priority: string,
    status: string,
    assignee: Option<Assignee>,
    labels: seq<string>,
    acceptanceCriteria: seq<string>,
    attachments: seq<Attachment>,
    createdAt: string,
    updatedAt: string)

  // ---------------------------------------------------------------------
  // The issue as the REST API returns it; `None` is a missing field

  datatype RawAssignee = RawAssignee(emailAddress: Option<string>, displayName: Option<string>)
  datatype RawAttachment = RawAttachment(filename: Option<string>, mimeType: Option<string>, size: Option<int>)

  datatype RawIssue = RawIssue(
    key: string,
    summary: Option<string>,
    description: AdfValue,
    priorityName: Option<string>,
    statusName: Option<string>,
    assignee: Option<RawAssignee>,
    labels: Option<seq<string>>,
    attachments: Option<seq<RawAttachment>>,
    created: Option<string>,
    updated: Option<string>)

  function NormalizeAttachment(a: RawAttachment): Attachment {
    Attachment(OrElse(a.filename, ""), OrElse(a.mimeType, ""), a.size.GetOr(0))
  }

  /** The ticket record built from an issue: `|| ''`, `|| 'Unknown'`,
      `|| []` and `|| 0` defaults, the assignee only when present, the
      description rendered, and the criteria extracted from the
      description (`matched` is the oracle's answer for it). */
  function NormalizeTicket(issue: RawIssue, matched: Option<string>): (t: TicketData)
    ensures t.key == issue.key
    ensures t.priority != "" && t.status != ""
    ensures t.description == FormatDescription(issue.description)
    ensures forall x :: x in t.acceptanceCriteria ==> IsTrimmed(x) && 0 < |x| < 500
    ensures t.assignee.Some? <==> issue.assignee.Some?
    ensures issue.labels.Some? ==> t.labels == issue.labels.value
    ensures |t.attachments| == (if issue.attachments.Some? then |issue.attachments.value| else 0)
  {
    TicketData(
      issue.key,
      OrElse(issue.summary, ""),
      FormatDescription(issue.description),
      OrElse(issue.priorityName, "Unknown"),
      OrElse(issue.statusName, "Unknown"),
      if issue.assignee.Some?
        then Some(Assignee(OrElse(issue.assignee.value.emailAddress, ""), OrElse(issue.assignee.value.displayName, "")))
        else None,
      issue.labels.GetOr([]),
      ExtractAcceptanceCriteria(issue.description, matched),
      if issue.attachments.Some?
        then var atts := issue.attachments.value; seq(|atts|, i requires 0 <= i < |atts| => NormalizeAttachment(atts[i]))
        else [],
      OrElse(issue.created, ""),
      OrElse(issue.updated, ""))
  }

  /** An issue with nothing but its key gets every default. */
  lemma NormalizeDefaults(key: string, matched: Option<string>)
    ensures NormalizeTicket(RawIssue(key, None, Falsy, None, None, None, None, None, None, None), matched)
      == TicketData(key, "", "", "Unknown", "Unknown", None, [], [], [], "", "")
  {
  }

  /** Present, non-empty fields are kept as they are. */
  lemma NormalizeKeepsFields(issue: RawIssue, matched: Option<string>)
    requires Present(issue.summary) && Present(issue.priorityName) && Present(issue.statusName)
    ensures var t := NormalizeTicket(issue, matched);
      t.summary == issue.summary.value && t.priority == issue.priorityName.value && t.status == issue.statusName.value
  {
  }

  /** The error a failed fetch is turned into. */
  function MapFetchError(ticketId: string, f: Thrown): (e: AppError)
    ensures e.JiraError?
    ensures e.StatusCode() == 404 <==> f.status == Some(404)
    ensures e.StatusCode() == 401 <==> f.status == Some(401)
    ensures f.status != Some(404) && f.status != Some(401) ==> e.StatusCode() == 500 && e.message != ""
    ensures f.status != Some(404) && f.status != Some(401) && f.message != "" ==> e.message == f.message
    ensures f.status == Some(404) ==> e.message == "Ticket " + ticketId + " not found"
    ensures f.status == Some(401) ==> e.message == "Authentication failed. Check your JIRA credentials."
  {
    if f.status == Some(404) then JiraError("Ticket " + ticketId + " not found", Some(404))
    else if f.status == Some(401) then JiraError("Authentication failed. Check your JIRA credentials.", Some(401))
    else JiraError(OrElse(Some(f.message), "Failed to fetch ticket from JIRA"), None)
  }

  /** The outcome of the guarded part of `fetchTicket` given the REST
      reply. */
  function FetchResult(ticketId: string, reply: Result<RawIssue, Thrown>, criteria: AdfValue -> Option<string>)
    : (r: Result<TicketData, AppError>)
    ensures reply.Success? <==> r.Success?
    ensures r.Success? ==> r.value == NormalizeTicket(reply.value, criteria(reply.value.description))
    ensures r.Failure? ==> r.error == MapFetchError(ticketId, reply.error)
  {
    match reply
    case Success(issue) => Success(NormalizeTicket(issue, criteria(issue.description)))
    case Failure(f) => Failure(MapFetchError(ticketId, f))
  }

  // ---------------------------------------------------------------------
  // Configuration

  datatype JiraConfig = JiraConfig(baseUrl: string, username: string, apiToken: string)

  /** `initialize`: the URL and user name must be set in the row, then the
      token must be in the keychain. */
  function ResolveJiraConfig(row: Option<SettingsRow>, token: Option<string>): (r: Result<JiraConfig, AppError>)
    ensures r.Success? <==>
      row.Some? && Present(row.value.jiraBaseUrl) && Present(row.value.jiraUsername) && Present(token)
    ensures r.Success? ==> r.value == JiraConfig(row.value.jiraBaseUrl.value, row.value.jiraUsername.value, token.value)
    ensures r.Failure? ==> r.error.JiraError? && r.error.StatusCode() == 500
  {
    if row.None? || !Present(row.value.jiraBaseUrl) || !Present(row.value.jiraUsername) then
      Failure(JiraError("JIRA configuration not found. Please configure settings first.", None))
    else if !Present(token) then
      Failure(JiraError("JIRA API token not found. Please configure settings first.", None))
    else Success(JiraConfig(row.value.jiraBaseUrl.value, row.value.jiraUsername.value, token.value))
  }

  // ---------------------------------------------------------------------
  // The recent_tickets table

  datatype RecentRow = RecentRow(ticketId: string, summary: string, data: TicketData, fetchedAt: int)
  datatype RecentEntry = RecentEntry(ticketId: string, ticketSummary: string, fetchedAt: int)

  /** How the two statements of `saveToRecentTickets` fare: both run, the
      insert fails (so the prune never runs), or only the prune fails. The
      error is logged and swallowed either way. */
  datatype CacheWrite = BothOk | InsertFailed | PruneFailed

  const CacheCapacity := 10
  const RecentLimit := 5

  function FetchedKey(r: RecentRow): Rank { Rank(r.fetchedAt, 0) }

  /** `ticket_id` is the table's key. */
  predicate DistinctKeys(rows: seq<RecentRow>) {
    forall i, j :: 0 <= i < j < |rows| ==> rows[i].ticketId != rows[j].ticketId
  }

  function KeysOf(rows: seq<RecentRow>): (ks: set<string>)
    ensures |ks| <= |rows|
    ensures forall x :: x in rows ==> x.ticketId in ks
    ensures forall k :: k in ks ==> exists x :: x in rows && x.ticketId == k
    decreases |rows|
  {
    if rows == [] then {}
    else
      var rest := KeysOf(rows[1..]);
      assert forall x :: x in rows[1..] ==> x in rows;
      assert forall x :: x in rows ==> x == rows[0] || x in rows[1..];
      {rows[0].ticketId} + rest
  }

  /** The rows without the one keyed `k`. */
  function RemoveKey(rows: seq<RecentRow>, k: string): (r: seq<RecentRow>)
    ensures forall x :: x in r <==> x in rows && x.ticketId != k
    ensures DistinctKeys(rows) ==> DistinctKeys(r)
    decreases |rows|
  {
    if rows == [] then []
    else
      var rest := RemoveKey(rows[1..], k);
      assert forall x :: x in rows <==> x == rows[0] || x in rows[1..];
      if rows[0].ticketId == k then rest
      else
        assert DistinctKeys(rows) ==> forall x :: x in rest ==> x.ticketId != rows[0].ticketId;
        [rows[0]] + rest
  }

  lemma {:induction false} RemoveKeyLength(rows: seq<RecentRow>, k: string)
    requires DistinctKeys(rows)
    ensures |RemoveKey(rows, k)| == |rows| - (if k in KeysOf(rows) then 1 else 0)
    decreases |rows|
  {
    if rows != [] {
      RemoveKeyLength(rows[1..], k);
      if rows[0].ticketId == k {
        assert k !in KeysOf(rows[1..]);
      }
    }
  }

  /** INSERT OR REPLACE: the row with the same key, if any, is deleted and
      the new row added. */
  function Upsert(rows: seq<RecentRow>, row: RecentRow): (r: seq<RecentRow>)
    requires DistinctKeys(rows)
    ensures DistinctKeys(r)
    ensures row in r
    ensures forall x :: x in r <==> x == row || (x in rows && x.ticketId != row.ticketId)
  {
    var rest := RemoveKey(rows, row.ticketId);
    rest + [row]
  }

  /** After an upsert the key is present exactly once, with the new row. */
  lemma UpsertKeyOnce(rows: seq<RecentRow>, row: RecentRow)
    requires DistinctKeys(rows)
    ensures var r := Upsert(rows, row);
      forall i :: 0 <= i < |r| && r[i].ticketId == row.ticketId ==> r[i] == row
  {
    var r := Upsert(rows, row);
    forall i | 0 <= i < |r| && r[i].ticketId == row.ticketId ensures r[i] == row {
      assert r[i] in r;
    }
  }

  /** Saving a ticket that is already cached does not grow the table; a new
      one adds a row. */
  lemma UpsertSize(rows: seq<RecentRow>, row: RecentRow)
    requires DistinctKeys(rows)
    ensures |Upsert(rows, row)| == |rows| + (if row.ticketId in KeysOf(rows) then 0 else 1)
  {
    RemoveKeyLength(rows, row.ticketId);
  }

  /** `DELETE … WHERE ticket_id NOT IN (…)`: the rows whose key is in `keep`,
      in table order. */
  function KeepKeys(rows: seq<RecentRow>, keep: set<string>): (r: seq<RecentRow>)
    ensures forall x :: x in r <==> x in rows && x.ticketId in keep
    ensures DistinctKeys(rows) ==> DistinctKeys(r)
    decreases |rows|
  {
    if rows == [] then []
    else
      var rest := KeepKeys(rows[1..], keep);
      assert forall x :: x in rows <==> x == rows[0] || x in rows[1..];
      if rows[0].ticketId in keep then
        assert DistinctKeys(rows) ==> forall x :: x in rest ==> x.ticketId != rows[0].ticketId;
        [rows[0]] + rest
      else rest
  }

  lemma {:induction false} KeepKeysBound(rows: seq<RecentRow>, keep: set<string>)
    requires DistinctKeys(rows)
    ensures |KeepKeys(rows, keep)| <= |keep|
    decreases |rows|
  {
    if rows != [] {
      var k := rows[0].ticketId;
      if k in keep {
        forall x | x in rows[1..] ensures x.ticketId != k {
        }
        KeepKeysSame(rows[1..], keep, keep - {k});
        KeepKeysBound(rows[1..], keep - {k});
      } else {
        KeepKeysBound(rows[1..], keep);
      }
    }
  }

  lemma {:induction false} KeepKeysSame(rows: seq<RecentRow>, a: set<string>, b: set<string>)
    requires forall x :: x in rows ==> (x.ticketId in a <==> x.ticketId in b)
    ensures KeepKeys(rows, a) == KeepKeys(rows, b)
    decreases |rows|
  {
    if rows != [] {
      KeepKeysSame(rows[1..], a, b);
    }
  }

  /** The keys of the ten newest rows by `fetched_at`. */
  function NewestKeys(rows: seq<RecentRow>): (ks: set<string>)
    ensures |ks| <= CacheCapacity
  {
    KeysOf(Top(rows, FetchedKey, CacheCapacity))
  }

  /** The prune: keep the rows whose key is among the ten newest. */
  function Prune(rows: seq<RecentRow>): (r: seq<RecentRow>)
    requires DistinctKeys(rows)
    ensures DistinctKeys(r)
    ensures |r| <= CacheCapacity
    ensures forall x :: x in r ==> x in rows
  {
    KeepKeysBound(rows, NewestKeys(rows));
    KeepKeys(rows, NewestKeys(rows))
  }

  /** The prune keeps the newest rows: every row it drops was fetched no
      later than every row it keeps. */
  lemma PruneKeepsNewest(rows: seq<RecentRow>)
    requires DistinctKeys(rows)
    ensures forall x, y :: x in Prune(rows) && y in rows && y !in Prune(rows) ==> x.fetchedAt >= y.fetchedAt
  {
    forall x, y | x in Prune(rows) && y in rows && y !in Prune(rows) ensures x.fetchedAt >= y.fetchedAt {
      KeptNoOlder(rows, x, y);
    }
  }

  lemma KeptNoOlder(rows: seq<RecentRow>, x: RecentRow, y: RecentRow)
    requires DistinctKeys(rows)
    requires x in Prune(rows) && y in rows && y !in Prune(rows)
    ensures x.fetchedAt >= y.fetchedAt
  {
    var top := Top(rows, FetchedKey, CacheCapacity);
    TopKeepsHighest(rows, FetchedKey, CacheCapacity);
    KeptNoOlderThan(rows, top, x, y);
  }

  /** The core of the argument, for any selection `top` of the rows that
      ranks above the rest. */
  lemma KeptNoOlderThan(rows: seq<RecentRow>, top: seq<RecentRow>, x: RecentRow, y: RecentRow)
    requires DistinctKeys(rows)
    requires forall t :: t in top ==> t in rows
    requires forall a, b :: a in top && b in multiset(rows) - multiset(top) ==> AtLeast(FetchedKey(a), FetchedKey(b))
    requires x in rows && x.ticketId in KeysOf(top)
    requires y in rows && y.ticketId !in KeysOf(top)
    ensures x.fetchedAt >= y.fetchedAt
  {
    var t :| t in top && t.ticketId == x.ticketId;
    SameKeySameRow(rows, t, x);
    assert y !in top;
    assert y in multiset(rows) - multiset(top);
    assert AtLeast(FetchedKey(x), FetchedKey(y));
  }

  lemma SameKeySameRow(rows: seq<RecentRow>, a: RecentRow, b: RecentRow)
    requires DistinctKeys(rows) && a in rows && b in rows && a.ticketId == b.ticketId
    ensures a == b
  {
  }

  /** A row fetched later than every other row survives the prune. */
  lemma NewestSurvivesPrune(rows: seq<RecentRow>, row: RecentRow)
    requires DistinctKeys(rows) && row in rows
    requires forall x :: x in rows && x != row ==> x.fetchedAt < row.fetchedAt
    ensures row in Prune(rows)
  {
    var sorted := SortDesc(rows, FetchedKey);
    assert |sorted| == |rows| by {
      assert |multiset(sorted)| == |multiset(rows)|;
    }
    assert row in multiset(sorted);
    var j :| 0 <= j < |sorted| && sorted[j] == row;
    assert sorted[0] in multiset(rows);
    assert AtLeast(FetchedKey(sorted[0]), FetchedKey(sorted[j]));
    assert sorted[0] == row;
    var top := Top(rows, FetchedKey, CacheCapacity);
    assert top[0] == row;
    assert row in top;
  }

  function RowOf(ticket: TicketData, now: int): RecentRow {
    RecentRow(ticket.key, ticket.summary, ticket, now)
  }

  /** The table after `saveToRecentTickets(ticket)` at time `now`. */
  function SaveRecent(rows: seq<RecentRow>, ticket: TicketData, now: int, write: CacheWrite): (r: seq<RecentRow>)
    requires DistinctKeys(rows)
    ensures DistinctKeys(r)
    ensures write.BothOk? ==> |r| <= CacheCapacity
    ensures write.InsertFailed? ==> r == rows
  {
    match write
    case BothOk => Prune(Upsert(rows, RowOf(ticket, now)))
    case PruneFailed => Upsert(rows, RowOf(ticket, now))
    case InsertFailed => rows
  }

  /** A ticket saved later than every cached fetch is in the cache exactly
      once afterwards, with its new data. */
  lemma SaveKeepsTicket(rows: seq<RecentRow>, ticket: TicketData, now: int)
    requires DistinctKeys(rows)
    requires forall x :: x in rows ==> x.fetchedAt < now
    ensures var r := SaveRecent(rows, ticket, now, BothOk);
      && RowOf(ticket, now) in r
      && forall i :: 0 <= i < |r| && r[i].ticketId == ticket.key ==> r[i] == RowOf(ticket, now)
  {
    var row := RowOf(ticket, now);
    assert SaveRecent(rows, ticket, now, BothOk) == Prune(Upsert(rows, row));
    UpsertThenPrune(rows, row);
  }

  lemma UpsertThenPrune(rows: seq<RecentRow>, row: RecentRow)
    requires DistinctKeys(rows)
    requires forall x :: x in rows ==> x.fetchedAt < row.fetchedAt
    ensures var r := Prune(Upsert(rows, row));
      && row in r
      && forall i :: 0 <= i < |r| && r[i].ticketId == row.ticketId ==> r[i] == row
  {
    var up := Upsert(rows, row);
    UpsertNewest(rows, row);
    NewestSurvivesPrune(up, row);
    OnlyRowWithKey(Prune(up), row);
  }

  /** With distinct keys, a row is the only one carrying its key. */
  lemma OnlyRowWithKey(r: seq<RecentRow>, row: RecentRow)
    requires DistinctKeys(r) && row in r
    ensures forall i :: 0 <= i < |r| && r[i].ticketId == row.ticketId ==> r[i] == row
  {
  }

  lemma UpsertNewest(rows: seq<RecentRow>, row: RecentRow)
    requires DistinctKeys(rows)
    requires forall x :: x in rows ==> x.fetchedAt < row.fetchedAt
    ensures forall x :: x in Upsert(rows, row) && x != row ==> x.fetchedAt < row.fetchedAt
  {
  }

  /** A row whose key is not among the `n` newest is no newer than any of
      them. */
  lemma NoNewerLeftOut(rows: seq<RecentRow>, n: nat, i: int, x: RecentRow)
    requires 0 <= i < |Top(rows, FetchedKey, n)| && x in rows
    requires forall t :: t in Top(rows, FetchedKey, n) ==> t.ticketId != x.ticketId
    ensures Top(rows, FetchedKey, n)[i].fetchedAt >= x.fetchedAt
  {
    var top := Top(rows, FetchedKey, n);
    TopKeepsHighest(rows, FetchedKey, n);
    assert x !in top;
    assert x in multiset(rows) - multiset(top);
    assert top[i] in top;
  }

  function TicketKey(r: RecentRow): string { r.ticketId }

  /** The `n` newest rows of a table keyed by ticket id have distinct ids. */
  lemma TopKeysDistinct(rows: seq<RecentRow>, n: nat)
    ensures DistinctKeys(rows) ==> DistinctKeys(Top(rows, FetchedKey, n))
  {
    if DistinctKeys(rows) {
      assert DistinctBy(rows, TicketKey);
      TopDistinctBy(rows, FetchedKey, n, TicketKey);
    }
  }

  function EntryOfRow(x: RecentRow): RecentEntry {
    RecentEntry(x.ticketId, x.summary, x.fetchedAt)
  }

  /** The entries of the `n` newest rows, in query order. */
  function NewestEntries(rows: seq<RecentRow>, n: nat): (r: seq<RecentEntry>)
    ensures |r| == Min(n, |rows|)
    ensures forall i :: 0 <= i < |r| ==> r[i] == EntryOfRow(Top(rows, FetchedKey, n)[i])
  {
    var top := Top(rows, FetchedKey, n);
    seq(|top|, i requires 0 <= i < |top| => EntryOfRow(top[i]))
  }

  lemma NewestEntriesOrdered(rows: seq<RecentRow>, n: nat)
    ensures var r := NewestEntries(rows, n);
      forall i, j :: 0 <= i < j < |r| ==> r[i].fetchedAt >= r[j].fetchedAt
  {
    var top := Top(rows, FetchedKey, n);
    assert forall i, j :: 0 <= i < j < |top| ==> AtLeast(FetchedKey(top[i]), FetchedKey(top[j]));
  }

  lemma NewestEntriesFromRows(rows: seq<RecentRow>, n: nat)
    ensures forall e :: e in NewestEntries(rows, n) ==> exists x :: x in rows && e == RecentEntry(x.ticketId, x.summary, x.fetchedAt)
  {
    var top := Top(rows, FetchedKey, n);
    var r := NewestEntries(rows, n);
    forall e | e in r ensures exists x :: x in rows && e == RecentEntry(x.ticketId, x.summary, x.fetchedAt) {
      var i :| 0 <= i < |r| && r[i] == e;
      assert top[i] in top;
    }
  }

  lemma NewestEntriesNoNewer(rows: seq<RecentRow>, n: nat)
    ensures var r := NewestEntries(rows, n);
      forall e, x :: e in r && x in rows && (forall f :: f in r ==> f.ticketId != x.ticketId) ==>
        e.fetchedAt >= x.fetchedAt
  {
    var top := Top(rows, FetchedKey, n);
    var r := NewestEntries(rows, n);
    forall e, x | e in r && x in rows && (forall f :: f in r ==> f.ticketId != x.ticketId)
      ensures e.fetchedAt >= x.fetchedAt
    {
      var i :| 0 <= i < |r| && r[i] == e;
      forall t | t in top ensures t.ticketId != x.ticketId {
        var k :| 0 <= k < |top| && top[k] == t;
        assert r[k] in r;
      }
      NoNewerLeftOut(rows, n, i, x);
    }
  }

  lemma NewestEntriesDistinct(rows: seq<RecentRow>, n: nat)
    ensures var r := NewestEntries(rows, n);
      DistinctKeys(rows) ==> forall i, j :: 0 <= i < j < |r| ==> r[i].ticketId != r[j].ticketId
  {
    TopKeysDistinct(rows, n);
  }

  class RecentTickets {
    var rows: seq<RecentRow>

    predicate Valid()
      reads this
    {
      DistinctKeys(rows)
    }

    constructor ()
      ensures rows == [] && Valid()
    {
      rows := [];
    }

    /** `saveToRecentTickets`: never fails; what it leaves behind depends
        on which statement, if any, failed. */
    method Save(ticket: TicketData, now: int, write: CacheWrite)
      requires Valid()
      modifies this
      ensures Valid()
      ensures rows == SaveRecent(old(rows), ticket, now, write)
    {
      if write == InsertFailed {
        return;
      }
      rows := Upsert(rows, RowOf(ticket, now));
      if write == BothOk {
        rows := Prune(rows);
      }
    }

    /** `getRecentTickets`: the five newest rows, newest first; no row left
        out is newer than one returned. */
    function Recent(): (r: seq<RecentEntry>)
      reads this
      ensures |r| == Min(RecentLimit, |rows|)
      ensures forall i, j :: 0 <= i < j < |r| ==> r[i].fetchedAt >= r[j].fetchedAt
      ensures forall e :: e in r ==> exists x :: x in rows && e == RecentEntry(x.ticketId, x.summary, x.fetchedAt)
      ensures forall e, x :: e in r && x in rows && (forall f :: f in r ==> f.ticketId != x.ticketId) ==>
                e.fetchedAt >= x.fetchedAt
      ensures Valid() ==> forall i, j :: 0 <= i < j < |r| ==> r[i].ticketId != r[j].ticketId
    {
      NewestEntriesOrdered(rows, RecentLimit);
      NewestEntriesFromRows(rows, RecentLimit);
      NewestEntriesNoNewer(rows, RecentLimit);
      NewestEntriesDistinct(rows, RecentLimit);
      NewestEntries(rows, RecentLimit)
    }
  }

  // ---------------------------------------------------------------------
  // Connection test

  /** The account `myself.getCurrentUser` reports. */
  datatype JiraUser = JiraUser(displayName: string, emailAddress: string)

  /** `{ success, message }` of `testConnection`. */
  datatype JiraConnection = JiraConnection(success: bool, message: string)

  const ConnectFallback: string := "Failed to connect to JIRA"

  function ConnectedMessage(u: JiraUser): string {
    "Connected as " + u.displayName + " (" + u.emailAddress + ")"
  }

  /** What `testConnection` reports, given the configuration it works with
      and the reply of the current-user call: it never throws; a failure
      of either step is reported by its message, or the fallback text. */
  function ConnectionOutcome(cfg: Result<JiraConfig, AppError>,
                             myself: JiraConfig -> Result<JiraUser, Thrown>): (r: JiraConnection)
    ensures r.success <==> cfg.Success? && myself(cfg.value).Success?
    ensures r.message != ""
    ensures cfg.Failure? ==> r.message == OrElse(Some(cfg.error.message), ConnectFallback)
    ensures cfg.Success? && myself(cfg.value).Failure? ==>
              r.message == OrElse(Some(myself(cfg.value).error.message), ConnectFallback)
  {
    if cfg.Failure? then JiraConnection(false, OrElse(Some(cfg.error.message), ConnectFallback))
    else
      var u := myself(cfg.value);
      if u.Failure? then JiraConnection(false, OrElse(Some(u.error.message), ConnectFallback))
      else JiraConnection(true, ConnectedMessage(u.value))
  }

  /** A successful test names the account it connected as, and the user
      can be read back from the message when the display name has no
      " (" in it. */
  lemma ConnectedNamesUser(u: JiraUser, v: JiraUser)
    requires ConnectedMessage(u) == ConnectedMessage(v)
    requires |u.displayName| == |v.displayName|
    ensures u == v
  {
    var m := ConnectedMessage(u);
    assert m == "Connected as " + u.displayName + (" (" + u.emailAddress + ")");
    assert ConnectedMessage(v) == "Connected as " + v.displayName + (" (" + v.emailAddress + ")");
    var k := |"Connected as "|;
    assert u.displayName == m[k..k + |u.displayName|];
    assert v.displayName == m[k..k + |v.displayName|];
    var j := k + |u.displayName| + 2;
    assert u.emailAddress == m[j..|m| - 1];
    assert v.emailAddress == ConnectedMessage(v)[j..|m| - 1];
  }

  // ---------------------------------------------------------------------
  // The client

  class JiraClient {
    var config: Option<JiraConfig>

    constructor ()
      ensures config.None?
    {
      config := None;
    }

    /** `initialize`: on success the configuration is set; on failure it
        stays as it was and the error propagates. */
    method Initialize(settings: SettingsStore, vault: Vault) returns (r: Outcome<AppError>)
      modifies this
      ensures var c := ResolveJiraConfig(settings.row, vault.Get(JiraTokenAccount));
        && (r.Pass? <==> c.Success?)
        && (c.Success? ==> config == Some(c.value))
        && (c.Failure? ==> r == Fail(c.error) && config == old(config))
    {
      var c := ResolveJiraConfig(settings.row, vault.Get(JiraTokenAccount));
      if c.Success? {
        config := Some(c.value);
        r := Pass;
      } else {
        r := Fail(c.error);
      }
    }

    /** The configuration `fetchTicket` works with: the one already set,
        or the outcome of initialising. */
    method Configure(settings: SettingsStore, vault: Vault) returns (c: Result<JiraConfig, AppError>)
      modifies this
      ensures c == if old(config).Some? then Success(old(config).value)
                   else ResolveJiraConfig(settings.row, vault.Get(JiraTokenAccount))
      ensures config == if c.Success? then Some(c.value) else old(config)
    {
      if config.Some? {
        return Success(config.value);
      }
      var init := Initialize(settings, vault);
      if init.Fail? {
        return Failure(init.error);
      }
      c := Success(config.value);
    }

    /** `testConnection`: initialise if needed, then ask for the current
        user; every error becomes an unsuccessful result. */
    method TestConnection(settings: SettingsStore, vault: Vault,
                          myself: JiraConfig -> Result<JiraUser, Thrown>)
      returns (r: JiraConnection)
      modifies this
      ensures var cfg := if old(config).Some? then Success(old(config).value)
                         else ResolveJiraConfig(settings.row, vault.Get(JiraTokenAccount));
        && config == (if cfg.Success? then Some(cfg.value) else old(config))
        && r == ConnectionOutcome(cfg, myself)
    {
      var cfg := Configure(settings, vault);
      r := ConnectionOutcome(cfg, myself);
    }

    /** `fetchTicket`: initialise if needed (an initialisation error is not
        mapped), call the API, build the ticket, and on success write it to
        the recent-tickets cache without waiting for the write. The result
        does not depend on how the cache write fared. */
    method FetchTicket(ticketId: string, settings: SettingsStore, vault: Vault,
                       api: (JiraConfig, string) -> Result<RawIssue, Thrown>,
                       criteria: AdfValue -> Option<string>,
                       recent: RecentTickets, now: int, write: CacheWrite)
      returns (r: Result<TicketData, AppError>)
      requires recent.Valid()
      modifies this, recent
      ensures recent.Valid()
      ensures var cfg := if old(config).Some? then Success(old(config).value)
                         else ResolveJiraConfig(settings.row, vault.Get(JiraTokenAccount));
        && config == (if cfg.Success? then Some(cfg.value) else old(config))
        && r == (if cfg.Success? then FetchResult(ticketId, api(cfg.value, ticketId), criteria) else Failure(cfg.error))
      ensures r.Success? ==> recent.rows == SaveRecent(old(recent.rows), r.value, now, write)
      ensures r.Failure? ==> recent.rows == old(recent.rows)
    {
      var cfg := Configure(settings, vault);
      if cfg.Failure? {
        return Failure(cfg.error);
      }
      r := FetchResult(ticketId, api(cfg.value, ticketId), criteria);
      if r.Success? {
        recent.Save(r.value, now, write);
      }
    }
  }
}
