/**
  The `GET /api/audits/recent` handler: a read of the `audits` table that
  selects six columns, orders by `updated_at` newest first and keeps at most
  ten rows. The database fixes no order among rows with the same
  `updated_at`; the model picks one valid order (the order the rows are
  given in), and no lemma here depends on that choice.
*/
module RecentRoute {
  import opened Wrappers
  import opened Records

  /** At most this many audits are returned. */
  const Limit: nat := 10

  /** The projected columns `id, url, status, created_at, updated_at, findings`. */
  datatype RecentAudit = RecentAudit(
    id: Id, url: string, status: string, createdAt: nat, updatedAt: nat, findings: Option<Findings>)

  function Project(r: Row): RecentAudit {
    RecentAudit(r.id, r.audit.url, r.audit.status, r.audit.createdAt, r.audit.updatedAt, r.audit.findings)
  }

  ghost predicate NewestFirst(rows: seq<Row>) {
    forall i, j :: 0 <= i < j < |rows| ==> rows[j].audit.updatedAt <= rows[i].audit.updatedAt
  }

  /** Put `x` in front of the first row not newer than it. */
  function Insert(x: Row, s: seq<Row>): (r: seq<Row>)
    requires NewestFirst(s)
    ensures NewestFirst(r)
    ensures multiset(r) == multiset(s) + multiset{x}
    ensures |r| == |s| + 1
    ensures r[0] == x || (s != [] && r[0] == s[0])
  {
    if s == [] || s[0].audit.updatedAt <= x.audit.updatedAt then
      ConsNewestFirst(x, s);
      [x] + s
    else
      assert NewestFirst(s[1..]) by {
        forall i, j | 0 <= i < j < |s| - 1
          ensures s[1..][j].audit.updatedAt <= s[1..][i].audit.updatedAt
        {
          assert s[1..][i] == s[i + 1] && s[1..][j] == s[j + 1];
        }
      }
      var rest := Insert(x, s[1..]);
      assert s == [s[0]] + s[1..];
      ConsNewestFirst(s[0], rest);
      assert multiset([s[0]] + rest) == multiset{s[0]} + multiset(rest);
      [s[0]] + rest
  }

  /** A row no older than the head of a newest-first list can go in front of it. */
  lemma ConsNewestFirst(h: Row, s: seq<Row>)
    requires NewestFirst(s)
    requires s == [] || s[0].audit.updatedAt <= h.audit.updatedAt
    ensures NewestFirst([h] + s)
  {
    var r := [h] + s;
    forall i, j | 0 <= i < j < |r|
      ensures r[j].audit.updatedAt <= r[i].audit.updatedAt
    {
      if i == 0 {
        assert r[j] == s[j - 1];
      } else {
        assert r[i] == s[i - 1] && r[j] == s[j - 1];
      }
    }
  }

  /** `order("updated_at", {ascending: false})`: newest first; equal times stay in the order given. */
  function SortNewestFirst(rows: seq<Row>): (r: seq<Row>)
    ensures NewestFirst(r)
    ensures multiset(r) == multiset(rows)
    ensures |r| == |rows|
  {
    if rows == [] then []
    else
      assert rows == [rows[0]] + rows[1..];
      Insert(rows[0], SortNewestFirst(rows[1..]))
  }

  /** The rows `limit(10)` keeps. */
  function Top(rows: seq<Row>): seq<Row> {
    var sorted := SortNewestFirst(rows);
    if |sorted| <= Limit then sorted else sorted[..Limit]
  }

  /** The rows `limit(10)` drops. */
  function Omitted(rows: seq<Row>): seq<Row> {
    var sorted := SortNewestFirst(rows);
    if |sorted| <= Limit then [] else sorted[Limit..]
  }

  /** The `audits` array of a successful answer. */
  function Recent(rows: seq<Row>): (r: seq<RecentAudit>)
    ensures |r| == if |rows| < Limit then |rows| else Limit
    ensures forall i, j :: 0 <= i < j < |r| ==> r[j].updatedAt <= r[i].updatedAt
  {
    var top := Top(rows);
    seq(|top|, i requires 0 <= i < |top| => Project(top[i]))
  }

  /**
    The ten returned rows are the most recent ones: together with the dropped
    rows they are exactly the table's rows, and no dropped row was updated
    after any returned one.
  */
  lemma RecentIsTopTen(rows: seq<Row>)
    ensures multiset(Top(rows)) + multiset(Omitted(rows)) == multiset(rows)
    ensures forall x, y :: x in Top(rows) && y in Omitted(rows) ==> y.audit.updatedAt <= x.audit.updatedAt
    ensures |Omitted(rows)| > 0 ==> |Top(rows)| == Limit
  {
    var sorted := SortNewestFirst(rows);
    if |sorted| > Limit {
      var top, rest := sorted[..Limit], sorted[Limit..];
      assert sorted == top + rest;
      assert multiset(top) + multiset(rest) == multiset(rows);
      forall x, y | x in top && y in rest
        ensures y.audit.updatedAt <= x.audit.updatedAt
      {
        var i :| 0 <= i < |top| && top[i] == x;
        var j :| 0 <= j < |rest| && rest[j] == y;
        assert sorted[i] == x && sorted[Limit + j] == y;
      }
    }
  }

  /** Every returned entry is the projection of a row of the table. */
  lemma RecentEntriesAreStored(rows: seq<Row>)
    ensures forall i :: 0 <= i < |Recent(rows)| ==>
      exists k :: 0 <= k < |rows| && Recent(rows)[i] == Project(rows[k])
  {
    var top := Top(rows);
    var sorted := SortNewestFirst(rows);
    forall i | 0 <= i < |Recent(rows)|
      ensures exists k :: 0 <= k < |rows| && Recent(rows)[i] == Project(rows[k])
    {
      assert top[i] == sorted[i];
      assert sorted[i] in multiset(rows);
      var k :| 0 <= k < |rows| && rows[k] == sorted[i];
    }
  }

  /** How the store answered the query. */
  datatype QueryAnswer = Answered | QueryError | NoData | Threw

  /** The handler's reply: 200 `{audits}` or 500 `{error}`. */
  datatype RecentReply = Audits(audits: seq<RecentAudit>) | Error(error: string)

  /** The handler over the table's rows; it changes nothing. */
  function Get(answer: QueryAnswer, rows: seq<Row>): (r: RecentReply)
    ensures r.Audits? ==> |r.audits| <= Limit
    ensures r.Audits? ==> forall i, j :: 0 <= i < j < |r.audits| ==> r.audits[j].updatedAt <= r.audits[i].updatedAt
    ensures r.Error? <==> answer.QueryError? || answer.Threw?
    ensures answer.Answered? ==> r == Audits(Recent(rows))
    ensures answer.NoData? ==> r == Audits([])
    ensures answer.QueryError? ==> r == Error("Failed to fetch recent audits")
    ensures answer.Threw? ==> r == Error("Internal server error")
  {
    match answer
    case Answered => Audits(Recent(rows))
    case QueryError => Error("Failed to fetch recent audits")
    case NoData => Audits([])
    case Threw => Error("Internal server error")
  }
}
