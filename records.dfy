/** The level-records endpoint of backend/records/index.py: the request
    dispatch, the upsert of a submitted attempt into level_records, the
    recomputation of a user's total stars, and the three read queries with
    their orderings and limits. The two tables are maps keyed by their
    primary keys; CURRENT_TIMESTAMP is a parameter. */
module Records {
  import opened Optional
  import opened Numeric

  // ---------------------------------------------------------------------
  // Rows and their ordering

  /** A level_records row, keyed by (user_id, level_id). */
  datatype Record = Record(attempts: nat, bestProgress: real, completed: bool, starsEarned: int, completedAt: Option<int>)

  /** The columns of a users row that this endpoint reads and writes. */
  datatype User = User(username: string, totalStars: int)

  type Key = (int, int)

  /** An ORDER BY key: rows are compared on major first, then minor,
      ascending. */
  datatype Rank = Rank(major: int, minor: int)

  predicate RankLe(a: Rank, b: Rank) {
    a.major < b.major || (a.major == b.major && a.minor <= b.minor)
  }

  predicate SortedBy<T>(xs: seq<T>, rank: T -> Rank) {
    forall i :: 0 < i < |xs| ==> RankLe(rank(xs[i - 1]), rank(xs[i]))
  }

  function Insert<T>(x: T, xs: seq<T>, rank: T -> Rank): (r: seq<T>)
    requires SortedBy(xs, rank)
    ensures SortedBy(r, rank) && multiset(r) == multiset(xs) + multiset{x}
    ensures |r| > 0 && (r[0] == x || (|xs| > 0 && r[0] == xs[0]))
  {
    if |xs| == 0 then [x]
    else if RankLe(rank(x), rank(xs[0])) then [x] + xs
    else
      assert xs == [xs[0]] + xs[1..];
      [xs[0]] + Insert(x, xs[1..], rank)
  }

  /** ORDER BY: the rows rearranged into ascending rank. */
  function SortByRank<T>(xs: seq<T>, rank: T -> Rank): (r: seq<T>)
    ensures SortedBy(r, rank) && multiset(r) == multiset(xs) && |r| == |xs|
  {
    if |xs| == 0 then []
    else
      assert xs == [xs[0]] + xs[1..];
      Insert(xs[0], SortByRank(xs[1..], rank), rank)
  }

  lemma {:induction false} SortedIsOrdered<T>(xs: seq<T>, rank: T -> Rank, i: nat, j: nat)
    requires SortedBy(xs, rank) && i <= j < |xs|
    ensures RankLe(rank(xs[i]), rank(xs[j]))
    decreases j - i
  {
    if i < j {
      SortedIsOrdered(xs, rank, i, j - 1);
    }
  }

  function MinNat(a: nat, b: nat): nat {
    if a <= b then a else b
  }

  /** ORDER BY ... LIMIT limit: the first limit rows in rank order. */
  function Board<T(!new)>(xs: seq<T>, rank: T -> Rank, limit: nat): (b: seq<T>)
    ensures |b| == MinNat(|xs|, limit)
    ensures SortedBy(b, rank)
    ensures multiset(b) <= multiset(xs)
    ensures forall x, y :: multiset(b)[x] < multiset(xs)[x] && y in b ==> RankLe(rank(y), rank(x))
    ensures |xs| <= limit ==> multiset(b) == multiset(xs)
  {
    var s := SortByRank(xs, rank);
    var n := MinNat(|s|, limit);
    assert s == s[..n] + s[n..];
    BoardSplit(s, rank, n);
    s[..n]
  }

  /** Everything cut off by the limit ranks no better than what is shown. */
  lemma BoardSplit<T>(s: seq<T>, rank: T -> Rank, n: nat)
    requires SortedBy(s, rank) && n <= |s|
    ensures multiset(s) == multiset(s[..n]) + multiset(s[n..])
    ensures forall x, y :: multiset(s[..n])[x] < multiset(s)[x] && y in s[..n] ==> RankLe(rank(y), rank(x))
  {
    assert s == s[..n] + s[n..];
    forall x, y | multiset(s[..n])[x] < multiset(s)[x] && y in s[..n]
      ensures RankLe(rank(y), rank(x))
    {
      assert x in s[n..];
      var j :| n <= j < |s| && s[j] == x;
      var i :| 0 <= i < n && s[i] == y;
      SortedIsOrdered(s, rank, i, j);
    }
  }

  /** No two elements share a key. */
  predicate DistinctBy<T>(xs: seq<T>, key: T -> int) {
    forall i, j :: 0 <= i < j < |xs| ==> key(xs[i]) != key(xs[j])
  }

  /** In a sequence with distinct keys every element occurs once. */
  lemma OnceCounted<T>(xs: seq<T>, key: T -> int, p: nat)
    requires DistinctBy(xs, key) && p < |xs|
    ensures multiset(xs)[xs[p]] == 1
  {
    assert xs == xs[..p] + [xs[p]] + xs[p + 1..];
    forall q | 0 <= q < |xs| && q != p ensures xs[q] != xs[p] {
      if q < p {
        assert key(xs[q]) != key(xs[p]);
      } else {
        assert key(xs[p]) != key(xs[q]);
      }
    }
    assert xs[p] !in xs[..p];
    assert xs[p] !in xs[p + 1..];
  }

  lemma TwiceCounted<T>(b: seq<T>, i: nat, j: nat)
    requires i < j < |b| && b[i] == b[j]
    ensures multiset(b)[b[i]] >= 2
  {
    assert b == b[..j] + b[j..];
    assert b[i] in b[..j];
    assert b[j..][0] == b[j];
  }

  /** Picking rows out of a sequence with distinct keys, without adding any,
      keeps the keys distinct. */
  lemma DistinctByKept<T>(b: seq<T>, xs: seq<T>, key: T -> int)
    requires multiset(b) <= multiset(xs) && DistinctBy(xs, key)
    ensures DistinctBy(b, key)
  {
    forall i, j | 0 <= i < j < |b| ensures key(b[i]) != key(b[j]) {
      assert b[i] in multiset(xs) && b[j] in multiset(xs);
      var p :| 0 <= p < |xs| && xs[p] == b[i];
      var q :| 0 <= q < |xs| && xs[q] == b[j];
      if p == q {
        TwiceCounted(b, i, j);
        OnceCounted(xs, key, p);
        assert false;
      } else if p < q {
        assert key(xs[p]) != key(xs[q]);
      } else {
        assert key(xs[q]) != key(xs[p]);
      }
    }
  }

  // ---------------------------------------------------------------------
  // The upsert

  /** INSERT ... ON CONFLICT (user_id, level_id) DO UPDATE: the record a
      submission leaves, given the record it finds (if any). */
  function Merge(prior: Option<Record>, progress: real, completed: bool, stars: int, now: int): (r: Record)
    ensures r.attempts == if prior.Some? then prior.value.attempts + 1 else 1
    ensures r.bestProgress >= progress && (prior.Some? ==> r.bestProgress >= prior.value.bestProgress)
    ensures r.bestProgress == progress || (prior.Some? && r.bestProgress == prior.value.bestProgress)
    ensures r.completed <==> completed || (prior.Some? && prior.value.completed)
    ensures completed || prior.None? ==> r.starsEarned == stars
    ensures !completed && prior.Some? ==> r.starsEarned == prior.value.starsEarned
    ensures prior.Some? && prior.value.completedAt.Some? ==> r.completedAt == prior.value.completedAt
    ensures completed && (prior.None? || prior.value.completedAt.None?) ==> r.completedAt == Some(now)
    ensures !completed ==> r.completedAt == if prior.Some? then prior.value.completedAt else None
  {
    match prior
    case None =>
      Record(1, progress, completed, stars, if completed then Some(now) else None)
    case Some(existing) =>
      Record(existing.attempts + 1,
             Max(existing.bestProgress, progress),
             if completed then true else existing.completed,
             if completed then stars else existing.starsEarned,
             if completed && existing.completedAt.None? then Some(now) else existing.completedAt)
  }

  /** A record is completed exactly when it has a completion time. */
  predicate Stamped(r: Record) {
    r.completed <==> r.completedAt.Some?
  }

  lemma MergeKeepsStamped(prior: Option<Record>, progress: real, completed: bool, stars: int, now: int)
    requires prior.Some? ==> Stamped(prior.value)
    ensures Stamped(Merge(prior, progress, completed, stars, now))
  {
  }

  /** Two submissions in a row: attempts count both, the best progress is
      the best of the three values, a completion is never undone and its
      time is the first completing submission's. */
  lemma MergeTwice(prior: Option<Record>, p1: real, c1: bool, s1: int, t1: int, p2: real, c2: bool, s2: int, t2: int)
    requires prior.Some? ==> Stamped(prior.value)
    ensures var r1 := Merge(prior, p1, c1, s1, t1);
      var r2 := Merge(Some(r1), p2, c2, s2, t2);
      && r2.attempts == r1.attempts + 1
      && r2.bestProgress >= p1 && r2.bestProgress >= p2
      && (r1.completed ==> r2.completed && r2.completedAt == r1.completedAt)
      && (c1 && (prior.None? || !prior.value.completed) ==> r2.completedAt == Some(t1))
  {
    MergeKeepsStamped(prior, p1, c1, s1, t1);
  }

  /** What a user's completed record adds to total_stars. */
  function Contribution(recs: map<Key, Record>, u: int, k: Key): int {
    if k in recs && k.0 == u && recs[k].completed then recs[k].starsEarned else 0
  }

  /** The sum of the contributions over a set of keys. */
  ghost function Total(recs: map<Key, Record>, u: int, keys: set<Key>): int
    decreases keys
  {
    if keys == {} then 0
    else
      var k :| k in keys;
      Contribution(recs, u, k) + Total(recs, u, keys - {k})
  }

  /** SELECT COALESCE(SUM(stars_earned), 0) FROM level_records
      WHERE user_id = u AND completed = TRUE. */
  ghost function UserStars(recs: map<Key, Record>, u: int): int {
    Total(recs, u, recs.Keys)
  }

  /** The sum does not depend on the key Total happens to pick first. */
  lemma {:induction false} TotalRemove(recs: map<Key, Record>, u: int, keys: set<Key>, k: Key)
    requires k in keys
    ensures Total(recs, u, keys) == Contribution(recs, u, k) + Total(recs, u, keys - {k})
    decreases keys
  {
    var j :| j in keys && Total(recs, u, keys) == Contribution(recs, u, j) + Total(recs, u, keys - {j});
    if j != k {
      TotalRemove(recs, u, keys - {j}, k);
      TotalRemove(recs, u, keys - {k}, j);
      assert keys - {j} - {k} == keys - {k} - {j};
    }
  }

  lemma {:induction false} TotalAgree(r1: map<Key, Record>, r2: map<Key, Record>, u: int, keys: set<Key>)
    requires forall k :: k in keys ==> Contribution(r1, u, k) == Contribution(r2, u, k)
    ensures Total(r1, u, keys) == Total(r2, u, keys)
    decreases keys
  {
    if keys != {} {
      var k :| k in keys;
      TotalRemove(r1, u, keys, k);
      TotalRemove(r2, u, keys, k);
      TotalAgree(r1, r2, u, keys - {k});
    }
  }

  /** Writing one record whose contribution to u does not change leaves u's
      star sum as it was. */
  lemma StarsUnchanged(recs: map<Key, Record>, u: int, k: Key, r: Record)
    requires Contribution(recs[k := r], u, k) == Contribution(recs, u, k)
    ensures UserStars(recs[k := r], u) == UserStars(recs, u)
  {
    var recs' := recs[k := r];
    forall j | j in recs'.Keys ensures Contribution(recs, u, j) == Contribution(recs', u, j) {
    }
    TotalAgree(recs, recs', u, recs'.Keys);
    if k !in recs {
      TotalRemove(recs, u, recs'.Keys, k);
      assert recs'.Keys - {k} == recs.Keys;
    } else {
      assert recs'.Keys == recs.Keys;
    }
  }

  /** Every user's total_stars is the sum over their completed records. */
  ghost predicate TotalsConsistent(recs: map<Key, Record>, users: map<int, User>) {
    forall u :: u in users ==> users[u].totalStars == UserStars(recs, u)
  }

  // ---------------------------------------------------------------------
  // The query rows

  /** A user_records row: the level and its record. */
  datatype RecordRow = RecordRow(levelId: int, record: Record)

  /** A per-level leaderboard row, with the user it belongs to. */
  datatype LevelRow = LevelRow(userId: int, username: string, attempts: nat, bestProgress: real,
                               completed: bool, starsEarned: int, completedAt: Option<int>)

  /** A global leaderboard row, with the user it belongs to. */
  datatype GlobalRow = GlobalRow(userId: int, username: string, totalStars: int, levelsCompleted: nat)

  /** ORDER BY level_id. */
  function RecordRank(x: RecordRow): Rank {
    Rank(x.levelId, 0)
  }

  /** ORDER BY completed_at ASC, with a missing time last as in PostgreSQL. */
  function LevelRank(x: LevelRow): Rank {
    if x.completedAt.Some? then Rank(0, x.completedAt.value) else Rank(1, 0)
  }

  /** ORDER BY total_stars DESC, levels_completed DESC. */
  function GlobalRank(x: GlobalRow): Rank {
    Rank(-x.totalStars, -(x.levelsCompleted as int))
  }

  const LEADERBOARD_LIMIT: nat := 100

  // ---------------------------------------------------------------------
  // Requests and their dispatch

  /** The submitted JSON body; a field may be absent. */
  datatype Body = Body(userId: Option<int>, levelId: Option<int>, progress: Option<real>,
                       completed: Option<bool>, starsEarned: Option<int>)

  /** A query-string parameter: its text, and what int() makes of it
      (None when int() raises). */
  datatype Param = Param(text: string, asInt: Option<int>)

  datatype Query = Query(action: Option<string>, userId: Option<Param>, levelId: Option<Param>)

  datatype Request = Request(httpMethod: Option<string>, body: Body, query: Query)

  /** What a request is dispatched to. */
  datatype Route =
    | Preflight
    | MissingFields
    | SubmitRecord(userId: int, levelId: int, progress: real, completed: bool, stars: int)
    | MissingUserId
    | UserRecordsOf(userId: int)
    | LevelBoardOf(levelId: int)
    | GlobalBoard
    | ServerError
    | NotAllowed

  function MethodOf(req: Request): string {
    if req.httpMethod.Some? then req.httpMethod.value else "GET"
  }

  function ActionOf(q: Query): string {
    if q.action.Some? then q.action.value else "user_records"
  }

  /** Python truthiness of a JSON id: absent and 0 are false. */
  predicate TruthyId(v: Option<int>) {
    v.Some? && v.value != 0
  }

  /** Python truthiness of a query parameter: absent and "" are false. */
  predicate TruthyParam(p: Option<Param>) {
    p.Some? && p.value.text != ""
  }

  function OrElse<T>(v: Option<T>, fallback: T): T {
    if v.Some? then v.value else fallback
  }

  function RouteOf(req: Request): (r: Route)
    ensures r == Preflight <==> MethodOf(req) == "OPTIONS"
    ensures r == MissingFields <==>
              MethodOf(req) == "POST" && !(TruthyId(req.body.userId) && req.body.levelId.Some?)
    ensures r.SubmitRecord? <==>
              MethodOf(req) == "POST" && TruthyId(req.body.userId) && req.body.levelId.Some?
    ensures r.SubmitRecord? ==>
              && r.userId == req.body.userId.value && r.levelId == req.body.levelId.value
              && r.progress == OrElse(req.body.progress, 0.0)
              && r.completed == OrElse(req.body.completed, false)
              && r.stars == OrElse(req.body.starsEarned, 0)
    ensures r == MissingUserId <==>
              MethodOf(req) == "GET" && ActionOf(req.query) == "user_records" && !TruthyParam(req.query.userId)
    ensures r.UserRecordsOf? <==>
              MethodOf(req) == "GET" && ActionOf(req.query) == "user_records"
              && TruthyParam(req.query.userId) && req.query.userId.value.asInt.Some?
    ensures r.UserRecordsOf? ==> req.query.userId.Some? && req.query.userId.value.asInt == Some(r.userId)
    ensures r.LevelBoardOf? <==>
              MethodOf(req) == "GET" && ActionOf(req.query) == "leaderboard"
              && TruthyParam(req.query.levelId) && req.query.levelId.value.asInt.Some?
    ensures r.LevelBoardOf? ==> req.query.levelId.Some? && req.query.levelId.value.asInt == Some(r.levelId)
    ensures r == ServerError <==>
              MethodOf(req) == "GET"
              && ((ActionOf(req.query) == "user_records"
                   && TruthyParam(req.query.userId) && req.query.userId.value.asInt.None?)
                  || (ActionOf(req.query) == "leaderboard"
                      && TruthyParam(req.query.levelId) && req.query.levelId.value.asInt.None?))
    ensures r == GlobalBoard <==>
              MethodOf(req) == "GET" && ActionOf(req.query) == "leaderboard" && !TruthyParam(req.query.levelId)
    ensures r == NotAllowed <==>
              (MethodOf(req) != "OPTIONS" && MethodOf(req) != "POST" && MethodOf(req) != "GET")
              || (MethodOf(req) == "GET" && ActionOf(req.query) != "user_records" && ActionOf(req.query) != "leaderboard")
  {
    var verb := MethodOf(req);
    if verb == "OPTIONS" then Preflight
    else if verb == "POST" then
      var b := req.body;
      if !(TruthyId(b.userId) && b.levelId.Some?) then MissingFields
      else SubmitRecord(b.userId.value, b.levelId.value, OrElse(b.progress, 0.0),
                        OrElse(b.completed, false), OrElse(b.starsEarned, 0))
    else if verb == "GET" then
      var q := req.query;
      var action := ActionOf(q);
      if action == "user_records" then
        if !TruthyParam(q.userId) then MissingUserId
        else if q.userId.value.asInt.None? then ServerError
        else UserRecordsOf(q.userId.value.asInt.value)
      else if action == "leaderboard" then
        if !TruthyParam(q.levelId) then GlobalBoard
        else if q.levelId.value.asInt.None? then ServerError
        else LevelBoardOf(q.levelId.value.asInt.value)
      else NotAllowed
    else NotAllowed
  }

  function StatusOf(r: Route): (code: int)
    ensures code == 200 <==> r.Preflight? || r.SubmitRecord? || r.UserRecordsOf? || r.LevelBoardOf? || r.GlobalBoard?
    ensures code == 400 <==> r.MissingFields? || r.MissingUserId?
    ensures code == 405 <==> r.NotAllowed?
    ensures code == 500 <==> r.ServerError?
  {
    match r
    case Preflight => 200
    case MissingFields => 400
    case SubmitRecord(_, _, _, _, _) => 200
    case MissingUserId => 400
    case UserRecordsOf(_) => 200
    case LevelBoardOf(_) => 200
    case GlobalBoard => 200
    case ServerError => 500
    case NotAllowed => 405
  }

  /** A level id of 0 is accepted, a user id of 0 is refused, and a missing
      method is read as GET. */
  lemma ZeroIds(levelId: int, userId: int)
    ensures RouteOf(Request(Some("POST"), Body(Some(userId), Some(0), None, None, None), Query(None, None, None))).SubmitRecord?
            <==> userId != 0
    ensures RouteOf(Request(Some("POST"), Body(Some(0), Some(levelId), None, None, None), Query(None, None, None))) == MissingFields
    ensures RouteOf(Request(None, Body(None, None, None, None, None), Query(None, None, None))) == MissingUserId
  {
  }

  datatype Payload =
    | NoContent
    | Error(message: string)
    | SavedRecord(record: Record)
    | RecordList(records: seq<RecordRow>)
    | LevelBoardRows(levelRows: seq<LevelRow>)
    | GlobalBoardRows(globalRows: seq<GlobalRow>)

  datatype Response = Response(status: int, payload: Payload)

  /** A non-empty set of ids has a member: `:|` over a set of integers
      needs this witness spelled out. */
  lemma NonEmptyHasMember(s: set<int>)
    requires s != {}
    ensures exists u :: u in s
  {
    if forall u :: u !in s {
      assert false;
    }
  }

  // ---------------------------------------------------------------------
  // The database

  class Database {
    var records: map<Key, Record>
    var users: map<int, User>

    ghost predicate Valid()
      reads this
    {
      && (forall k :: k in records ==> Stamped(records[k]) && records[k].attempts >= 1)
      && TotalsConsistent(records, users)
    }

    /** An empty level_records table beside users who have no stars yet. */
    constructor (initialUsers: map<int, User>)
      requires forall u :: u in initialUsers ==> initialUsers[u].totalStars == 0
      ensures Valid() && records == map[] && users == initialUsers
    {
      records := map[];
      users := initialUsers;
      new;
      forall u | u in users ensures users[u].totalStars == UserStars(records, u) {
        assert records.Keys == {};
      }
    }

    /** The SUM subquery of the total_stars update. */
    method SumCompletedStars(u: int) returns (total: int)
      ensures total == UserStars(records, u)
    {
      total := 0;
      var remaining := records.Keys;
      while remaining != {}
        invariant remaining <= records.Keys
        invariant total + Total(records, u, remaining) == UserStars(records, u)
        decreases |remaining|
      {
        var k :| k in remaining;
        TotalRemove(records, u, remaining, k);
        if k.0 == u && records[k].completed {
          total := total + records[k].starsEarned;
        }
        remaining := remaining - {k};
      }
    }

    /** The POST path after validation: the upsert, then, for a completed
        submission, the recomputation of the user's total_stars (an UPDATE
        that touches no row when there is no such user). */
    method Submit(userId: int, levelId: int, progress: real, completed: bool, stars: int, now: int)
      returns (record: Record)
      requires Valid()
      modifies this
      ensures Valid()
      ensures record == Merge(if (userId, levelId) in old(records) then Some(old(records)[(userId, levelId)]) else None,
                              progress, completed, stars, now)
      ensures records == old(records)[(userId, levelId) := record]
      ensures completed && userId in old(users) ==>
                users == old(users)[userId := old(users)[userId].(totalStars := UserStars(records, userId))]
      ensures !(completed && userId in old(users)) ==> users == old(users)
    {
      var key := (userId, levelId);
      var prior := if key in records then Some(records[key]) else None;
      record := Merge(prior, progress, completed, stars, now);
      MergeKeepsStamped(prior, progress, completed, stars, now);
      ghost var before := records;
      records := records[key := record];
      forall u | u in users && (u != userId || !completed)
        ensures UserStars(records, u) == UserStars(before, u)
      {
        StarsUnchanged(before, u, key, record);
      }
      if completed && userId in users {
        var total := SumCompletedStars(userId);
        users := users[userId := users[userId].(totalStars := total)];
      }
    }

    /** What SELECT * FROM level_records WHERE user_id = u ORDER BY level_id
        returns: exactly the user's records, one per level, by level id. */
    ghost predicate IsUserRecordsAnswer(u: int, rows: seq<RecordRow>)
      reads this
    {
      && (forall i :: 0 < i < |rows| ==> rows[i - 1].levelId < rows[i].levelId)
      && (forall x :: x in rows <==> (u, x.levelId) in records && x.record == records[(u, x.levelId)])
    }

    /** The user's records, one per level, in no order. */
    method RecordRows(u: int) returns (found: seq<RecordRow>)
      ensures forall x :: x in found <==> (u, x.levelId) in records && x.record == records[(u, x.levelId)]
      ensures forall i, j :: 0 <= i < j < |found| ==> found[i].levelId != found[j].levelId
    {
      found := [];
      var remaining := records.Keys;
      while remaining != {}
        invariant remaining <= records.Keys
        invariant forall x :: x in found <==>
          (u, x.levelId) in records.Keys - remaining && x.record == records[(u, x.levelId)]
        invariant forall i, j :: 0 <= i < j < |found| ==> found[i].levelId != found[j].levelId
        decreases |remaining|
      {
        var k :| k in remaining;
        if k.0 == u {
          forall i | 0 <= i < |found| ensures found[i].levelId != k.1 {
            assert found[i] in found;
          }
          found := found + [RecordRow(k.1, records[k])];
        }
        remaining := remaining - {k};
      }
    }

    method UserRecords(u: int) returns (rows: seq<RecordRow>)
      ensures IsUserRecordsAnswer(u, rows)
    {
      var found := RecordRows(u);
      rows := SortByRank(found, RecordRank);
      DistinctByKept(rows, found, (x: RecordRow) => x.levelId);
      forall i | 0 < i < |rows| ensures rows[i - 1].levelId < rows[i].levelId {
        assert RankLe(RecordRank(rows[i - 1]), RecordRank(rows[i]));
      }
      forall x ensures x in rows <==> x in found {
        assert multiset(rows)[x] == multiset(found)[x];
      }
    }

    /** The row of a completed record on the per-level leaderboard. */
    function LevelRowOf(k: Key): LevelRow
      reads this
      requires k in records && k.0 in users
    {
      var r := records[k];
      LevelRow(k.0, users[k.0].username, r.attempts, r.bestProgress, r.completed, r.starsEarned, r.completedAt)
    }

    /** A row the per-level query selects: a completed record of the level
        whose user exists (the inner join). */
    ghost predicate IsLevelRow(levelId: int, x: LevelRow)
      reads this
    {
      var k := (x.userId, levelId);
      k in records && records[k].completed && x.userId in users && x == LevelRowOf(k)
    }

    /** The keys of the rows the per-level query selects. */
    function LevelKeys(levelId: int): set<Key>
      reads this
    {
      set k | k in records && k.1 == levelId && records[k].completed && k.0 in users
    }

    /** What the per-level query returns: 100 of its rows, or all of them
        when there are fewer, one per user, first completion first, and no
        row left out completed before a row shown. */
    ghost predicate IsLevelBoardAnswer(levelId: int, board: seq<LevelRow>)
      reads this
    {
      && |board| == MinNat(|LevelKeys(levelId)|, LEADERBOARD_LIMIT)
      && SortedBy(board, LevelRank)
      && (forall i, j :: 0 <= i < j < |board| ==> board[i].userId != board[j].userId)
      && (forall x :: x in board ==> IsLevelRow(levelId, x))
      && (|board| < LEADERBOARD_LIMIT ==> forall x :: IsLevelRow(levelId, x) ==> x in board)
      && (forall x, y :: IsLevelRow(levelId, x) && x !in board && y in board ==> RankLe(LevelRank(y), LevelRank(x)))
    }

    /** The rows of the join, one per selected key, in no order. */
    method LevelRows(levelId: int) returns (found: seq<LevelRow>)
      ensures forall x :: x in found <==> IsLevelRow(levelId, x)
      ensures forall i, j :: 0 <= i < j < |found| ==> found[i].userId != found[j].userId
      ensures |found| == |LevelKeys(levelId)|
    {
      found := [];
      var remaining := LevelKeys(levelId);
      while remaining != {}
        invariant remaining <= LevelKeys(levelId)
        invariant forall x :: x in found <==> IsLevelRow(levelId, x) && (x.userId, levelId) !in remaining
        invariant forall i, j :: 0 <= i < j < |found| ==> found[i].userId != found[j].userId
        invariant |found| + |remaining| == |LevelKeys(levelId)|
        decreases |remaining|
      {
        var k :| k in remaining;
        forall i | 0 <= i < |found| ensures found[i].userId != k.0 {
          assert found[i] in found;
        }
        found := found + [LevelRowOf(k)];
        remaining := remaining - {k};
      }
    }

    /** ORDER BY completed_at LIMIT 100 over those rows answers the query. */
    lemma LevelBoardOfRows(levelId: int, found: seq<LevelRow>)
      requires forall x :: x in found <==> IsLevelRow(levelId, x)
      requires forall i, j :: 0 <= i < j < |found| ==> found[i].userId != found[j].userId
      requires |found| == |LevelKeys(levelId)|
      ensures IsLevelBoardAnswer(levelId, Board(found, LevelRank, LEADERBOARD_LIMIT))
    {
      var board := Board(found, LevelRank, LEADERBOARD_LIMIT);
      DistinctByKept(board, found, (x: LevelRow) => x.userId);
      forall x | x in board ensures IsLevelRow(levelId, x) {
        assert multiset(board)[x] > 0;
      }
      if |board| < LEADERBOARD_LIMIT {
        forall x | IsLevelRow(levelId, x) ensures x in board {
          assert multiset(found)[x] > 0;
        }
      }
      forall x, y | IsLevelRow(levelId, x) && x !in board && y in board
        ensures RankLe(LevelRank(y), LevelRank(x))
      {
        assert multiset(board)[x] < multiset(found)[x];
      }
    }

    method LevelLeaderboard(levelId: int) returns (board: seq<LevelRow>)
      ensures IsLevelBoardAnswer(levelId, board)
    {
      var found := LevelRows(levelId);
      board := Board(found, LevelRank, LEADERBOARD_LIMIT);
      LevelBoardOfRows(levelId, found);
    }

    /** COUNT(lr.id) of the LEFT JOIN: the user's completed records. */
    function LevelsCompleted(u: int): nat
      reads this
    {
      |set k | k in records.Keys && k.0 == u && records[k].completed|
    }

    function GlobalRowOf(u: int): GlobalRow
      reads this
      requires u in users
    {
      GlobalRow(u, users[u].username, users[u].totalStars, LevelsCompleted(u))
    }

    ghost predicate IsGlobalRow(x: GlobalRow)
      reads this
    {
      x.userId in users && x == GlobalRowOf(x.userId)
    }

    /** What the global query returns: one row per user, most stars first,
        then most levels completed, 100 rows or every user when there are
        fewer, and no user left out ranks above a user shown. */
    ghost predicate IsGlobalBoardAnswer(board: seq<GlobalRow>)
      reads this
    {
      && |board| == MinNat(|users|, LEADERBOARD_LIMIT)
      && SortedBy(board, GlobalRank)
      && (forall i, j :: 0 <= i < j < |board| ==> board[i].userId != board[j].userId)
      && (forall x :: x in board ==> IsGlobalRow(x))
      && (|users| <= LEADERBOARD_LIMIT ==> forall u :: u in users ==> GlobalRowOf(u) in board)
      && (forall x, y :: IsGlobalRow(x) && x !in board && y in board ==> RankLe(GlobalRank(y), GlobalRank(x)))
    }

    /** The grouped rows, one per user, in no order. */
    method GlobalRows() returns (found: seq<GlobalRow>)
      ensures forall x :: x in found <==> IsGlobalRow(x)
      ensures forall i, j :: 0 <= i < j < |found| ==> found[i].userId != found[j].userId
      ensures |found| == |users|
    {
      found := [];
      var remaining := users.Keys;
      while remaining != {}
        invariant remaining <= users.Keys
        invariant forall x :: x in found <==> IsGlobalRow(x) && x.userId !in remaining
        invariant forall i, j :: 0 <= i < j < |found| ==> found[i].userId != found[j].userId
        invariant |found| + |remaining| == |users|
        decreases |remaining|
      {
        NonEmptyHasMember(remaining);
        var u :| u in remaining;
        forall i | 0 <= i < |found| ensures found[i].userId != u {
          assert found[i] in found;
        }
        found := found + [GlobalRowOf(u)];
        remaining := remaining - {u};
      }
    }

    /** ORDER BY total_stars DESC, levels_completed DESC LIMIT 100 over those
        rows answers the query. */
    lemma GlobalBoardOfRows(found: seq<GlobalRow>)
      requires forall x :: x in found <==> IsGlobalRow(x)
      requires forall i, j :: 0 <= i < j < |found| ==> found[i].userId != found[j].userId
      requires |found| == |users|
      ensures IsGlobalBoardAnswer(Board(found, GlobalRank, LEADERBOARD_LIMIT))
    {
      var board := Board(found, GlobalRank, LEADERBOARD_LIMIT);
      DistinctByKept(board, found, (x: GlobalRow) => x.userId);
      forall x | x in board ensures IsGlobalRow(x) {
        assert multiset(board)[x] > 0;
      }
      GlobalBoardShowsAll(found);
      forall x, y | IsGlobalRow(x) && x !in board && y in board
        ensures RankLe(GlobalRank(y), GlobalRank(x))
      {
        assert multiset(board)[x] < multiset(found)[x];
      }
    }

    /** With at most 100 users, every user is on the board. */
    lemma GlobalBoardShowsAll(found: seq<GlobalRow>)
      requires forall x :: x in found <==> IsGlobalRow(x)
      requires |found| == |users|
      ensures |users| <= LEADERBOARD_LIMIT ==>
                forall u :: u in users ==> GlobalRowOf(u) in Board(found, GlobalRank, LEADERBOARD_LIMIT)
    {
      var board := Board(found, GlobalRank, LEADERBOARD_LIMIT);
      if |users| <= LEADERBOARD_LIMIT {
        forall u | u in users ensures GlobalRowOf(u) in board {
          assert IsGlobalRow(GlobalRowOf(u));
          assert multiset(found)[GlobalRowOf(u)] > 0;
        }
      }
    }

    method GlobalLeaderboard() returns (board: seq<GlobalRow>)
      ensures IsGlobalBoardAnswer(board)
    {
      var found := GlobalRows();
      board := Board(found, GlobalRank, LEADERBOARD_LIMIT);
      GlobalBoardOfRows(found);
    }

    /** handler: dispatch, then the route's reply; only a submission writes. */
    method Handle(req: Request, now: int) returns (resp: Response)
      requires Valid()
      modifies this
      ensures Valid()
      ensures resp.status == StatusOf(RouteOf(req))
      ensures !RouteOf(req).SubmitRecord? ==> records == old(records) && users == old(users)
      ensures RouteOf(req).SubmitRecord? ==>
                var r := RouteOf(req);
                (r.userId, r.levelId) in records && resp.payload == SavedRecord(records[(r.userId, r.levelId)])
      ensures RouteOf(req).SubmitRecord? ==>
                var r := RouteOf(req);
                var key := (r.userId, r.levelId);
                && records == old(records)[key := Merge(if key in old(records) then Some(old(records)[key]) else None,
                                                        r.progress, r.completed, r.stars, now)]
                && (r.completed && r.userId in old(users) ==>
                      users == old(users)[r.userId := old(users)[r.userId].(totalStars := UserStars(records, r.userId))])
                && (!(r.completed && r.userId in old(users)) ==> users == old(users))
      ensures RouteOf(req).UserRecordsOf? ==>
                resp.payload.RecordList? && IsUserRecordsAnswer(RouteOf(req).userId, resp.payload.records)
      ensures RouteOf(req).LevelBoardOf? ==>
                resp.payload.LevelBoardRows? && IsLevelBoardAnswer(RouteOf(req).levelId, resp.payload.levelRows)
      ensures RouteOf(req) == GlobalBoard ==>
                resp.payload.GlobalBoardRows? && IsGlobalBoardAnswer(resp.payload.globalRows)
      ensures RouteOf(req) == Preflight ==> resp.payload == NoContent
      ensures resp.status != 200 ==> resp.payload.Error?
    {
      var route := RouteOf(req);
      match route
      case Preflight =>
        resp := Response(200, NoContent);
      case MissingFields =>
        resp := Response(400, Error("Missing required fields"));
      case SubmitRecord(userId, levelId, progress, completed, stars) =>
        var record := Submit(userId, levelId, progress, completed, stars, now);
        resp := Response(200, SavedRecord(record));
      case MissingUserId =>
        resp := Response(400, Error("Missing userId"));
      case UserRecordsOf(u) =>
        var rows := UserRecords(u);
        resp := Response(200, RecordList(rows));
      case LevelBoardOf(levelId) =>
        var rows := LevelLeaderboard(levelId);
        resp := Response(200, LevelBoardRows(rows));
      case GlobalBoard =>
        var rows := GlobalLeaderboard();
        resp := Response(200, GlobalBoardRows(rows));
      case ServerError =>
        resp := Response(500, Error("invalid literal for int()"));
      case NotAllowed =>
        resp := Response(405, Error("Method not allowed"));
    }
  }
}
