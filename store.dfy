/**
 * An in-memory stand-in for the record store: it answers a request value over
 * a sequence of rows. What the real store decides on its own (a transport or
 * policy failure, the server-assigned id and times) is passed in. Every answer
 * is a `{data, error}` reply, and `Settle` is the helpers' shared
 * `if (error) throw error; return data;`.
 */
module Store {
  import opened Wrappers
  import opened Database
  import opened Query

  datatype BackendError = BackendError(code: string, message: string)

  /** PostgREST's answer when `.single()` finds zero rows or several. */
  const NotOneRow := BackendError("PGRST116", "JSON object requested, multiple (or no) rows returned")

  /** The `{ data, error }` pair every query resolves to. */
  datatype Reply<T> = Reply(data: Option<T>, error: Option<BackendError>)

  /** Throw the error if there is one, otherwise return the data: never both. */
  function Settle<T>(reply: Reply<T>): (r: Result<Option<T>, BackendError>)
    ensures r.Err? <==> reply.error.Some?
    ensures r.Err? ==> r.error == reply.error.value
    ensures r.Ok? ==> r.value == reply.data
  {
    if reply.error.Some? then Err(reply.error.value) else Ok(reply.data)
  }

  /** The rows of table `t` that satisfy every filter, in store order. */
  function Filter(rows: seq<Record>, t: Table, ps: seq<Pred>): (r: seq<Record>)
    ensures |r| <= |rows|
    ensures forall x :: x in r ==> x in rows && TableOf(x) == t && MatchesAll(x, ps)
    ensures forall x :: x in rows && TableOf(x) == t && MatchesAll(x, ps) ==> x in r
  {
    if rows == [] then []
    else if TableOf(rows[0]) == t && MatchesAll(rows[0], ps) then [rows[0]] + Filter(rows[1..], t, ps)
    else Filter(rows[1..], t, ps)
  }

  function Max(a: int, b: int): int { if a < b then b else a }
  function Min(a: int, b: int): int { if a < b then a else b }

  /** The rows at positions `lo <= i < hi`, clipped to the rows that exist. */
  function Slice(rows: seq<Record>, lo: int, hi: int): (r: seq<Record>)
    ensures |r| == Max(0, Min(hi, |rows|) - Max(lo, 0))
    ensures forall i :: 0 <= i < |r| ==> r[i] == rows[Max(lo, 0) + i]
  {
    var a := Min(Max(lo, 0), |rows|);
    var b := Max(Min(hi, |rows|), a);
    rows[a..b]
  }

  /**
   * Pagination: a range selects the positions `from..to` (and replaces the
   * limit, as `.range` sets both offset and limit); otherwise a limit keeps
   * the first rows.
   */
  function Page(rows: seq<Record>, limit: Option<int>, range: Option<RowRange>): (r: seq<Record>)
    ensures forall x :: x in r ==> x in rows
    ensures range.Some? ==> |r| <= Max(0, range.value.to - range.value.from + 1)
    ensures range.None? && limit.Some? ==> |r| <= Max(0, limit.value)
    ensures range.None? && limit.None? ==> r == rows
  {
    if range.Some? then Slice(rows, range.value.from, range.value.to + 1)
    else if limit.Some? then Slice(rows, 0, limit.value)
    else rows
  }

  /** The rows a list query returns: those of its table that pass its filters, paged. */
  function Listed(q: Request, rows: seq<Record>): seq<Record> {
    Page(Filter(rows, q.table, q.filters), q.limit, q.range)
  }

  /** A list query: all matching rows, paged, or the store's error. */
  function RunList(q: Request, rows: seq<Record>, fault: Option<BackendError>): (reply: Reply<seq<Record>>)
    ensures reply.error.Some? <==> fault.Some?
    ensures reply.error.None? ==> reply.data == Some(Listed(q, rows))
  {
    if fault.Some? then Reply(None, fault) else Reply(Some(Listed(q, rows)), None)
  }

  /** Number of rows of table `t` satisfying all filters. */
  function CountMatching(rows: seq<Record>, t: Table, ps: seq<Pred>): nat {
    |Filter(rows, t, ps)|
  }

  /** A `.single()` select: the one matching row, or an error when there is not exactly one. */
  function RunSingle(q: Request, rows: seq<Record>, fault: Option<BackendError>): (reply: Reply<Record>)
    ensures reply.error.None? <==> fault.None? && CountMatching(rows, q.table, q.filters) == 1
    ensures reply.error.None? ==>
      reply.data.Some? && reply.data.value in rows && TableOf(reply.data.value) == q.table && MatchesAll(reply.data.value, q.filters)
  {
    var found := Filter(rows, q.table, q.filters);
    if fault.Some? then Reply(None, fault)
    else if |found| == 1 then Reply(Some(found[0]), None)
    else Reply(None, Some(NotOneRow))
  }

  /**
   * The row the store keeps for an insert body: the body's fields unchanged,
   * plus the stamp. A participant row takes the table's defaults for the
   * columns the body leaves out (not completed, no completion time).
   */
  function Persist(row: NewRow, s: Stamp): Record {
    match row
    case NewRoute(ins) => RouteRow(PersistRoute(ins, s))
    case NewTrailCondition(ins) => TrailConditionRow(PersistTrailCondition(ins, s))
    case NewParticipant(challengeId, userId) =>
      ParticipantRow(PersistParticipant(ParticipantInsert(challengeId, userId, false, None), s))
    case NewUserRun(ins) => UserRunRow(PersistUserRun(ins, s))
  }

  /** `.insert(row).select().single()`: the persisted row, or the store's error. */
  function RunInsert(q: Request, s: Stamp, fault: Option<BackendError>): (reply: Reply<Record>)
    requires q.action.Insert?
    requires q.table == TableOf(Persist(q.action.row, s))
    ensures reply.error.Some? <==> fault.Some?
    ensures reply.error.None? ==> reply.data == Some(Persist(q.action.row, s))
  {
    if fault.Some? then Reply(None, fault) else Reply(Some(Persist(q.action.row, s)), None)
  }

  /**
   * `.update(patch)...select().single()`: a patch is a profile update, so only
   * the profiles table takes it. The answer is the one matching profile with
   * the patch applied, or an error when there is not exactly one.
   */
  function RunUpdate(q: Request, rows: seq<Record>, fault: Option<BackendError>): (reply: Reply<Record>)
    requires q.action.Update?
    ensures reply.error.None? <==> fault.None? && q.table == Profiles && CountMatching(rows, Profiles, q.filters) == 1
    ensures reply.error.None? ==>
      exists p :: ProfileRow(p) in rows && MatchesAll(ProfileRow(p), q.filters)
        && reply.data == Some(ProfileRow(ApplyProfileUpdate(p, q.action.patch)))
  {
    var found := Filter(rows, Profiles, q.filters);
    if fault.Some? then Reply(None, fault)
    else if q.table == Profiles && |found| == 1 then
      assert found[0] in found;
      Reply(Some(ProfileRow(ApplyProfileUpdate(found[0].profile, q.action.patch))), None)
    else Reply(None, Some(NotOneRow))
  }

  /**
   * When every row of a table satisfies exactly one of two filter lists, the
   * two answers split that table's rows between them: nothing is returned
   * twice or lost.
   */
  lemma {:induction false} FilterPartitions(rows: seq<Record>, t: Table, ps: seq<Pred>, qs: seq<Pred>)
    requires forall x :: x in rows && TableOf(x) == t ==> (MatchesAll(x, ps) <==> !MatchesAll(x, qs))
    ensures multiset(Filter(rows, t, ps)) + multiset(Filter(rows, t, qs)) == multiset(Filter(rows, t, []))
    ensures |Filter(rows, t, ps)| + |Filter(rows, t, qs)| == |Filter(rows, t, [])|
  {
    if rows != [] {
      FilterPartitions(rows[1..], t, ps, qs);
      assert rows[0] in rows;
      assert MatchesAll(rows[0], []);
    }
  }
}
