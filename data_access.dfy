/**
 * The data-access helpers of the client library: three list builders that
 * grow a query through a chain of optional filters, and single-chain lookups
 * and mutations that settle the store's reply by throwing its error or
 * returning its data.
 *
 * An options field is applied when it is "truthy" in JavaScript's sense:
 * present and, for a number, not 0. So `maxDistance: 0` or `offset: 0` is the
 * same as leaving the field out.
 */
module DataAccess {
  import opened Wrappers
  import opened Database
  import opened Query
  import opened Store

  /** `if (options?.x)` for a numeric option. */
  predicate Truthy(o: Option<int>) {
    o.Some? && o.value != 0
  }

  /** `options.limit || 10`. */
  function LimitOrDefault(limit: Option<int>): int {
    if Truthy(limit) then limit.value else 10
  }

  /** The author's username and avatar, embedded in route, condition and challenge reads. */
  const ProfileEmbed := Embed(Profiles, Only(["username", "avatar_url"]))

  // ---------------------------------------------------------------------------
  // Pagination, shared by the three list builders

  /**
   * The limit only when truthy, and the range `[offset, offset + (limit || 10) - 1]`
   * only when the offset is truthy.
   */
  ghost predicate PaginatedBy(q: Request, limit: Option<int>, offset: Option<int>) {
    && (q.limit.Some? <==> Truthy(limit))
    && (q.limit.Some? ==> q.limit.value == limit.value)
    && (q.range.Some? <==> Truthy(offset))
    && (q.range.Some? ==> q.range.value == RowRange(offset.value, offset.value + LimitOrDefault(limit) - 1))
  }

  /** The trailing `limit` and `range` steps of a list builder. */
  method Paginate(q0: Request, limit: Option<int>, offset: Option<int>) returns (q: Request)
    requires q0.limit.None? && q0.range.None?
    ensures PaginatedBy(q, limit, offset)
    ensures q == q0.(limit := q.limit, range := q.range)
  {
    q := q0;
    if Truthy(limit) {
      q := q.Limit(limit.value);
    }
    if Truthy(offset) {
      q := q.Range(offset.value, offset.value + LimitOrDefault(limit) - 1);
    }
  }

  /**
   * A truthy offset spans exactly `limit || 10` rows starting at the offset:
   * `offset 20` alone spans rows 20 to 29, `offset 20, limit 5` spans 20 to 24,
   * and `offset 0` adds no range at all.
   */
  lemma PaginationSpan(q: Request, limit: Option<int>, offset: Option<int>)
    requires PaginatedBy(q, limit, offset)
    ensures q.range.Some? ==> q.range.value.from == offset.value
    ensures q.range.Some? ==> q.range.value.to - q.range.value.from + 1 == (if Truthy(limit) then limit.value else 10)
    ensures offset == Some(20) && limit.None? ==> q.range == Some(RowRange(20, 29))
    ensures offset == Some(20) && limit == Some(5) ==> q.range == Some(RowRange(20, 24))
    ensures offset == Some(20) && limit == Some(0) ==> q.range == Some(RowRange(20, 29)) && q.limit.None?
    ensures offset == Some(0) ==> q.range.None?
  {
  }

  /** A paginated listing never returns more than `limit || 10` rows (for a positive one). */
  lemma PagedRowCount(q: Request, limit: Option<int>, offset: Option<int>, rows: seq<Record>)
    requires PaginatedBy(q, limit, offset)
    requires LimitOrDefault(limit) > 0
    ensures Truthy(limit) || Truthy(offset) ==> |Listed(q, rows)| <= LimitOrDefault(limit)
  {
  }

  /** `gte(col, v)` when the option is truthy, nothing otherwise. */
  function AtLeast(col: Column, o: Option<int>): seq<Pred> {
    if Truthy(o) then [Gte(col, o.value)] else []
  }

  /** `lte(col, v)` when the option is truthy, nothing otherwise. */
  function AtMost(col: Column, o: Option<int>): seq<Pred> {
    if Truthy(o) then [Lte(col, o.value)] else []
  }

  // ---------------------------------------------------------------------------
  // getRoutes

  datatype RouteOptions = RouteOptions(
    limit: Option<int>, offset: Option<int>, terrain: Option<seq<TerrainType>>,
    minDistance: Option<int>, maxDistance: Option<int>,
    minDifficulty: Option<int>, maxDifficulty: Option<int>)

  /** `contains('terrain', list)` only for a non-empty list. */
  function TerrainFilter(terrain: Option<seq<TerrainType>>): seq<Pred> {
    if terrain.Some? && |terrain.value| > 0 then [Contains(Terrain, terrain.value)] else []
  }

  /** The filters of a route listing, in the order `getRoutes` adds them. */
  function RouteFilters(opts: RouteOptions): seq<Pred> {
    [Eq(IsPublic, BoolV(true))] + TerrainFilter(opts.terrain)
      + AtLeast(Distance, opts.minDistance) + AtMost(Distance, opts.maxDistance)
      + AtLeast(Difficulty, opts.minDifficulty) + AtMost(Difficulty, opts.maxDifficulty)
  }

  /**
   * Which routes a listing is meant to return: public ones whose terrains
   * include every requested terrain, within each truthy bound (inclusive).
   */
  ghost predicate RouteWanted(opts: RouteOptions, r: Route) {
    && r.isPublic
    && (opts.terrain.Some? ==> forall t :: t in opts.terrain.value ==> t in r.terrain)
    && (Truthy(opts.minDistance) ==> opts.minDistance.value <= r.distance)
    && (Truthy(opts.maxDistance) ==> r.distance <= opts.maxDistance.value)
    && (Truthy(opts.minDifficulty) ==> opts.minDifficulty.value <= r.difficulty)
    && (Truthy(opts.maxDifficulty) ==> r.difficulty <= opts.maxDifficulty.value)
  }

  /** `getRoutes` builds the request by chaining optional filters onto the public-routes select. */
  method BuildRoutesRequest(opts: RouteOptions) returns (q: Request)
    ensures q.table == Routes && q.action == Select([ProfileEmbed])
    ensures q.order.None? && !q.returning && !q.single
    ensures q.filters == RouteFilters(opts)
    ensures PaginatedBy(q, opts.limit, opts.offset)
  {
    q := From(Routes, Select([ProfileEmbed])).Where(Eq(IsPublic, BoolV(true)));
    if opts.terrain.Some? && |opts.terrain.value| > 0 {
      q := q.Where(Contains(Terrain, opts.terrain.value));
    }
    assert q.filters == [Eq(IsPublic, BoolV(true))] + TerrainFilter(opts.terrain);
    if Truthy(opts.minDistance) {
      q := q.Where(Gte(Distance, opts.minDistance.value));
    }
    assert q.filters == [Eq(IsPublic, BoolV(true))] + TerrainFilter(opts.terrain) + AtLeast(Distance, opts.minDistance);
    if Truthy(opts.maxDistance) {
      q := q.Where(Lte(Distance, opts.maxDistance.value));
    }
    ghost var upToDistance := q.filters;
    if Truthy(opts.minDifficulty) {
      q := q.Where(Gte(Difficulty, opts.minDifficulty.value));
    }
    assert q.filters == upToDistance + AtLeast(Difficulty, opts.minDifficulty);
    if Truthy(opts.maxDifficulty) {
      q := q.Where(Lte(Difficulty, opts.maxDifficulty.value));
    }
    q := Paginate(q, opts.limit, opts.offset);
  }

  /** On route rows the listing's filters mean exactly `RouteWanted`. */
  lemma {:induction false} RouteFiltersMeaning(opts: RouteOptions, r: Route)
    ensures MatchesAll(RouteRow(r), RouteFilters(opts)) <==> RouteWanted(opts, r)
  {
    var x := RouteRow(r);
    var a := [Eq(IsPublic, BoolV(true))];
    var b := TerrainFilter(opts.terrain);
    var c := AtLeast(Distance, opts.minDistance);
    var d := AtMost(Distance, opts.maxDistance);
    var e := AtLeast(Difficulty, opts.minDifficulty);
    var f := AtMost(Difficulty, opts.maxDifficulty);
    MatchesAllConcat(x, a + b + c + d + e, f);
    MatchesAllConcat(x, a + b + c + d, e);
    MatchesAllConcat(x, a + b + c, d);
    MatchesAllConcat(x, a + b, c);
    MatchesAllConcat(x, a, b);
    assert MatchesAll(x, a) <==> Matches(x, a[0]);
    if b != [] { assert MatchesAll(x, b) <==> Matches(x, b[0]); }
    if c != [] { assert MatchesAll(x, c) <==> Matches(x, c[0]); }
    if d != [] { assert MatchesAll(x, d) <==> Matches(x, d[0]); }
    if e != [] { assert MatchesAll(x, e) <==> Matches(x, e[0]); }
    if f != [] { assert MatchesAll(x, f) <==> Matches(x, f[0]); }
  }

  /**
   * Every row `getRoutes` returns is a stored, public route within every
   * requested terrain and bound; without pagination every such route is returned.
   */
  method GetRoutes(opts: RouteOptions, rows: seq<Record>, fault: Option<BackendError>) returns (r: Result<Option<seq<Record>>, BackendError>)
    ensures r.Err? <==> fault.Some?
    ensures r.Err? ==> r.error == fault.value
    ensures r.Ok? ==> r.value.Some?
    ensures r.Ok? ==> forall x :: x in r.value.value ==> x in rows && x.RouteRow? && RouteWanted(opts, x.route)
    ensures r.Ok? && !Truthy(opts.limit) && !Truthy(opts.offset) ==>
      forall route :: RouteRow(route) in rows && RouteWanted(opts, route) ==> RouteRow(route) in r.value.value
    ensures r.Ok? && (Truthy(opts.limit) || Truthy(opts.offset)) && LimitOrDefault(opts.limit) > 0 ==>
      |r.value.value| <= LimitOrDefault(opts.limit)
  {
    var q := BuildRoutesRequest(opts);
    r := Settle(RunList(q, rows, fault));
    if r.Ok? {
      if LimitOrDefault(opts.limit) > 0 {
        PagedRowCount(q, opts.limit, opts.offset, rows);
      }
      forall x | x in r.value.value ensures x in rows && x.RouteRow? && RouteWanted(opts, x.route) {
        RouteFiltersMeaning(opts, x.route);
      }
      forall route | RouteRow(route) in rows && RouteWanted(opts, route) && !Truthy(opts.limit) && !Truthy(opts.offset)
        ensures RouteRow(route) in r.value.value
      {
        RouteFiltersMeaning(opts, route);
      }
    }
  }

  /** A bound that is 0 adds no predicate, so `maxDistance: 0` leaves distance unconstrained. */
  lemma ZeroBoundIsNoBound(opts: RouteOptions)
    requires opts.maxDistance == Some(0)
    ensures RouteFilters(opts) == RouteFilters(opts.(maxDistance := None))
  {
  }

  /** The terrain filter asks for a superset: `{trail}` matches a route tagged trail and gravel. */
  lemma TerrainIsSuperset(r: Route, wanted: seq<TerrainType>)
    requires |wanted| > 0
    ensures Matches(RouteRow(r), Contains(Terrain, wanted)) <==> forall t :: t in wanted ==> t in r.terrain
    ensures r.terrain == [Trail, Gravel] && wanted == [Trail] ==> Matches(RouteRow(r), Contains(Terrain, wanted))
  {
  }

  // ---------------------------------------------------------------------------
  // getRouteById

  /** By id: both embeds, no visibility predicate, exactly one row. */
  function RouteByIdRequest(routeId: Uuid): (q: Request)
    ensures q.table == Routes && q.single
    ensures q.action == Select([ProfileEmbed, Embed(RouteRatings, AllColumns)])
    ensures q.filters == [Eq(Id, TextV(routeId))]
  {
    From(Routes, Select([ProfileEmbed, Embed(RouteRatings, AllColumns)])).Where(Eq(Id, TextV(routeId))).Single()
  }

  /** The stored route with that id, when exactly one route has it; rows of other tables never count. */
  function GetRouteById(routeId: Uuid, rows: seq<Record>, fault: Option<BackendError>): (r: Result<Option<Record>, BackendError>)
    ensures r.Ok? <==> fault.None? && CountMatching(rows, Routes, [Eq(Id, TextV(routeId))]) == 1
    ensures r.Ok? ==> r.value.Some? && r.value.value in rows && r.value.value.RouteRow? && r.value.value.route.id == routeId
    ensures fault.Some? ==> r == Err(fault.value)
    ensures r.Err? && fault.None? ==> r.error == NotOneRow
  {
    var reply := RunSingle(RouteByIdRequest(routeId), rows, fault);
    assert reply.error.None? ==> Matches(reply.data.value, (RouteByIdRequest(routeId).filters)[0]);
    Settle(reply)
  }

  /**
   * The detail lookup differs from the listing: it embeds route ratings and
   * has no visibility predicate, so a private route is found by its id.
   */
  lemma {:induction false} PrivateRouteFoundById(route: Route, rows: seq<Record>, opts: RouteOptions)
    requires RouteRow(route) in rows && !route.isPublic
    requires CountMatching(rows, Routes, [Eq(Id, TextV(route.id))]) == 1
    ensures GetRouteById(route.id, rows, None) == Ok(Some(RouteRow(route)))
    ensures Eq(IsPublic, BoolV(true)) !in RouteByIdRequest(route.id).filters
    ensures Eq(IsPublic, BoolV(true)) in RouteFilters(opts)
    ensures !RouteWanted(opts, route)
  {
    var found := Filter(rows, Routes, [Eq(Id, TextV(route.id))]);
    assert MatchesAll(RouteRow(route), [Eq(Id, TextV(route.id))]);
    assert RouteRow(route) in found;
    assert found == [found[0]];
    assert (RouteFilters(opts))[0] == Eq(IsPublic, BoolV(true));
  }

  // ---------------------------------------------------------------------------
  // getProfile / updateProfile

  function ProfileRequest(userId: Uuid): (q: Request)
    ensures q.table == Profiles && q.action == Select([]) && q.single
    ensures q.filters == [Eq(Id, TextV(userId))]
  {
    From(Profiles, Select([])).Where(Eq(Id, TextV(userId))).Single()
  }

  /** The stored profile with that id, when exactly one profile has it. */
  function GetProfile(userId: Uuid, rows: seq<Record>, fault: Option<BackendError>): (r: Result<Option<Record>, BackendError>)
    ensures r.Ok? <==> fault.None? && CountMatching(rows, Profiles, [Eq(Id, TextV(userId))]) == 1
    ensures r.Ok? ==> r.value.Some? && r.value.value in rows && r.value.value.ProfileRow? && r.value.value.profile.id == userId
    ensures fault.Some? ==> r == Err(fault.value)
    ensures r.Err? && fault.None? ==> r.error == NotOneRow
  {
    var reply := RunSingle(ProfileRequest(userId), rows, fault);
    assert reply.error.None? ==> Matches(reply.data.value, (ProfileRequest(userId).filters)[0]);
    Settle(reply)
  }

  function UpdateProfileRequest(userId: Uuid, updates: ProfileUpdate): (q: Request)
    ensures q.table == Profiles && q.action == Update(updates) && q.returning && q.single
    ensures q.filters == [Eq(Id, TextV(userId))]
  {
    From(Profiles, Update(updates)).Where(Eq(Id, TextV(userId))).Returning().Single()
  }

  /** The stored profile with that id, with the update applied; its id is still `userId`. */
  function UpdateProfile(userId: Uuid, updates: ProfileUpdate, rows: seq<Record>, fault: Option<BackendError>): (r: Result<Option<Record>, BackendError>)
    ensures fault.Some? ==> r == Err(fault.value)
    ensures r.Ok? <==> fault.None? && CountMatching(rows, Profiles, [Eq(Id, TextV(userId))]) == 1
    ensures r.Err? && fault.None? ==> r.error == NotOneRow
    ensures r.Ok? ==> (exists p :: ProfileRow(p) in rows && p.id == userId
                         && r.value == Some(ProfileRow(ApplyProfileUpdate(p, updates))))
    ensures r.Ok? ==> r.value.Some? && r.value.value.ProfileRow? && r.value.value.profile.id == userId
  {
    var q := UpdateProfileRequest(userId, updates);
    var reply := RunUpdate(q, rows, fault);
    if reply.error.None? then
      var p :| ProfileRow(p) in rows && MatchesAll(ProfileRow(p), q.filters)
        && reply.data == Some(ProfileRow(ApplyProfileUpdate(p, q.action.patch)));
      assert Matches(ProfileRow(p), q.filters[0]);
      Settle(reply)
    else
      Settle(reply)
  }

  /**
   * Each lookup reads its own table only: a route never answers a profile
   * lookup, a profile never answers a route lookup, and a profile is found
   * even when a route shares its id.
   */
  lemma LookupsReadOwnTable(p: Profile, route: Route)
    ensures GetProfile(route.id, [RouteRow(route)], None) == Err(NotOneRow)
    ensures GetRouteById(p.id, [ProfileRow(p)], None) == Err(NotOneRow)
    ensures route.id == p.id ==> GetProfile(p.id, [ProfileRow(p), RouteRow(route)], None) == Ok(Some(ProfileRow(p)))
    ensures route.id == p.id ==>
      UpdateProfile(p.id, NoProfileChange, [ProfileRow(p), RouteRow(route)], None) == Ok(Some(ProfileRow(p)))
  {
    var rows := [ProfileRow(p), RouteRow(route)];
    assert Filter(rows[1..], Profiles, [Eq(Id, TextV(p.id))]) == [];
    assert Matches(ProfileRow(p), [Eq(Id, TextV(p.id))][0]);
  }

  // ---------------------------------------------------------------------------
  // getTrailConditions

  /** A route's condition reports, newest first. */
  function TrailConditionsRequest(routeId: Uuid): (q: Request)
    ensures q.table == TrailConditions && q.action == Select([ProfileEmbed])
    ensures q.filters == [Eq(RouteId, TextV(routeId))]
    ensures q.order == Some(Order(CreatedAt, false))
    ensures q.limit.None? && q.range.None? && !q.single
  {
    From(TrailConditions, Select([ProfileEmbed])).Where(Eq(RouteId, TextV(routeId))).OrderBy(CreatedAt, false)
  }

  /** All stored condition reports for that route, and only those. */
  function GetTrailConditions(routeId: Uuid, rows: seq<Record>, fault: Option<BackendError>): (r: Result<Option<seq<Record>>, BackendError>)
    ensures r.Err? <==> fault.Some?
    ensures r.Err? ==> r.error == fault.value
    ensures r.Ok? ==> r.value.Some?
    ensures r.Ok? ==> forall x :: x in r.value.value <==>
      x in rows && x.TrailConditionRow? && x.condition.routeId == routeId
  {
    var q := TrailConditionsRequest(routeId);
    assert forall x :: MatchesAll(x, q.filters) <==> Matches(x, q.filters[0]);
    Settle(RunList(q, rows, fault))
  }

  /** The runs logged on a route are not condition reports of it. */
  lemma ConditionsExcludeRuns(routeId: Uuid, run: UserRun)
    requires run.routeId == Some(routeId)
    ensures GetTrailConditions(routeId, [UserRunRow(run)], None) == Ok(Some([]))
  {
  }

  // ---------------------------------------------------------------------------
  // Mutations: insert the caller's record and return the persisted row

  /** `createRoute` inserts the caller's record into routes and asks for the written row back. */
  function CreateRouteRequest(route: RouteInsert): (q: Request)
    ensures q.table == Routes && q.action == Insert(NewRoute(route))
    ensures q.returning && q.single && q.filters == []
  {
    From(Routes, Insert(NewRoute(route))).Returning().Single()
  }

  /** The returned row is the caller's record plus the server-assigned id and times. */
  function CreateRoute(route: RouteInsert, s: Stamp, fault: Option<BackendError>): (r: Result<Option<Record>, BackendError>)
    ensures r.Err? <==> fault.Some?
    ensures r.Err? ==> r.error == fault.value
    ensures r.Ok? ==> r.value.Some? && r.value.value.RouteRow?
    ensures r.Ok? ==> RouteInsertOf(r.value.value.route) == route
    ensures r.Ok? ==> var row := r.value.value.route; row.id == s.id && row.createdAt == s.createdAt && row.updatedAt == s.updatedAt
  {
    Settle(RunInsert(CreateRouteRequest(route), s, fault))
  }

  /** `reportTrailCondition` inserts the report into trail_conditions and asks for the written row back. */
  function ReportTrailConditionRequest(condition: TrailConditionInsert): (q: Request)
    ensures q.table == TrailConditions && q.action == Insert(NewTrailCondition(condition))
    ensures q.returning && q.single && q.filters == []
  {
    From(TrailConditions, Insert(NewTrailCondition(condition))).Returning().Single()
  }

  function ReportTrailCondition(condition: TrailConditionInsert, s: Stamp, fault: Option<BackendError>): (r: Result<Option<Record>, BackendError>)
    ensures r.Err? <==> fault.Some?
    ensures r.Err? ==> r.error == fault.value
    ensures r.Ok? ==> r.value.Some? && r.value.value.TrailConditionRow?
    ensures r.Ok? ==> TrailConditionInsertOf(r.value.value.condition) == condition
    ensures r.Ok? ==> var row := r.value.value.condition; row.id == s.id && row.createdAt == s.createdAt && row.updatedAt == s.updatedAt
  {
    Settle(RunInsert(ReportTrailConditionRequest(condition), s, fault))
  }

  /** `joinChallenge` sends exactly the two ids. */
  function JoinChallengeRequest(challengeId: Uuid, userId: Uuid): (q: Request)
    ensures q.table == ChallengeParticipants && q.action == Insert(NewParticipant(challengeId, userId))
    ensures q.returning && q.single && q.filters == []
  {
    From(ChallengeParticipants, Insert(NewParticipant(challengeId, userId))).Returning().Single()
  }

  function JoinChallenge(challengeId: Uuid, userId: Uuid, s: Stamp, fault: Option<BackendError>): (r: Result<Option<Record>, BackendError>)
    ensures r.Err? <==> fault.Some?
    ensures r.Err? ==> r.error == fault.value
    ensures r.Ok? ==> r.value.Some? && r.value.value.ParticipantRow?
    ensures r.Ok? ==> var p := r.value.value.participant;
      p.challengeId == challengeId && p.userId == userId && p.id == s.id && p.joinedAt == s.createdAt && !p.completed && p.completedAt.None?
  {
    Settle(RunInsert(JoinChallengeRequest(challengeId, userId), s, fault))
  }

  /** `logUserRun` inserts the run into user_runs and asks for the written row back. */
  function LogUserRunRequest(run: UserRunInsert): (q: Request)
    ensures q.table == UserRuns && q.action == Insert(NewUserRun(run))
    ensures q.returning && q.single && q.filters == []
  {
    From(UserRuns, Insert(NewUserRun(run))).Returning().Single()
  }

  /** The returned run carries the caller's fields unchanged, plus its id and `created_at`. */
  function LogUserRun(run: UserRunInsert, s: Stamp, fault: Option<BackendError>): (r: Result<Option<Record>, BackendError>)
    ensures r.Err? <==> fault.Some?
    ensures r.Err? ==> r.error == fault.value
    ensures r.Ok? ==> r.value.Some? && r.value.value.UserRunRow?
    ensures r.Ok? ==> UserRunInsertOf(r.value.value.run) == run
    ensures r.Ok? ==> r.value.value.run.id == s.id && r.value.value.run.createdAt == s.createdAt
  {
    Settle(RunInsert(LogUserRunRequest(run), s, fault))
  }

  // ---------------------------------------------------------------------------
  // getChallenges

  datatype ChallengeOptions = ChallengeOptions(active: Option<bool>, limit: Option<int>, offset: Option<int>)

  /** `start_date <= now` and `end_date >= now`. */
  function ActiveFilters(now: Timestamp): seq<Pred> {
    [Lte(StartDate, now), Gte(EndDate, now)]
  }

  /** `or(start_date.gt.now, end_date.lt.now)`. */
  function InactiveFilters(now: Timestamp): seq<Pred> {
    [Or(Gt(StartDate, now), Lt(EndDate, now))]
  }

  function WindowFilters(active: Option<bool>, now: Timestamp): seq<Pred> {
    if active.None? then [] else if active.value then ActiveFilters(now) else InactiveFilters(now)
  }

  /** A challenge is running at `now` when `now` lies in its closed date window. */
  predicate Running(c: Challenge, now: Timestamp) {
    c.startDate <= now <= c.endDate
  }

  /**
   * `getChallenges`: the time `now` is read once, only when `active` is given,
   * and both window predicates compare against it.
   */
  method BuildChallengesRequest(opts: ChallengeOptions, now: Timestamp) returns (q: Request)
    ensures q.table == Challenges && q.action == Select([ProfileEmbed])
    ensures q.order.None? && !q.returning && !q.single
    ensures q.filters == WindowFilters(opts.active, now)
    ensures PaginatedBy(q, opts.limit, opts.offset)
  {
    q := From(Challenges, Select([ProfileEmbed]));
    if opts.active.Some? {
      if opts.active.value {
        q := q.Where(Lte(StartDate, now)).Where(Gte(EndDate, now));
      } else {
        q := q.Where(Or(Gt(StartDate, now), Lt(EndDate, now)));
      }
    }
    q := Paginate(q, opts.limit, opts.offset);
  }

  /**
   * `active: true` keeps exactly the running challenges, `active: false`
   * exactly the others, and no `active` keeps all of them.
   */
  lemma WindowFiltersMeaning(active: Option<bool>, now: Timestamp, c: Challenge)
    ensures active.None? ==> WindowFilters(active, now) == []
    ensures active == Some(true) ==> (MatchesAll(ChallengeRow(c), WindowFilters(active, now)) <==> Running(c, now))
    ensures active == Some(false) ==> (MatchesAll(ChallengeRow(c), WindowFilters(active, now)) <==> !Running(c, now))
  {
    var x := ChallengeRow(c);
    if active == Some(true) {
      assert MatchesAll(x, ActiveFilters(now)) <==> Matches(x, Lte(StartDate, now)) && Matches(x, Gte(EndDate, now)) by {
        assert ActiveFilters(now)[0] == Lte(StartDate, now);
        assert ActiveFilters(now)[1] == Gte(EndDate, now);
      }
    } else if active == Some(false) {
      assert WindowFilters(active, now) == InactiveFilters(now);
      assert MatchesAll(x, InactiveFilters(now)) <==> Matches(x, InactiveFilters(now)[0]);
      assert Matches(x, Or(Gt(StartDate, now), Lt(EndDate, now))) <==> Matches(x, Gt(StartDate, now)) || Matches(x, Lt(EndDate, now));
    }
  }

  /**
   * Over any set of challenge rows the active and the inactive listing at the
   * same `now` split the rows: every challenge is in exactly one of them.
   */
  lemma ActiveAndInactivePartition(rows: seq<Record>, now: Timestamp)
    ensures multiset(Filter(rows, Challenges, ActiveFilters(now))) + multiset(Filter(rows, Challenges, InactiveFilters(now)))
         == multiset(Filter(rows, Challenges, []))
    ensures |Filter(rows, Challenges, ActiveFilters(now))| + |Filter(rows, Challenges, InactiveFilters(now))|
         == |Filter(rows, Challenges, [])|
  {
    forall x | x in rows && TableOf(x) == Challenges
      ensures MatchesAll(x, ActiveFilters(now)) <==> !MatchesAll(x, InactiveFilters(now))
    {
      WindowFiltersMeaning(Some(true), now, x.challenge);
      WindowFiltersMeaning(Some(false), now, x.challenge);
    }
    FilterPartitions(rows, Challenges, ActiveFilters(now), InactiveFilters(now));
  }

  /** Which challenges a listing is meant to return: all, the running ones, or the others. */
  ghost predicate ChallengeWanted(active: Option<bool>, now: Timestamp, c: Challenge) {
    active.Some? ==> (active.value <==> Running(c, now))
  }

  /**
   * Every row `getChallenges` returns is a stored challenge on the requested
   * side of its window at `now`; without pagination every such challenge is returned.
   */
  method GetChallenges(opts: ChallengeOptions, now: Timestamp, rows: seq<Record>, fault: Option<BackendError>)
    returns (r: Result<Option<seq<Record>>, BackendError>)
    ensures r.Err? <==> fault.Some?
    ensures r.Err? ==> r.error == fault.value
    ensures r.Ok? ==> r.value.Some?
    ensures r.Ok? ==> forall x :: x in r.value.value ==> x in rows && x.ChallengeRow? && ChallengeWanted(opts.active, now, x.challenge)
    ensures r.Ok? && !Truthy(opts.limit) && !Truthy(opts.offset) ==>
      forall c :: ChallengeRow(c) in rows && ChallengeWanted(opts.active, now, c) ==> ChallengeRow(c) in r.value.value
    ensures r.Ok? && (Truthy(opts.limit) || Truthy(opts.offset)) && LimitOrDefault(opts.limit) > 0 ==>
      |r.value.value| <= LimitOrDefault(opts.limit)
  {
    var q := BuildChallengesRequest(opts, now);
    r := Settle(RunList(q, rows, fault));
    if r.Ok? {
      if LimitOrDefault(opts.limit) > 0 {
        PagedRowCount(q, opts.limit, opts.offset, rows);
      }
      forall x | x in r.value.value ensures x in rows && x.ChallengeRow? && ChallengeWanted(opts.active, now, x.challenge) {
        WindowFiltersMeaning(opts.active, now, x.challenge);
      }
      forall c | ChallengeRow(c) in rows && ChallengeWanted(opts.active, now, c) && !Truthy(opts.limit) && !Truthy(opts.offset)
        ensures ChallengeRow(c) in r.value.value
      {
        WindowFiltersMeaning(opts.active, now, c);
      }
    }
  }

  // ---------------------------------------------------------------------------
  // getUserRuns

  /** Date bounds on `created_at`; an empty date string, absent in effect, is `None`. */
  datatype RunOptions = RunOptions(limit: Option<int>, offset: Option<int>, startDate: Option<Timestamp>, endDate: Option<Timestamp>)

  function RunFilters(userId: Uuid, opts: RunOptions): seq<Pred> {
    [Eq(UserId, TextV(userId))]
      + (if opts.startDate.Some? then [Gte(CreatedAt, opts.startDate.value)] else [])
      + (if opts.endDate.Some? then [Lte(CreatedAt, opts.endDate.value)] else [])
  }

  /** The runs a history is meant to hold: the user's own, created within the inclusive dates. */
  ghost predicate RunWanted(userId: Uuid, opts: RunOptions, run: UserRun) {
    && run.userId == userId
    && (opts.startDate.Some? ==> opts.startDate.value <= run.createdAt)
    && (opts.endDate.Some? ==> run.createdAt <= opts.endDate.value)
  }

  /** `getUserRuns`: always the user's own runs with their routes, most recent first. */
  method BuildUserRunsRequest(userId: Uuid, opts: RunOptions) returns (q: Request)
    ensures q.table == UserRuns && q.action == Select([Embed(Routes, AllColumns)])
    ensures q.order == Some(Order(CreatedAt, false)) && !q.returning && !q.single
    ensures q.filters == RunFilters(userId, opts)
    ensures PaginatedBy(q, opts.limit, opts.offset)
  {
    q := From(UserRuns, Select([Embed(Routes, AllColumns)])).Where(Eq(UserId, TextV(userId))).OrderBy(CreatedAt, false);
    if opts.startDate.Some? {
      q := q.Where(Gte(CreatedAt, opts.startDate.value));
    }
    if opts.endDate.Some? {
      q := q.Where(Lte(CreatedAt, opts.endDate.value));
    }
    q := Paginate(q, opts.limit, opts.offset);
  }

  /** On run rows the history's filters mean exactly `RunWanted`. */
  lemma {:induction false} RunFiltersMeaning(userId: Uuid, opts: RunOptions, run: UserRun)
    ensures MatchesAll(UserRunRow(run), RunFilters(userId, opts)) <==> RunWanted(userId, opts, run)
  {
    var x := UserRunRow(run);
    var a := [Eq(UserId, TextV(userId))];
    var b := if opts.startDate.Some? then [Gte(CreatedAt, opts.startDate.value)] else [];
    var c := if opts.endDate.Some? then [Lte(CreatedAt, opts.endDate.value)] else [];
    MatchesAllConcat(x, a + b, c);
    MatchesAllConcat(x, a, b);
    assert MatchesAll(x, a) <==> Matches(x, a[0]);
    if b != [] { assert MatchesAll(x, b) <==> Matches(x, b[0]); }
    if c != [] { assert MatchesAll(x, c) <==> Matches(x, c[0]); }
  }

  /**
   * Every row `getUserRuns` returns is a stored run of that user within the
   * dates; without pagination every such run is returned.
   */
  method GetUserRuns(userId: Uuid, opts: RunOptions, rows: seq<Record>, fault: Option<BackendError>)
    returns (r: Result<Option<seq<Record>>, BackendError>)
    ensures r.Err? <==> fault.Some?
    ensures r.Err? ==> r.error == fault.value
    ensures r.Ok? ==> r.value.Some?
    ensures r.Ok? ==> forall x :: x in r.value.value ==> x in rows && x.UserRunRow? && RunWanted(userId, opts, x.run)
    ensures r.Ok? && !Truthy(opts.limit) && !Truthy(opts.offset) ==>
      forall run :: UserRunRow(run) in rows && RunWanted(userId, opts, run) ==> UserRunRow(run) in r.value.value
    ensures r.Ok? && (Truthy(opts.limit) || Truthy(opts.offset)) && LimitOrDefault(opts.limit) > 0 ==>
      |r.value.value| <= LimitOrDefault(opts.limit)
  {
    var q := BuildUserRunsRequest(userId, opts);
    r := Settle(RunList(q, rows, fault));
    if r.Ok? {
      if LimitOrDefault(opts.limit) > 0 {
        PagedRowCount(q, opts.limit, opts.offset, rows);
      }
      forall x | x in r.value.value ensures x in rows && x.UserRunRow? && RunWanted(userId, opts, x.run) {
        RunFiltersMeaning(userId, opts, x.run);
      }
      forall run | UserRunRow(run) in rows && RunWanted(userId, opts, run) && !Truthy(opts.limit) && !Truthy(opts.offset)
        ensures UserRunRow(run) in r.value.value
      {
        RunFiltersMeaning(userId, opts, run);
      }
    }
  }
}
