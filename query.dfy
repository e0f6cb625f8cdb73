/**
 * A query against the record store as a value: the table, what is selected
 * (with embedded joins), the filter predicates in the order they were added,
 * an optional order, an optional limit and an optional inclusive row range.
 * Rows are typed records, each stored in the table `TableOf` names; `Field`
 * reads the columns the filters can name and `Matches` is the meaning of one
 * predicate on one row.
 */
module Query {
  import opened Wrappers
  import opened Database

  datatype Table = Profiles | Routes | RouteRatings | TrailConditions | Challenges | ChallengeParticipants | UserRuns

  /** The columns a filter or an order can name. */
  datatype Column = Id | IsPublic | Terrain | Distance | Difficulty | StartDate | EndDate | CreatedAt | UserId | RouteId | ChallengeId

  datatype Value = BoolV(b: bool) | NumV(n: int) | TextV(s: string) | TerrainsV(ts: seq<TerrainType>)

  /**
   * Filter predicates: `eq`, `gte`, `lte`, `gt`, `lt`, `contains` (array
   * superset) and a two-way `or`.
   */
  datatype Pred =
    | Eq(col: Column, v: Value)
    | Gte(col: Column, bound: int)
    | Lte(col: Column, bound: int)
    | Gt(col: Column, bound: int)
    | Lt(col: Column, bound: int)
    | Contains(col: Column, items: seq<TerrainType>)
    | Or(left: Pred, right: Pred)

  /** `table(col, ...)` or `table(*)` inside a select list. */
  datatype Columns = AllColumns | Only(names: seq<string>)
  datatype Embed = Embed(table: Table, columns: Columns)

  datatype Order = Order(col: Column, ascending: bool)

  /** An inclusive, zero-based range of row positions, `.range(from, to)`. */
  datatype RowRange = RowRange(from: int, to: int)

  /** The body of an insert. A participant is inserted as exactly its two ids. */
  datatype NewRow =
    | NewRoute(route: RouteInsert)
    | NewTrailCondition(condition: TrailConditionInsert)
    | NewParticipant(challengeId: Uuid, userId: Uuid)
    | NewUserRun(run: UserRunInsert)

  /** `select('*, embeds...')`, `insert(row)` or `update(patch)`. */
  datatype Action = Select(embeds: seq<Embed>) | Insert(row: NewRow) | Update(patch: ProfileUpdate)

  datatype Request = Request(
    table: Table, action: Action, filters: seq<Pred>, order: Option<Order>,
    limit: Option<int>, range: Option<RowRange>,
    returning: bool,  // `.select()` after an insert or update: send the written row back
    single: bool)     // `.single()`: exactly one row is expected
  {
    /** Adds one filter; filters already present are kept. */
    function Where(p: Pred): (q: Request)
      ensures q.filters == filters + [p]
      ensures q == this.(filters := q.filters)
    {
      this.(filters := filters + [p])
    }

    function OrderBy(col: Column, ascending: bool): Request {
      this.(order := Some(Order(col, ascending)))
    }

    function Limit(n: int): Request {
      this.(limit := Some(n))
    }

    function Range(from: int, to: int): Request {
      this.(range := Some(RowRange(from, to)))
    }

    function Returning(): Request {
      this.(returning := true)
    }

    function Single(): Request {
      this.(single := true)
    }
  }

  /** `from(table).select(...)`, `from(table).insert(...)`, `from(table).update(...)`: no filters yet. */
  function From(t: Table, a: Action): (q: Request)
    ensures q.table == t && q.action == a && q.filters == []
    ensures q.order.None? && q.limit.None? && q.range.None? && !q.returning && !q.single
  {
    Request(t, a, [], None, None, None, false, false)
  }

  // ---------------------------------------------------------------------------
  // Rows

  datatype Record =
    | ProfileRow(profile: Profile)
    | RouteRow(route: Route)
    | TrailConditionRow(condition: TrailCondition)
    | ChallengeRow(challenge: Challenge)
    | ParticipantRow(participant: ChallengeParticipant)
    | UserRunRow(run: UserRun)

  /** The table a row is stored in. */
  function TableOf(rec: Record): Table {
    match rec
    case ProfileRow(_) => Profiles
    case RouteRow(_) => Routes
    case TrailConditionRow(_) => TrailConditions
    case ChallengeRow(_) => Challenges
    case ParticipantRow(_) => ChallengeParticipants
    case UserRunRow(_) => UserRuns
  }

  function OptText(o: Option<string>): Option<Value> {
    if o.Some? then Some(TextV(o.value)) else None
  }

  /** The value a row holds in a column; `None` for SQL null or a column the table does not have. */
  function Field(rec: Record, c: Column): Option<Value> {
    match rec
    case ProfileRow(p) =>
      (match c
       case Id => Some(TextV(p.id))
       case CreatedAt => Some(NumV(p.createdAt))
       case _ => None)
    case RouteRow(r) =>
      (match c
       case Id => Some(TextV(r.id))
       case IsPublic => Some(BoolV(r.isPublic))
       case Terrain => Some(TerrainsV(r.terrain))
       case Distance => Some(NumV(r.distance))
       case Difficulty => Some(NumV(r.difficulty))
       case CreatedAt => Some(NumV(r.createdAt))
       case _ => None)
    case TrailConditionRow(t) =>
      (match c
       case Id => Some(TextV(t.id))
       case RouteId => Some(TextV(t.routeId))
       case CreatedAt => Some(NumV(t.createdAt))
       case _ => None)
    case ChallengeRow(ch) =>
      (match c
       case Id => Some(TextV(ch.id))
       case StartDate => Some(NumV(ch.startDate))
       case EndDate => Some(NumV(ch.endDate))
       case CreatedAt => Some(NumV(ch.createdAt))
       case _ => None)
    case ParticipantRow(pa) =>
      (match c
       case Id => Some(TextV(pa.id))
       case ChallengeId => Some(TextV(pa.challengeId))
       case UserId => Some(TextV(pa.userId))
       case _ => None)
    case UserRunRow(u) =>
      (match c
       case Id => Some(TextV(u.id))
       case UserId => Some(TextV(u.userId))
       case RouteId => OptText(u.routeId)
       case Distance => Some(NumV(u.distance))
       case CreatedAt => Some(NumV(u.createdAt))
       case _ => None)
  }

  /**
   * Whether a row satisfies one predicate. A comparison with a null or
   * missing column, or with a value of another kind, is false.
   */
  predicate Matches(rec: Record, p: Pred) {
    match p
    case Eq(c, v) => Field(rec, c) == Some(v)
    case Gte(c, b) => var f := Field(rec, c); f.Some? && f.value.NumV? && f.value.n >= b
    case Lte(c, b) => var f := Field(rec, c); f.Some? && f.value.NumV? && f.value.n <= b
    case Gt(c, b) => var f := Field(rec, c); f.Some? && f.value.NumV? && f.value.n > b
    case Lt(c, b) => var f := Field(rec, c); f.Some? && f.value.NumV? && f.value.n < b
    case Contains(c, items) =>
      var f := Field(rec, c);
      f.Some? && f.value.TerrainsV? && forall t :: t in items ==> t in f.value.ts
    case Or(a, b) => Matches(rec, a) || Matches(rec, b)
  }

  /** Filters combine by conjunction. */
  predicate MatchesAll(rec: Record, ps: seq<Pred>) {
    forall i :: 0 <= i < |ps| ==> Matches(rec, ps[i])
  }

  /** A request's filters may be split anywhere: the parts hold together exactly when all hold. */
  lemma MatchesAllConcat(rec: Record, ps: seq<Pred>, qs: seq<Pred>)
    ensures MatchesAll(rec, ps + qs) <==> MatchesAll(rec, ps) && MatchesAll(rec, qs)
  {
    if MatchesAll(rec, ps) && MatchesAll(rec, qs) {
      forall i | 0 <= i < |ps + qs| ensures Matches(rec, (ps + qs)[i]) {
        if i < |ps| { assert (ps + qs)[i] == ps[i]; } else { assert (ps + qs)[i] == qs[i - |ps|]; }
      }
    }
    if MatchesAll(rec, ps + qs) {
      forall i | 0 <= i < |ps| ensures Matches(rec, ps[i]) {
        assert (ps + qs)[i] == ps[i];
      }
      forall i | 0 <= i < |qs| ensures Matches(rec, qs[i]) {
        assert (ps + qs)[|ps| + i] == qs[i];
      }
    }
  }
}
