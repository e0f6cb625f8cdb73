/**
 * The typed schema of the public tables: enumerations, the row records, and
 * for each table the split between the Row the database stores, the Insert a
 * client sends (the Row without its server-assigned fields) and the Update a
 * client sends (every field but `id`, each optional).
 */
module Database {
  import opened Wrappers

  /** Instants (ISO-8601 strings in the database) are modelled as integers. */
  type Timestamp = int
  /** Row identifiers are uuid strings. */
  type Uuid = string
  /** GeoJSON geometries and free JSON (`ai_analysis`) are carried as opaque text. */
  type GeoJson = string

  // ---------------------------------------------------------------------------
  // Enumerations

  datatype TerrainType = Pavement | Trail | Gravel | Mixed
  datatype ExperienceLevel = Beginner | Intermediate | Advanced | Expert
  datatype TrainingGoalType = DistanceGoal | SpeedGoal | EnduranceGoal | RecoveryGoal
  datatype ConditionType = Weather | Maintenance | Hazard
  datatype ConditionSeverity = Low | Medium | High

  /** The database spelling of a terrain. */
  function TerrainName(t: TerrainType): string {
    match t
    case Pavement => "pavement"
    case Trail => "trail"
    case Gravel => "gravel"
    case Mixed => "mixed"
  }

  /** Reads a terrain from its database spelling; exactly the four spellings are accepted. */
  function ParseTerrain(s: string): (r: Option<TerrainType>)
    ensures r.Some? ==> TerrainName(r.value) == s
    ensures r.None? ==> forall t: TerrainType :: TerrainName(t) != s
  {
    if s == "pavement" then Some(Pavement)
    else if s == "trail" then Some(Trail)
    else if s == "gravel" then Some(Gravel)
    else if s == "mixed" then Some(Mixed)
    else None
  }

  /** Every terrain, once each. */
  const AllTerrains: seq<TerrainType> := [Pavement, Trail, Gravel, Mixed]

  lemma TerrainNameRoundTrip(t: TerrainType)
    ensures ParseTerrain(TerrainName(t)) == Some(t)
  {
  }

  /** The terrain type has exactly four values, with four distinct spellings. */
  lemma TerrainTypeHasFourValues()
    ensures forall t: TerrainType :: t in AllTerrains
    ensures |AllTerrains| == 4
    ensures forall i, j :: 0 <= i < j < |AllTerrains| ==> TerrainName(AllTerrains[i]) != TerrainName(AllTerrains[j])
  {
    forall t: TerrainType ensures t in AllTerrains {
      match t
      case Pavement => assert AllTerrains[0] == t;
      case Trail => assert AllTerrains[1] == t;
      case Gravel => assert AllTerrains[2] == t;
      case Mixed => assert AllTerrains[3] == t;
    }
  }

  function ConditionTypeName(c: ConditionType): string {
    match c
    case Weather => "weather"
    case Maintenance => "maintenance"
    case Hazard => "hazard"
  }

  function ParseConditionType(s: string): (r: Option<ConditionType>)
    ensures r.Some? ==> ConditionTypeName(r.value) == s
    ensures r.None? ==> forall c: ConditionType :: ConditionTypeName(c) != s
  {
    if s == "weather" then Some(Weather)
    else if s == "maintenance" then Some(Maintenance)
    else if s == "hazard" then Some(Hazard)
    else None
  }

  function SeverityName(v: ConditionSeverity): string {
    match v
    case Low => "low"
    case Medium => "medium"
    case High => "high"
  }

  function ParseSeverity(s: string): (r: Option<ConditionSeverity>)
    ensures r.Some? ==> SeverityName(r.value) == s
    ensures r.None? ==> forall v: ConditionSeverity :: SeverityName(v) != s
  {
    if s == "low" then Some(Low)
    else if s == "medium" then Some(Medium)
    else if s == "high" then Some(High)
    else None
  }

  // ---------------------------------------------------------------------------
  // Server-assigned fields

  /**
   * What the database fills in when a row is inserted: its id and its
   * creation and modification times (a `joined_at` is a creation time).
   */
  datatype Stamp = Stamp(id: Uuid, createdAt: Timestamp, updatedAt: Timestamp)

  /** An Update field that is present replaces the stored value; an absent one keeps it. */
  function Override<T>(patch: Option<T>, current: T): T {
    if patch.Some? then patch.value else current
  }

  // ---------------------------------------------------------------------------
  // profiles

  datatype TrainingGoal = TrainingGoal(goalType: TrainingGoalType, target: int, unit: string, deadline: Option<Timestamp>)

  datatype Profile = Profile(
    id: Uuid, username: string, avatarUrl: Option<string>, bio: Option<string>,
    preferredTerrain: seq<TerrainType>, experienceLevel: ExperienceLevel,
    physicalLimitations: seq<string>, trainingGoals: seq<TrainingGoal>,
    createdAt: Timestamp, updatedAt: Timestamp)

  /** `Partial<Omit<Profile, 'id'>>`; an optional column's patch sets it, it cannot clear it. */
  datatype ProfileUpdate = ProfileUpdate(
    username: Option<string>, avatarUrl: Option<string>, bio: Option<string>,
    preferredTerrain: Option<seq<TerrainType>>, experienceLevel: Option<ExperienceLevel>,
    physicalLimitations: Option<seq<string>>, trainingGoals: Option<seq<TrainingGoal>>,
    createdAt: Option<Timestamp>, updatedAt: Option<Timestamp>)

  const NoProfileChange := ProfileUpdate(None, None, None, None, None, None, None, None, None)

  /** The profile after the database applies `u`: the id never changes, absent fields never change. */
  function ApplyProfileUpdate(p: Profile, u: ProfileUpdate): (q: Profile)
    ensures q.id == p.id
    ensures u == NoProfileChange ==> q == p
    ensures u.username.Some? ==> q.username == u.username.value
    ensures u.username.None? ==> q.username == p.username
  {
    Profile(p.id, Override(u.username, p.username),
      if u.avatarUrl.Some? then u.avatarUrl else p.avatarUrl,
      if u.bio.Some? then u.bio else p.bio,
      Override(u.preferredTerrain, p.preferredTerrain), Override(u.experienceLevel, p.experienceLevel),
      Override(u.physicalLimitations, p.physicalLimitations), Override(u.trainingGoals, p.trainingGoals),
      Override(u.createdAt, p.createdAt), Override(u.updatedAt, p.updatedAt))
  }

  /** The update that rewrites every field of a profile to those of `target`. */
  function ProfileUpdateTo(target: Profile): ProfileUpdate {
    ProfileUpdate(Some(target.username), target.avatarUrl, target.bio, Some(target.preferredTerrain),
      Some(target.experienceLevel), Some(target.physicalLimitations), Some(target.trainingGoals),
      Some(target.createdAt), Some(target.updatedAt))
  }

  /**
   * An Update can reach every profile that has the same id and does not clear
   * an optional column: everything but `id` is updatable.
   */
  lemma ProfileUpdateReachesAllButId(p: Profile, target: Profile)
    requires p.avatarUrl.Some? ==> target.avatarUrl.Some?
    requires p.bio.Some? ==> target.bio.Some?
    ensures ApplyProfileUpdate(p, ProfileUpdateTo(target)) == target.(id := p.id)
  {
  }

  // ---------------------------------------------------------------------------
  // routes

  datatype Route = Route(
    id: Uuid, name: string, description: Option<string>, distance: int, elevation: int,
    terrain: seq<TerrainType>, difficulty: int, coordinates: GeoJson, createdBy: Uuid,
    isPublic: bool, aiAnalysis: Option<GeoJson>, createdAt: Timestamp, updatedAt: Timestamp)

  /** `Omit<Route, 'id' | 'created_at' | 'updated_at'>`. */
  datatype RouteInsert = RouteInsert(
    name: string, description: Option<string>, distance: int, elevation: int,
    terrain: seq<TerrainType>, difficulty: int, coordinates: GeoJson, createdBy: Uuid,
    isPublic: bool, aiAnalysis: Option<GeoJson>)

  /** `Partial<Omit<Route, 'id'>>`. */
  datatype RouteUpdate = RouteUpdate(
    name: Option<string>, description: Option<string>, distance: Option<int>, elevation: Option<int>,
    terrain: Option<seq<TerrainType>>, difficulty: Option<int>, coordinates: Option<GeoJson>,
    createdBy: Option<Uuid>, isPublic: Option<bool>, aiAnalysis: Option<GeoJson>,
    createdAt: Option<Timestamp>, updatedAt: Option<Timestamp>)

  const NoRouteChange := RouteUpdate(None, None, None, None, None, None, None, None, None, None, None, None)

  /** The Insert a Route was (or could have been) created from: the Route minus its server fields. */
  function RouteInsertOf(r: Route): RouteInsert {
    RouteInsert(r.name, r.description, r.distance, r.elevation, r.terrain, r.difficulty,
      r.coordinates, r.createdBy, r.isPublic, r.aiAnalysis)
  }

  /** The Route the database stores for an Insert: the caller's fields unchanged plus the stamp. */
  function PersistRoute(ins: RouteInsert, s: Stamp): (r: Route)
    ensures RouteInsertOf(r) == ins
    ensures r.id == s.id && r.createdAt == s.createdAt && r.updatedAt == s.updatedAt
  {
    Route(s.id, ins.name, ins.description, ins.distance, ins.elevation, ins.terrain,
      ins.difficulty, ins.coordinates, ins.createdBy, ins.isPublic, ins.aiAnalysis,
      s.createdAt, s.updatedAt)
  }

  /** `id`, `created_at` and `updated_at` are exactly what an Insert leaves to the server. */
  lemma RouteIsInsertPlusStamp(r: Route)
    ensures PersistRoute(RouteInsertOf(r), Stamp(r.id, r.createdAt, r.updatedAt)) == r
  {
  }

  function ApplyRouteUpdate(r: Route, u: RouteUpdate): (q: Route)
    ensures q.id == r.id
    ensures u == NoRouteChange ==> q == r
    ensures u.isPublic.Some? ==> q.isPublic == u.isPublic.value
    ensures u.isPublic.None? ==> q.isPublic == r.isPublic
  {
    Route(r.id, Override(u.name, r.name), if u.description.Some? then u.description else r.description,
      Override(u.distance, r.distance), Override(u.elevation, r.elevation),
      Override(u.terrain, r.terrain), Override(u.difficulty, r.difficulty),
      Override(u.coordinates, r.coordinates), Override(u.createdBy, r.createdBy),
      Override(u.isPublic, r.isPublic), if u.aiAnalysis.Some? then u.aiAnalysis else r.aiAnalysis,
      Override(u.createdAt, r.createdAt), Override(u.updatedAt, r.updatedAt))
  }

  function RouteUpdateTo(target: Route): RouteUpdate {
    RouteUpdate(Some(target.name), target.description, Some(target.distance), Some(target.elevation),
      Some(target.terrain), Some(target.difficulty), Some(target.coordinates), Some(target.createdBy),
      Some(target.isPublic), target.aiAnalysis, Some(target.createdAt), Some(target.updatedAt))
  }

  lemma RouteUpdateReachesAllButId(r: Route, target: Route)
    requires r.description.Some? ==> target.description.Some?
    requires r.aiAnalysis.Some? ==> target.aiAnalysis.Some?
    ensures ApplyRouteUpdate(r, RouteUpdateTo(target)) == target.(id := r.id)
  {
  }

  // ---------------------------------------------------------------------------
  // trail_conditions

  datatype TrailCondition = TrailCondition(
    id: Uuid, routeId: Uuid, reportedBy: Uuid, conditionType: ConditionType, description: string,
    severity: ConditionSeverity, location: Option<GeoJson>, resolved: bool,
    resolvedAt: Option<Timestamp>, createdAt: Timestamp, updatedAt: Timestamp)

  /** `Omit<TrailCondition, 'id' | 'created_at' | 'updated_at'>`. */
  datatype TrailConditionInsert = TrailConditionInsert(
    routeId: Uuid, reportedBy: Uuid, conditionType: ConditionType, description: string,
    severity: ConditionSeverity, location: Option<GeoJson>, resolved: bool, resolvedAt: Option<Timestamp>)

  function TrailConditionInsertOf(c: TrailCondition): TrailConditionInsert {
    TrailConditionInsert(c.routeId, c.reportedBy, c.conditionType, c.description, c.severity,
      c.location, c.resolved, c.resolvedAt)
  }

  function PersistTrailCondition(ins: TrailConditionInsert, s: Stamp): (c: TrailCondition)
    ensures TrailConditionInsertOf(c) == ins
    ensures c.id == s.id && c.createdAt == s.createdAt && c.updatedAt == s.updatedAt
  {
    TrailCondition(s.id, ins.routeId, ins.reportedBy, ins.conditionType, ins.description,
      ins.severity, ins.location, ins.resolved, ins.resolvedAt, s.createdAt, s.updatedAt)
  }

  // ---------------------------------------------------------------------------
  // challenges

  datatype Challenge = Challenge(
    id: Uuid, title: string, description: string, startDate: Timestamp, endDate: Timestamp,
    createdBy: Uuid, terrainType: Option<seq<TerrainType>>, minDistance: Option<int>,
    maxDistance: Option<int>, minElevation: Option<int>, maxElevation: Option<int>,
    createdAt: Timestamp, updatedAt: Timestamp)

  // ---------------------------------------------------------------------------
  // challenge_participants

  datatype ChallengeParticipant = ChallengeParticipant(
    id: Uuid, challengeId: Uuid, userId: Uuid, joinedAt: Timestamp, completed: bool,
    completedAt: Option<Timestamp>)

  /** `Omit<ChallengeParticipant, 'id' | 'joined_at'>`. */
  datatype ParticipantInsert = ParticipantInsert(
    challengeId: Uuid, userId: Uuid, completed: bool, completedAt: Option<Timestamp>)

  function ParticipantInsertOf(p: ChallengeParticipant): ParticipantInsert {
    ParticipantInsert(p.challengeId, p.userId, p.completed, p.completedAt)
  }

  /** A participant row: the insert's fields plus the id and `joined_at` from the stamp. */
  function PersistParticipant(ins: ParticipantInsert, s: Stamp): (p: ChallengeParticipant)
    ensures ParticipantInsertOf(p) == ins
    ensures p.id == s.id && p.joinedAt == s.createdAt
  {
    ChallengeParticipant(s.id, ins.challengeId, ins.userId, s.createdAt, ins.completed, ins.completedAt)
  }

  lemma ParticipantIsInsertPlusStamp(p: ChallengeParticipant, updatedAt: Timestamp)
    ensures PersistParticipant(ParticipantInsertOf(p), Stamp(p.id, p.joinedAt, updatedAt)) == p
  {
  }

  // ---------------------------------------------------------------------------
  // user_runs

  datatype UserRun = UserRun(
    id: Uuid, userId: Uuid, routeId: Option<Uuid>, distance: int, duration: int,
    elevationGain: Option<int>, elevationLoss: Option<int>, avgPace: Option<int>,
    terrainTypes: Option<seq<TerrainType>>, notes: Option<string>, createdAt: Timestamp)

  /** `Omit<UserRun, 'id' | 'created_at'>`. */
  datatype UserRunInsert = UserRunInsert(
    userId: Uuid, routeId: Option<Uuid>, distance: int, duration: int,
    elevationGain: Option<int>, elevationLoss: Option<int>, avgPace: Option<int>,
    terrainTypes: Option<seq<TerrainType>>, notes: Option<string>)

  /** `Partial<Omit<UserRun, 'id'>>`. */
  datatype UserRunUpdate = UserRunUpdate(
    userId: Option<Uuid>, routeId: Option<Uuid>, distance: Option<int>, duration: Option<int>,
    elevationGain: Option<int>, elevationLoss: Option<int>, avgPace: Option<int>,
    terrainTypes: Option<seq<TerrainType>>, notes: Option<string>, createdAt: Option<Timestamp>)

  const NoUserRunChange := UserRunUpdate(None, None, None, None, None, None, None, None, None, None)

  function UserRunInsertOf(r: UserRun): UserRunInsert {
    UserRunInsert(r.userId, r.routeId, r.distance, r.duration, r.elevationGain, r.elevationLoss,
      r.avgPace, r.terrainTypes, r.notes)
  }

  /** A run row: the caller's fields plus the id and `created_at` (a run has no `updated_at`). */
  function PersistUserRun(ins: UserRunInsert, s: Stamp): (r: UserRun)
    ensures UserRunInsertOf(r) == ins
    ensures r.id == s.id && r.createdAt == s.createdAt
  {
    UserRun(s.id, ins.userId, ins.routeId, ins.distance, ins.duration, ins.elevationGain,
      ins.elevationLoss, ins.avgPace, ins.terrainTypes, ins.notes, s.createdAt)
  }

  /** `id` and `created_at` are exactly what a run Insert leaves to the server. */
  lemma UserRunIsInsertPlusStamp(r: UserRun, updatedAt: Timestamp)
    ensures PersistUserRun(UserRunInsertOf(r), Stamp(r.id, r.createdAt, updatedAt)) == r
  {
  }

  function ApplyUserRunUpdate(r: UserRun, u: UserRunUpdate): (q: UserRun)
    ensures q.id == r.id
    ensures u == NoUserRunChange ==> q == r
    ensures u.userId.Some? ==> q.userId == u.userId.value
    ensures u.userId.None? ==> q.userId == r.userId
  {
    UserRun(r.id, Override(u.userId, r.userId), if u.routeId.Some? then u.routeId else r.routeId,
      Override(u.distance, r.distance), Override(u.duration, r.duration),
      if u.elevationGain.Some? then u.elevationGain else r.elevationGain,
      if u.elevationLoss.Some? then u.elevationLoss else r.elevationLoss,
      if u.avgPace.Some? then u.avgPace else r.avgPace,
      if u.terrainTypes.Some? then u.terrainTypes else r.terrainTypes,
      if u.notes.Some? then u.notes else r.notes,
      Override(u.createdAt, r.createdAt))
  }

  function UserRunUpdateTo(target: UserRun): UserRunUpdate {
    UserRunUpdate(Some(target.userId), target.routeId, Some(target.distance), Some(target.duration),
      target.elevationGain, target.elevationLoss, target.avgPace, target.terrainTypes, target.notes,
      Some(target.createdAt))
  }

  lemma UserRunUpdateReachesAllButId(r: UserRun, target: UserRun)
    requires r.routeId.Some? ==> target.routeId.Some?
    requires r.elevationGain.Some? ==> target.elevationGain.Some?
    requires r.elevationLoss.Some? ==> target.elevationLoss.Some?
    requires r.avgPace.Some? ==> target.avgPace.Some?
    requires r.terrainTypes.Some? ==> target.terrainTypes.Some?
    requires r.notes.Some? ==> target.notes.Some?
    ensures ApplyUserRunUpdate(r, UserRunUpdateTo(target)) == target.(id := r.id)
  {
  }
}
