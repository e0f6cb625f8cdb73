# Zephyrun client core, modelled in Dafny

Zephyrun is a mobile client for a running and trail app. It sits on a hosted
backend that provides authentication and Postgres tables behind a query
protocol. This project models the parts of the client that hold real logic:

- **Schema** (`database.dfy`, module `Database`). The enumerations and the row
  records of the public tables. For each table it also models the split
  between the stored Row, the Insert a client sends (the Row without its
  server-assigned fields) and the Update (every field but `id`, each optional).
- **Query values and an in-memory store** (`query.dfy`, `store.dfy`). A
  request is a value: table, selected embeds, filter predicates, order, limit,
  inclusive row range, `returning` and `single` flags. `Matches` gives the
  meaning of a predicate on a row. `Store` answers a request over a sequence
  of rows, reading only the rows of the request's table, and returns the
  `{data, error}` pair. An insert must name the table of the row it writes.
  `Settle` is the helpers' shared "throw the error, else return the data".
- **Data-access helpers** (`data_access.dfy`, module `DataAccess`):
  - the three list builders `getRoutes`, `getChallenges` and `getUserRuns`,
    as methods that grow the request step by step as the source does;
  - the lookups `getProfile`, `getRouteById` and `getTrailConditions`;
  - the mutations `updateProfile`, `createRoute`, `reportTrailCondition`,
    `joinChallenge` and `logUserRun`.

  Numeric options use JavaScript truthiness: an option counts only when it is
  present and not 0 (`Truthy`).
- **Auth session hook** (`auth.dfy`, class `Auth.AuthSession`). It has the
  fields `user`, `loading`, `error`, `isMounted` and `subscribed`, and
  a ghost `initialized` that records that the mount effect has run. Each handler is one atomic step: the initialization outcome,
  a listener event, unmount, and the begin and end of sign-in, sign-up and
  sign-out.
- **Configuration check** (`env.dfy`, module `Env`). `checkEnvVariables` is
  a pure boolean check over the configuration read from the environment.
- **Login form** (`login.dfy`, class `Login.LoginForm`). The `handleLogin`
  handler and the two `onChangeText` handlers.

Calls into the backend are parameters: a transport or policy failure
(`fault`), the server-assigned id and times (`Stamp`), the session that
`getSession()` returns, and the error that an auth call returns. The current
time of `getChallenges` is an integer parameter `now`, read once.

Behaviour worth noting:

- A failed `getSession()` records `error`, clears `loading` and leaves `user`
  untouched. It also never subscribes the listener, because the throw comes
  before the subscription.
- The listener is subscribed only after `getSession()` has resolved.
- After unmount, sign-in, sign-up and sign-out still run and still write `loading`.
- The terrain filter takes a list and asks for a superset of it.
- `checkEnvVariables` returns a plain boolean and throws nothing.

## Model

| member | source | states |
|---|---|---|
| Database.ParseTerrain | zephyrun/src/types/database.ts:1 | exactly the four spellings pavement, trail, gravel and mixed are terrains; each is read back to the terrain with that spelling |
| Database.TerrainTypeHasFourValues | zephyrun/src/types/database.ts:1 | the terrain type has exactly four values, with distinct spellings |
| Database.TerrainNameRoundTrip | zephyrun/src/types/database.ts:1 | reading a terrain's spelling gives that terrain back |
| Database.ParseConditionType | zephyrun/src/types/database.ts:4 | the condition types are exactly weather, maintenance and hazard |
| Database.ParseSeverity | zephyrun/src/types/database.ts:5 | the severities are exactly low, medium and high |
| Database.PersistRoute | zephyrun/src/types/database.ts:132-136 | a stored route keeps every Insert field unchanged (stripping the server fields gives the Insert back) and takes id, created_at and updated_at from the server |
| Database.RouteIsInsertPlusStamp | zephyrun/src/types/database.ts:27-41 | a route is exactly its Insert plus id, created_at and updated_at |
| Database.ApplyRouteUpdate | zephyrun/src/types/database.ts:135 | an update never changes the id; an empty update changes nothing; a present field replaces the stored one |
| Database.RouteUpdateReachesAllButId | zephyrun/src/types/database.ts:135 | an update can set every route field except id |
| Database.PersistTrailCondition | zephyrun/src/types/database.ts:142-146 | a stored condition keeps its Insert fields and takes id and both times from the server |
| Database.PersistParticipant | zephyrun/src/types/database.ts:152-156 | a participant keeps its Insert fields and takes id and joined_at from the server |
| Database.ParticipantIsInsertPlusStamp | zephyrun/src/types/database.ts:82-89 | a participant is exactly its Insert plus id and joined_at |
| Database.PersistUserRun | zephyrun/src/types/database.ts:167-171 | a stored run keeps its Insert fields and takes id and created_at from the server |
| Database.UserRunIsInsertPlusStamp | zephyrun/src/types/database.ts:110-122 | a run is exactly its Insert plus id and created_at |
| Database.ApplyUserRunUpdate | zephyrun/src/types/database.ts:170 | an update never changes a run's id; an empty update changes nothing |
| Database.UserRunUpdateReachesAllButId | zephyrun/src/types/database.ts:170 | an update can set every run field except id |
| Database.ApplyProfileUpdate | zephyrun/src/types/database.ts:130 | an update never changes a profile's id; an empty update changes nothing |
| Database.ProfileUpdateReachesAllButId | zephyrun/src/types/database.ts:130 | an update can set every profile field except id |
| Store.Settle | zephyrun/src/lib/supabase.ts:43-44 | the helper throws exactly when error is non-null, throws that error, and otherwise returns data; never both |
| DataAccess.Paginate | zephyrun/src/lib/supabase.ts:94-100 | limit is set only when truthy; the range [offset, offset + (limit or 10) - 1] is set only when offset is truthy; nothing else changes |
| DataAccess.PaginationSpan | zephyrun/src/lib/supabase.ts:98-100 | a range starts at the offset and spans limit-or-10 rows: offset 20 alone gives [20,29], with limit 5 gives [20,24], and offset 0 gives no range |
| DataAccess.PagedRowCount | zephyrun/src/lib/supabase.ts:94-100 | a paginated listing returns at most limit-or-10 rows |
| DataAccess.BuildRoutesRequest | zephyrun/src/lib/supabase.ts:69-100 | the routes listing selects routes with the profiles embed, starts with is_public = true, adds the terrain and bound filters in source order, and paginates by the shared rule |
| DataAccess.RouteFiltersMeaning | zephyrun/src/lib/supabase.ts:72-92 | a route passes the listing's filters iff it is public, its terrains include every requested terrain, and it lies within every truthy bound (inclusive, independently) |
| DataAccess.GetRoutes | zephyrun/src/lib/supabase.ts:60-106 | every returned row is a stored public route within all requested bounds; without pagination every such route is returned; a backend error is thrown as is; with a truthy limit or offset at most limit-or-10 rows are returned |
| DataAccess.ZeroBoundIsNoBound | zephyrun/src/lib/supabase.ts:82-84 | maxDistance 0 adds no predicate, so distance is unconstrained |
| DataAccess.TerrainIsSuperset | zephyrun/src/lib/supabase.ts:74-76 | the terrain predicate holds iff the route's terrains are a superset of the requested ones ({trail} matches trail and gravel) |
| DataAccess.RouteByIdRequest | zephyrun/src/lib/supabase.ts:108-113 | the lookup by id embeds profiles and route_ratings, filters on id alone and asks for a single row |
| DataAccess.GetRouteById | zephyrun/src/lib/supabase.ts:108-117 | succeeds iff no fault and exactly one stored route has the id, then returns that route; rows of other tables never count; a fault is thrown as is, and otherwise the single-row error |
| DataAccess.PrivateRouteFoundById | zephyrun/src/lib/supabase.ts:108-113 | a private route is found by its id although the listing never returns it: only the listing has the visibility predicate |
| DataAccess.LookupsReadOwnTable | zephyrun/src/lib/supabase.ts:36-117 | a route never answers getProfile, a profile never answers getRouteById, and a profile is found and updated even when a route shares its id |
| DataAccess.ProfileRequest | zephyrun/src/lib/supabase.ts:36-41 | the profile lookup selects profiles by id and asks for a single row |
| DataAccess.GetProfile | zephyrun/src/lib/supabase.ts:36-45 | succeeds iff no fault and exactly one stored profile has the id, then returns that profile; otherwise throws the fault or the single-row error |
| DataAccess.UpdateProfileRequest | zephyrun/src/lib/supabase.ts:47-53 | the update patches profiles by id, returns the written row and asks for a single row |
| DataAccess.UpdateProfile | zephyrun/src/lib/supabase.ts:47-57 | succeeds iff no fault and exactly one stored profile has the id; the result is that profile with the update applied and the id unchanged; otherwise throws |
| DataAccess.TrailConditionsRequest | zephyrun/src/lib/supabase.ts:131-136 | conditions are filtered by route_id, embed the reporter's profile and are ordered by created_at descending |
| DataAccess.GetTrailConditions | zephyrun/src/lib/supabase.ts:131-140 | on success the result holds every stored condition report of that route and nothing else (no other table's rows); a fault is thrown as is |
| DataAccess.ConditionsExcludeRuns | zephyrun/src/lib/supabase.ts:131-136 | a run logged on the route is not among its condition reports |
| DataAccess.CreateRouteRequest | zephyrun/src/lib/supabase.ts:120-124 | createRoute inserts exactly the caller's record into routes, with no filters, and asks for the single written row back |
| DataAccess.CreateRoute | zephyrun/src/lib/supabase.ts:119-128 | on success returns the persisted route, whose Insert part is the caller's record and whose id and times are the server's; otherwise throws the fault |
| DataAccess.ReportTrailConditionRequest | zephyrun/src/lib/supabase.ts:143-147 | reportTrailCondition inserts exactly the report into trail_conditions and asks for the single written row back |
| DataAccess.ReportTrailCondition | zephyrun/src/lib/supabase.ts:142-151 | on success returns the persisted condition with the caller's fields unchanged and the server's id, created_at and updated_at; otherwise throws the fault |
| DataAccess.JoinChallengeRequest | zephyrun/src/lib/supabase.ts:186-191 | joining inserts exactly {challenge_id, user_id} and returns the single row |
| DataAccess.JoinChallenge | zephyrun/src/lib/supabase.ts:186-195 | on success returns the participant with those two ids, the server's id and joined_at, not completed and with no completion time; otherwise throws |
| DataAccess.LogUserRunRequest | zephyrun/src/lib/supabase.ts:233-237 | logUserRun inserts exactly the run into user_runs and asks for the single written row back |
| DataAccess.LogUserRun | zephyrun/src/lib/supabase.ts:232-241 | on success returns the persisted run with the caller's fields unchanged plus id and created_at; otherwise throws |
| DataAccess.BuildChallengesRequest | zephyrun/src/lib/supabase.ts:159-178 | challenges embed profiles; active undefined adds no window predicate; otherwise both window predicates compare with the one `now`; pagination follows the shared rule |
| DataAccess.WindowFiltersMeaning | zephyrun/src/lib/supabase.ts:163-170 | active = true keeps exactly the challenges with start_date <= now <= end_date; active = false keeps exactly the others |
| DataAccess.ActiveAndInactivePartition | zephyrun/src/lib/supabase.ts:163-170 | at the same `now`, the active and inactive listings split the stored challenges: each is in exactly one |
| DataAccess.GetChallenges | zephyrun/src/lib/supabase.ts:154-184 | every returned row is a stored challenge that is running at `now` (active true), not running (active false), or any (active undefined); without pagination every such challenge is returned; a fault is thrown as is; with a truthy limit or offset at most limit-or-10 rows are returned |
| DataAccess.BuildUserRunsRequest | zephyrun/src/lib/supabase.ts:204-224 | run history embeds routes, is always filtered by user_id and ordered by created_at descending, adds the date bounds, and paginates by the shared rule |
| DataAccess.RunFiltersMeaning | zephyrun/src/lib/supabase.ts:207-216 | a run passes iff it is the user's and its created_at lies within the given dates, both inclusive |
| DataAccess.GetUserRuns | zephyrun/src/lib/supabase.ts:198-230 | every returned row is a stored run of that user created within the inclusive dates; without pagination every such run is returned; a fault is thrown as is; with a truthy limit or offset at most limit-or-10 rows are returned |
| Env.EnvOrEmpty | zephyrun/src/constants/config.ts:2-6 | an unset environment variable reads as the empty string |
| Env.ConfigFrom | zephyrun/src/constants/config.ts:1-7 | each configuration key is the value of its own environment variable, or the empty string when unset |
| Env.CheckEnvVariables | zephyrun/src/utils/env.ts:8-18 | false when the URL is empty or 'your_supabase_url'; false when the key is empty or 'your_supabase_anon_key'; true iff both checks pass |
| Env.CheckReadsOnlyUrlAndKey | zephyrun/src/utils/env.ts:6-18 | the result does not depend on the Gemini key, or on the other keys |
| Env.MissingVariableFails | zephyrun/src/constants/config.ts:2-3 | an unset URL or key variable makes the check fail |
| Env.ConfiguredEnvironmentPasses | zephyrun/src/utils/env.ts:18 | real values for both variables pass |
| Auth.AuthSession.constructor | zephyrun/src/hooks/useAuth.ts:6-11 | initially user is null, loading is true, error is null, the hook is mounted and no listener is registered |
| Auth.AuthSession.CompleteInitialization | zephyrun/src/hooks/useAuth.ts:13-48 | a session user sets user; no session leaves user as it was; both clear loading and then subscribe; an error records error and clears loading without subscribing or rethrowing; once unmounted, user, loading and error are untouched |
| Auth.AuthSession.OnAuthStateChange | zephyrun/src/hooks/useAuth.ts:27-36 | an event overwrites user with its session user or null and clears loading; once unmounted nothing changes |
| Auth.AuthSession.Unmount | zephyrun/src/hooks/useAuth.ts:53-55 | cleanup clears isMounted and changes nothing else; the listener stays registered |
| Auth.AuthSession.BeginAction | zephyrun/src/hooks/useAuth.ts:60 | an action sets loading true on entry |
| Auth.AuthSession.EndAction | zephyrun/src/hooks/useAuth.ts:65-70 | every exit clears loading and rethrows the backend error unchanged |
| Auth.AuthSession.SignIn | zephyrun/src/hooks/useAuth.ts:58-71 | signIn sends the credentials unchanged, ends with loading false, rethrows the backend error, and never writes user or error |
| Auth.AuthSession.SignUp | zephyrun/src/hooks/useAuth.ts:73-86 | the same for registration |
| Auth.AuthSession.SignOut | zephyrun/src/hooks/useAuth.ts:88-98 | the same for sign-out; the user is cleared only by the listener |
| Login.LoginForm.constructor | zephyrun/src/screens/auth/LoginScreen.tsx:12-15 | the form starts with empty fields, loading false and no error |
| Login.LoginForm.ChangeEmail | zephyrun/src/screens/auth/LoginScreen.tsx:93-96 | editing the email sets it and clears the error |
| Login.LoginForm.ChangePassword | zephyrun/src/screens/auth/LoginScreen.tsx:120-123 | editing the password sets it and clears the error |
| Login.LoginForm.BeginLogin | zephyrun/src/screens/auth/LoginScreen.tsx:19-27 | an empty field sets 'Please enter both email and password' and stops without touching loading; non-empty text, whitespace included, clears the error and sets loading |
| Login.LoginForm.FinishLogin | zephyrun/src/screens/auth/LoginScreen.tsx:29-34 | any failure sets 'Invalid email or password. Please try again.' whatever the backend said; loading ends false on both paths |
| Login.LoginForm.HandleLogin | zephyrun/src/screens/auth/LoginScreen.tsx:19-35 | signIn is called, with exactly the two fields, iff both are non-empty; afterwards loading is false and error is cleared or the fixed message |

## Left out

- Client construction and the secure-store adapters (`zephyrun/src/lib/supabase.ts:1-31` and `zephyrun/src/services/supabase.ts`, including that file's throw at module load). They are foreign-library and storage I/O.
- Executing queries against a real backend: the network, joins as real data, ordering of the returned rows, and PostgREST's exact `.limit`/`.range` edge cases. The in-memory store filters and pages rows in store order. It records the requested order but does not sort. Its `Page` lets a range replace a limit and clips out-of-range positions.
- ISO-8601 timestamps: instants are integers, and `new Date().toISOString()` becomes the parameter `now`. A date option of `getUserRuns` is `Some(t)` or `None`; the empty date string, which the code treats as absent, corresponds to `None`.
- JavaScript numbers: distances, difficulties and limits are integers, because only comparisons and one addition are used. `NaN` (also falsy) is not modelled.
- `terrain` option strings that are not terrain names are not modelled: the option is a list of `TerrainType`.
- GeoJSON geometries and the JSON `ai_analysis` are opaque text.
- The `route_ratings`, `running_groups` and `group_members` records, and the `ExperienceLevel`/`TrainingGoalType` spellings: no modelled helper reads or writes their fields. Route ratings appear only as an embed.
- The store is read-only: an insert or update returns the written row, but the rows are not replaced by their state after the write, so a created route is not visible to a later `getRouteById` in the model. Sequences of writes and reads are not modelled.
- Database column defaults are not part of this model, except one assumption: a participant row created by `joinChallenge` takes `completed = false` and no `completed_at`.
- The `setUser` setter the hook also returns (`zephyrun/src/hooks/useAuth.ts:107`) is not modelled: it writes `user` directly, outside every handler, so the `AuthSession` invariant (a user only once the listener is registered) holds for the handlers alone. No screen in the repository calls it.
- Overlapping asynchronous auth calls, token refresh and subscription lifetime. Each handler is one atomic step, and the listener is never unsubscribed, as in the code. `console` logging is not modelled.
- Rendering, navigation, styling, the dev-bypass navigation of the login screen, the other screens' handlers and the App start-up gating. These are UI orchestration, not logic.
- Database.ApplyProfileUpdate: its contract pins down the id, the empty update and one field; the whole-record statement is the lemma Database.ProfileUpdateReachesAllButId.
- Database.ApplyRouteUpdate: its contract pins down the id, the empty update and one field; the whole-record statement is the lemma Database.RouteUpdateReachesAllButId.
- Database.ApplyUserRunUpdate: its contract pins down the id, the empty update and one field; the whole-record statement is the lemma Database.UserRunUpdateReachesAllButId.
