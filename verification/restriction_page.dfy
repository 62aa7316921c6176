/**
 * The restriction screen: fetched users become table rows, and the restrict,
 * suspend and activate buttons each PATCH the user and, once the PATCH has
 * succeeded, rewrite the status of the matching row in local state.
 */
module RestrictionPage {
  import opened Js
  import opened Screen
  import opened Badges
  import opened Users

  /** A table row; `registered` (a locale-formatted date) is not modelled. */
  datatype UserRow = UserRow(id: string, name: string, email: string, plan: Value, role: Value, status: string)

  /** The transform applied to each fetched user. */
  function ToRow(u: ApiUser): (row: UserRow)
    ensures row.id == u.id && row.name == u.username && row.email == u.email && row.role == u.role
    ensures row.status == "active" <==> Truthy(u.isVerified)
    ensures row.status == "inactive" <==> !Truthy(u.isVerified)
    ensures Truthy(row.plan)
    ensures Truthy(u.plan) ==> row.plan == u.plan
    ensures !Truthy(u.plan) ==> row.plan == Str("Free")
  {
    UserRow(u.id, u.username, u.email, Or(u.plan, Str("Free")), u.role,
      if Truthy(u.isVerified) then "active" else "inactive")
  }

  /** One row per fetched user, in fetched order. */
  function ToRows(users: seq<ApiUser>): (rows: seq<UserRow>)
    ensures |rows| == |users|
    ensures forall i :: 0 <= i < |users| ==> rows[i] == ToRow(users[i])
  {
    seq(|users|, i requires 0 <= i < |users| => ToRow(users[i]))
  }

  const LoadError: string := "Failed to fetch users data"

  function LoadUsers(outcome: Outcome<seq<ApiUser>>): (s: Load<seq<UserRow>>)
    ensures !s.loading
    ensures outcome.Success? ==> s.error.None? && s.data == ToRows(outcome.value)
    ensures outcome.Failure? ==> s.error == Some(LoadError) && s.data == []
  {
    var rows := match outcome
      case Success(users) => Success(ToRows(users))
      case Failure => Failure;
    Settle(Mounted([]), rows, LoadError)
  }

  /** `updateUserStatus`: only the status of the rows whose id matches changes. */
  function UpdateUserStatus(rows: seq<UserRow>, userId: string, newStatus: string): (r: seq<UserRow>)
    ensures |r| == |rows|
    ensures forall i :: 0 <= i < |rows| ==> r[i].(status := rows[i].status) == rows[i]
    ensures forall i :: 0 <= i < |rows| && rows[i].id == userId ==> r[i].status == newStatus
    ensures forall i :: 0 <= i < |rows| && rows[i].id != userId ==> r[i] == rows[i]
  {
    seq(|rows|, i requires 0 <= i < |rows| =>
      if rows[i].id == userId then rows[i].(status := newStatus) else rows[i])
  }

  /** A second update of the same user to a new status overrides the first. */
  lemma UpdateLastWins(rows: seq<UserRow>, userId: string, first: string, second: string)
    ensures UpdateUserStatus(UpdateUserStatus(rows, userId, first), userId, second)
      == UpdateUserStatus(rows, userId, second)
  {
  }

  /** Repeating an update changes nothing more. */
  lemma UpdateIdempotent(rows: seq<UserRow>, userId: string, status: string)
    ensures UpdateUserStatus(UpdateUserStatus(rows, userId, status), userId, status)
      == UpdateUserStatus(rows, userId, status)
  {
    UpdateLastWins(rows, userId, status, status);
  }

  /** Updates of two different users can land in either order. */
  lemma UpdatesCommute(rows: seq<UserRow>, a: string, s: string, b: string, t: string)
    requires a != b
    ensures UpdateUserStatus(UpdateUserStatus(rows, a, s), b, t)
      == UpdateUserStatus(UpdateUserStatus(rows, b, t), a, s)
  {
  }

  /** The three row buttons. */
  datatype Action = Restrict | Suspend | Activate

  /** The fields a PATCH /users/:id body sets. */
  datatype PatchBody = PatchBody(role: Option<string>, isVerified: Option<bool>)

  datatype Request = Patch(path: string, body: PatchBody)

  function PatchFor(action: Action): PatchBody {
    match action
    case Restrict => PatchBody(Some("restricted"), None)
    case Suspend => PatchBody(None, Some(false))
    case Activate => PatchBody(Some("active"), Some(true))
  }

  /** The local status each action writes after a successful PATCH. */
  function StatusAfter(action: Action): string {
    match action
    case Restrict => "inactive"
    case Suspend => "inactive"
    case Activate => "active"
  }

  function SuccessAlert(action: Action, name: string): string {
    match action
    case Restrict => "User " + name + " has been restricted."
    case Suspend => "User " + name + " has been suspended."
    case Activate => "User " + name + " has been activated."
  }

  function FailureAlert(action: Action): string {
    match action
    case Restrict => "Failed to restrict user."
    case Suspend => "Failed to suspend user."
    case Activate => "Failed to activate user."
  }

  /** What one click does: the request sent, the rows afterwards, the alert shown. */
  datatype Effect = Effect(rows: seq<UserRow>, request: Option<Request>, alert: Option<string>)

  /**
   * `handleRestrictAccount`, `handleSuspendAccount` and `handleAction`:
   * declining the confirmation does nothing; otherwise the PATCH is sent and
   * the local status changes only if it succeeds.
   */
  function HandleAction(
    rows: seq<UserRow>, action: Action, target: UserRow, confirmed: bool, outcome: Outcome<()>): (e: Effect)
    ensures !confirmed ==> e == Effect(rows, None, None)
    ensures confirmed ==> e.request == Some(Patch("/users/" + target.id, PatchFor(action)))
    ensures confirmed && outcome.Success? ==>
      e.rows == UpdateUserStatus(rows, target.id, StatusAfter(action))
      && e.alert == Some(SuccessAlert(action, target.name))
    ensures outcome.Failure? ==> e.rows == rows
    ensures confirmed && outcome.Failure? ==> e.alert == Some(FailureAlert(action))
  {
    if !confirmed then Effect(rows, None, None)
    else
      var request := Some(Patch("/users/" + target.id, PatchFor(action)));
      match outcome
      case Success(_) =>
        Effect(UpdateUserStatus(rows, target.id, StatusAfter(action)), request, Some(SuccessAlert(action, target.name)))
      case Failure =>
        Effect(rows, request, Some(FailureAlert(action)))
  }

  /** `getStatusBadge(status)`: "Active" for exactly `'active'`, "Inactive" for anything else. */
  function StatusBadge(status: string): (b: Badge)
    ensures b.text == Str("Active") <==> status == "active"
    ensures b.text == Str("Inactive") <==> status != "active"
    ensures b.colour == Green <==> status == "active"
    ensures b.colour == Red <==> status != "active"
  {
    if status == "active" then Badge(Str("Active"), Green) else Badge(Str("Inactive"), Red)
  }

  /** The restriction table shows a user's status with the badge the user list and detail page give the raw `isVerified`. */
  lemma StatusBadgeOfRow(u: ApiUser)
    ensures StatusBadge(ToRow(u).status) == VerifiedBadge(u.isVerified)
  {
  }

  /**
   * After a confirmed, successful click every row of the target user shows
   * "Active" exactly when the action was Activate; every other row is as it was.
   */
  lemma ActionBadge(rows: seq<UserRow>, action: Action, target: UserRow, i: int)
    requires 0 <= i < |rows|
    ensures var e := HandleAction(rows, action, target, true, Success(()));
      && (rows[i].id == target.id ==>
            (StatusBadge(e.rows[i].status).text == Str("Active") <==> action == Activate))
      && (rows[i].id != target.id ==> e.rows[i] == rows[i])
  {
  }

  /** The plan column: `planNumberToName[row.plan] || row.plan`. */
  function PlanCell(plan: Value): (r: Value)
    ensures IsPlanCode(plan) ==> r == Str(PlanCodeName(plan).value)
    ensures !IsPlanCode(plan) ==> r == plan
  {
    Or(PlanCodeValue(plan), plan)
  }

  /** Because rows carry `plan || 'Free'`, the plan column is never blank. */
  lemma PlanCellNeverBlank(u: ApiUser)
    ensures Truthy(PlanCell(ToRow(u).plan))
    ensures !Truthy(u.plan) ==> PlanCell(ToRow(u).plan) == Str("Free")
  {
    assert !IsPlanCode(Str("Free"));
  }

  /**
   * How the status column relates to the server. Suspend and Activate write
   * the same status a reload of the patched user would derive from
   * `isVerified`; Restrict only changes `role`, so a verified user it marks
   * inactive shows as active again after a reload.
   */
  function ApplyPatch(u: ApiUser, body: PatchBody): (p: ApiUser)
    ensures p.id == u.id && p.username == u.username && p.email == u.email && p.plan == u.plan
    ensures body.role.Some? ==> p.role == Str(body.role.value)
    ensures body.role.None? ==> p.role == u.role
    ensures body.isVerified.Some? ==> p.isVerified == Bool(body.isVerified.value)
    ensures body.isVerified.None? ==> p.isVerified == u.isVerified
  {
    u.(role := if body.role.Some? then Str(body.role.value) else u.role,
       isVerified := if body.isVerified.Some? then Bool(body.isVerified.value) else u.isVerified)
  }

  lemma LocalStatusMatchesReload(u: ApiUser, action: Action)
    ensures action != Restrict ==>
      StatusAfter(action) == ToRow(ApplyPatch(u, PatchFor(action))).status
    ensures action == Restrict ==>
      (StatusAfter(action) == ToRow(ApplyPatch(u, PatchFor(action))).status <==> !Truthy(u.isVerified))
  {
  }

  /** A verified user with plan 2 is listed as premium and Active. */
  lemma VerifiedPremiumUserRow()
    ensures var row := ToRow(ApiUser("1", "ann", "a@x.com", Str("active"), Num(2), Bool(true), Undefined));
      PlanCell(row.plan) == Str("premium") && StatusBadge(row.status).text == Str("Active")
  {
  }
}
