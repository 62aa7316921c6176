/**
 * The user list: one table row per fetched user, with role and status
 * badges and a plan column that names plan codes and shows `'Free'` for
 * everything else.
 */
module UserList {
  import opened Js
  import opened Screen
  import opened Badges
  import opened Users

  /** `planNumberToName[user.plan] || 'Free'`: an unknown plan never shows its raw value. */
  function PlanLabel(plan: Value): (r: string)
    ensures r in {"basic", "premium", "premiumPlus", "Free"}
    ensures r == "Free" <==> !IsPlanCode(plan)
    ensures IsPlanCode(plan) ==> Some(r) == PlanCodeName(plan)
  {
    match PlanCodeName(plan)
    case Some(name) => name
    case None => "Free"
  }

  datatype ListRow = ListRow(username: string, email: string, role: Badge, plan: string, status: Badge, link: string)

  /** A row of the table; the View button links to the user's detail page. */
  function RowOf(u: ApiUser): (row: ListRow)
    ensures row.username == u.username && row.email == u.email
    ensures row.status == VerifiedBadge(u.isVerified)
    ensures row.status.text == Str("Active") <==> Truthy(u.isVerified)
    ensures row.role.text == (if Truthy(u.role) then u.role else Str("Not set"))
    ensures row.role.colour == RoleColour(u.role)
    ensures row.plan == PlanLabel(u.plan)
    ensures row.link == "/user/" + u.id
  {
    ListRow(u.username, u.email, RoleBadge(u.role), PlanLabel(u.plan), VerifiedBadge(u.isVerified), "/user/" + u.id)
  }

  /** One row per user, in fetched order. */
  function Rows(users: seq<ApiUser>): (rows: seq<ListRow>)
    ensures |rows| == |users|
    ensures forall i :: 0 <= i < |users| ==> rows[i] == RowOf(users[i])
  {
    seq(|users|, i requires 0 <= i < |users| => RowOf(users[i]))
  }

  const LoadError: string := "Failed to fetch users"

  function LoadUsers(outcome: Outcome<seq<ApiUser>>): (s: Load<seq<ApiUser>>)
    ensures !s.loading
    ensures outcome.Success? ==> s.error.None? && s.data == outcome.value
    ensures outcome.Failure? ==> s.error == Some(LoadError) && s.data == []
  {
    Settle(Mounted([]), outcome, LoadError)
  }

  /** Loading, then the error, then the rows. */
  function UserListScreen(s: Load<seq<ApiUser>>): (v: View<seq<ListRow>>)
    ensures v.LoadingView? <==> s.loading
    ensures !s.loading && HasError(s) ==> v == ErrorView(s.error.value)
    ensures v.ContentView? <==> !s.loading && !HasError(s)
    ensures v.ContentView? ==> v.content == Rows(s.data)
  {
    match Render(s)
    case LoadingView => LoadingView
    case ErrorView(m) => ErrorView(m)
    case ContentView(users) => ContentView(Rows(users))
  }
}
