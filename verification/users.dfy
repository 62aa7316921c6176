/**
 * The user record the `/users` endpoints return, and the plan-code table the
 * user screens translate it with.
 */
module Users {
  import opened Js

  /** The fields of a fetched user that the screens read (`_id` is `id` here). */
  datatype ApiUser = ApiUser(
    id: string,
    username: string,
    email: string,
    role: Value,
    plan: Value,
    isVerified: Value,
    provider: Value)

  /**
   * `planNumberToName`. The screens write its keys as `1`, `2`, `3` and in
   * two of them also `'1'`, `'2'`, `'3'`; object keys are strings, so every
   * one of those literals is this table.
   */
  const PlanNumberToName: map<string, string> :=
    map["1" := "basic", "2" := "premium", "3" := "premiumPlus"]

  /** A plan code is the number or the digit string 1, 2 or 3. */
  predicate IsPlanCode(plan: Value) {
    plan in {Num(1), Num(2), Num(3), Str("1"), Str("2"), Str("3")}
  }

  /** The plan table is hit by codes and by nothing else: no other number, string or literal prints as its keys. */
  lemma {:induction false} PlanKeys(plan: Value)
    ensures PropertyKey(plan) in PlanNumberToName <==> IsPlanCode(plan)
  {
    if plan.Num? {
      NumKeyIsDigit(plan.n, '1');
      NumKeyIsDigit(plan.n, '2');
      NumKeyIsDigit(plan.n, '3');
    }
  }

  /** `planNumberToName[plan]`: the plan's name for a code, undefined otherwise. */
  function PlanCodeName(plan: Value): (r: Option<string>)
    ensures r.Some? <==> IsPlanCode(plan)
    ensures plan in {Num(1), Str("1")} ==> r == Some("basic")
    ensures plan in {Num(2), Str("2")} ==> r == Some("premium")
    ensures plan in {Num(3), Str("3")} ==> r == Some("premiumPlus")
  {
    PlanKeys(plan);
    Lookup(PlanNumberToName, plan)
  }

  /** The lookup result as a JavaScript value, ready for a `||` chain. */
  function PlanCodeValue(plan: Value): (r: Value)
    ensures Truthy(r) <==> IsPlanCode(plan)
    ensures IsPlanCode(plan) ==> r == Str(PlanCodeName(plan).value)
  {
    match PlanCodeName(plan)
    case Some(name) => Str(name)
    case None => Undefined
  }
}
