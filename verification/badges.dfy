/**
 * Colour tables shared by the user screens. Colours stand for the Tailwind
 * classes of the badges; the badge text is whatever value the page prints.
 */
module Badges {
  import opened Js

  datatype Colour = Green | Yellow | Red | Blue | Purple | Orange | Gray

  datatype Badge = Badge(text: Value, colour: Colour)

  /** The status badge of UserList and UserDetail, driven by `isVerified`. */
  function VerifiedBadge(isVerified: Value): (b: Badge)
    ensures b.text == Str("Active") <==> Truthy(isVerified)
    ensures b.text == Str("Inactive") <==> !Truthy(isVerified)
    ensures b.colour == Green <==> b.text == Str("Active")
    ensures b.colour == Red <==> b.text == Str("Inactive")
  {
    if Truthy(isVerified) then Badge(Str("Active"), Green) else Badge(Str("Inactive"), Red)
  }

  /** `roleColors`; its `'default'` entry is the same grey as the fallback. */
  const RoleColours: map<string, Colour> :=
    map["admin" := Purple, "active" := Blue, "restricted" := Orange, "default" := Gray]

  /** Only the strings themselves reach the named entries of the role table. */
  lemma RoleKeys(role: Value)
    ensures PropertyKey(role) == "admin" <==> role == Str("admin")
    ensures PropertyKey(role) == "active" <==> role == Str("active")
    ensures PropertyKey(role) == "restricted" <==> role == Str("restricted")
    ensures PropertyKey(role) == "default" <==> role == Str("default")
  {
    assert "admin"[0] == 'a';
    StringOnlyKey(role, "admin");
    assert "active"[0] == 'a';
    StringOnlyKey(role, "active");
    assert "restricted"[0] == 'r';
    StringOnlyKey(role, "restricted");
    assert "default"[0] == 'd';
    StringOnlyKey(role, "default");
  }

  /** `roleColors[role] || grey`. */
  function RoleColour(role: Value): (c: Colour)
    ensures c == Purple <==> role == Str("admin")
    ensures c == Blue <==> role == Str("active")
    ensures c == Orange <==> role == Str("restricted")
    ensures c == Gray <==> role !in {Str("admin"), Str("active"), Str("restricted")}
  {
    RoleKeys(role);
    match Lookup(RoleColours, role)
    case Some(c) => c
    case None => Gray
  }

  /** The role badge of UserList and UserDetail: the role, or `'Not set'` when it is falsy. */
  function RoleBadge(role: Value): (b: Badge)
    ensures Truthy(b.text)
    ensures Truthy(role) ==> b.text == role
    ensures !Truthy(role) ==> b.text == Str("Not set") && b.colour == Gray
    ensures b.colour == RoleColour(role)
  {
    Badge(Or(role, Str("Not set")), RoleColour(role))
  }

  /** `typeColors` of the activity badges. */
  const ActivityColours: map<string, Colour> :=
    map["sent" := Blue, "reply" := Green, "ai-reply" := Purple, "manual-reply" := Orange]

  lemma ActivityKeys(activity: Value)
    ensures PropertyKey(activity) == "sent" <==> activity == Str("sent")
    ensures PropertyKey(activity) == "reply" <==> activity == Str("reply")
    ensures PropertyKey(activity) == "ai-reply" <==> activity == Str("ai-reply")
    ensures PropertyKey(activity) == "manual-reply" <==> activity == Str("manual-reply")
  {
    assert "sent"[0] == 's';
    StringOnlyKey(activity, "sent");
    assert "reply"[0] == 'r';
    StringOnlyKey(activity, "reply");
    assert "ai-reply"[0] == 'a';
    StringOnlyKey(activity, "ai-reply");
    assert "manual-reply"[0] == 'm';
    StringOnlyKey(activity, "manual-reply");
  }

  /** `typeColors[type] || grey`; the badge text is the activity type itself. */
  function ActivityBadge(activity: Value): (b: Badge)
    ensures b.text == activity
    ensures b.colour == Blue <==> activity == Str("sent")
    ensures b.colour == Green <==> activity == Str("reply")
    ensures b.colour == Purple <==> activity == Str("ai-reply")
    ensures b.colour == Orange <==> activity == Str("manual-reply")
    ensures b.colour == Gray <==>
      activity !in {Str("sent"), Str("reply"), Str("ai-reply"), Str("manual-reply")}
  {
    ActivityKeys(activity);
    match Lookup(ActivityColours, activity)
    case Some(c) => Badge(activity, c)
    case None => Badge(activity, Gray)
  }
}
