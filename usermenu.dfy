/**
 * The avatar menu of the header (components/user-menu.tsx): nothing without
 * a signed-in user, otherwise the avatar initials and the name shown in the
 * menu, each with two levels of fallback. The profile page computes the
 * same two values from the same user.
 */
module UserMenu {
  import opened Js

  /** Both `user.firstName` and `user.lastName` are non-empty strings. */
  predicate HasNames(user: map<string, string>) {
    Truthy(Field(user, "firstName")) && Truthy(Field(user, "lastName"))
  }

  /**
   * `initials`: the first letters of the two names as they are written, or
   * else the upper-cased first letter of the e-mail address, or else "U".
   */
  function Initials(user: map<string, string>): (r: string)
    ensures 1 <= |r| <= 2
    ensures |r| == 2 <==> HasNames(user)
    ensures HasNames(user) ==> r == [user["firstName"][0], user["lastName"][0]]
    ensures !HasNames(user) && Truthy(Field(user, "email")) ==> r == [UpperChar(user["email"][0])]
    ensures !HasNames(user) && !Truthy(Field(user, "email")) ==> r == "U"
  {
    if HasNames(user) then [user["firstName"][0]] + [user["lastName"][0]]
    else if Truthy(Field(user, "email")) then [UpperChar(user["email"][0])]
    else "U"
  }

  /** `displayName`: "first last", or else the e-mail address, or else "User"; never empty. */
  function DisplayName(user: map<string, string>): (r: string)
    ensures r != ""
    ensures HasNames(user) ==> r == user["firstName"] + " " + user["lastName"]
    ensures !HasNames(user) && Truthy(Field(user, "email")) ==> r == user["email"]
    ensures !HasNames(user) && !Truthy(Field(user, "email")) ==> r == "User"
  {
    if HasNames(user) then user["firstName"] + " " + user["lastName"]
    else OrElse(Field(user, "email"), "User")
  }

  /** What the menu shows: the avatar initials, the name, and the address under it. */
  datatype Menu = Menu(initials: string, displayName: string, email: Option<string>)

  /** `if (!user) return null`, and the menu otherwise. */
  function Render(user: Option<map<string, string>>): (m: Option<Menu>)
    ensures m.None? <==> user.None?
    ensures m.Some? ==> m.value.initials != "" && m.value.displayName != ""
    ensures m.Some? ==> m.value == Menu(Initials(user.value), DisplayName(user.value), Field(user.value, "email"))
  {
    if user.None? then None
    else Some(Menu(Initials(user.value), DisplayName(user.value), Field(user.value, "email")))
  }
}
