/** The user menu's texts (src/components/nav-user.tsx): the display name
    and the initials. `toUpperCase` is a parameter. */
module NavUser {
  import opened Common

  const FallbackName := "Kullan\U{0131}c\U{0131}"
  const FallbackInitials := "U"

  /** The signed-in user; an empty profile name is stored as null. */
  datatype UserInfo = UserInfo(email: string, firstName: Option<string>, lastName: Option<string>)

  /** `email.split("@")[0]`: the text before the first "@", or all of it. */
  function LocalPart(email: string): (r: string)
    ensures |r| <= |email| && r == email[..|r|]
    ensures !Includes(r, "@")
    ensures r == email || email[|r|] == '@'
  {
    var at := IndexOf(email, "@", 0);
    if at == -1 then email
    else
      assert forall i: nat :: i < at ==> !OccursAt(email, "@", i);
      assert forall i: nat :: OccursAt(email[..at], "@", i) ==> OccursAt(email, "@", i) by {
        forall i: nat | OccursAt(email[..at], "@", i) ensures OccursAt(email, "@", i) {
          assert email[..at][i..i + 1] == email[i..i + 1];
        }
      }
      IncludesIffOccurs(email[..at], "@");
      assert email[at..at + 1] == "@";
      email[..at]
  }

  /** `getDisplayName`: "first last" trimmed when either name is set,
      otherwise the email's local part, or "Kullanıcı" when that is empty. */
  function DisplayName(u: UserInfo): (r: string)
    ensures Truthy(u.firstName) || Truthy(u.lastName) ==> r == Trim(OrEmpty(u.firstName) + " " + OrEmpty(u.lastName))
    ensures !Truthy(u.firstName) && !Truthy(u.lastName) && LocalPart(u.email) != "" ==> r == LocalPart(u.email)
    ensures !Truthy(u.firstName) && !Truthy(u.lastName) && LocalPart(u.email) == "" ==> r == FallbackName
  {
    if Truthy(u.firstName) || Truthy(u.lastName) then Trim(OrEmpty(u.firstName) + " " + OrEmpty(u.lastName))
    else if LocalPart(u.email) != "" then LocalPart(u.email)
    else FallbackName
  }

  /** Without a profile name the display name never shows the email's
      domain, and an email starting with "@" shows "Kullanıcı". */
  lemma NameWithoutProfile(u: UserInfo)
    requires !Truthy(u.firstName) && !Truthy(u.lastName)
    ensures !Includes(DisplayName(u), "@") || DisplayName(u) == FallbackName
    ensures u.email != [] && u.email[0] == '@' ==> DisplayName(u) == FallbackName
  {
    if u.email != [] && u.email[0] == '@' {
      assert OccursAt(u.email, "@", 0);
    }
  }

  /** `getInitials`: both first letters when both names are set, the
      first two characters of a lone first name, else of the email, or "U". */
  function Initials(u: UserInfo, upper: string -> string): (r: string)
    ensures Truthy(u.firstName) && Truthy(u.lastName) ==> r == upper([u.firstName.value[0], u.lastName.value[0]])
    ensures Truthy(u.firstName) && !Truthy(u.lastName) ==> r == upper(Slice(u.firstName.value, 0, 2))
    ensures !Truthy(u.firstName) ==> r == if upper(Slice(u.email, 0, 2)) == "" then FallbackInitials else upper(Slice(u.email, 0, 2))
    ensures !Truthy(u.firstName) ==> r != ""
  {
    if Truthy(u.firstName) && Truthy(u.lastName) then upper([u.firstName.value[0], u.lastName.value[0]])
    else if Truthy(u.firstName) then upper(Slice(u.firstName.value, 0, 2))
    else
      var e := upper(Slice(u.email, 0, 2));
      if e == "" then FallbackInitials else e
  }

  /** The menu renders nothing without a user, else both texts. */
  function MenuTexts(user: Option<UserInfo>, upper: string -> string): (r: Option<(string, string)>)
    ensures r.None? <==> user.None?
    ensures r.Some? ==> r.value == (DisplayName(user.value), Initials(user.value, upper))
  {
    if user.None? then None else Some((DisplayName(user.value), Initials(user.value, upper)))
  }
}
