/** The dashboard greeting: a priority cascade over the signed-in user's fields. */
module WelcomeHeader {
  import opened Options
  import opened Users

  /**
   * No user: a guest welcome. An anonymous user: the anonymous welcome,
   * whatever else is set. Otherwise the display name, else the email, after
   * "Welcome back, ", and plain "Welcome back" when neither is set.
   */
  function Greeting(user: Option<AuthUser>): string
  {
    match user
    case None => "Welcome, guest"
    case Some(u) =>
      if u.isAnonymous then "Welcome, Anonymous User"
      else if Truthy(u.displayName) then "Welcome back, " + u.displayName.value
      else if Truthy(u.email) then "Welcome back, " + u.email.value
      else "Welcome back"
  }

  /** The name a greeting addresses: the text after "Welcome back, ", if the greeting has that form. */
  function GreetedName(greeting: string): (name: Option<string>)
    ensures name.Some? ==> greeting == "Welcome back, " + name.value
  {
    var prefix := "Welcome back, ";
    if |prefix| <= |greeting| && greeting[..|prefix|] == prefix then
      assert greeting == prefix + greeting[|prefix|..];
      Some(greeting[|prefix|..])
    else None
  }

  /**
   * The greeting names the user exactly when a signed-in, non-anonymous user
   * has a display name or an email, and then it names the display name when
   * there is one and the email otherwise; the anonymous flag overrides both;
   * a signed-in user with neither is greeted with plain "Welcome back".
   */
  lemma GreetingAddressesUser(user: Option<AuthUser>)
    ensures GreetedName(Greeting(user)).Some? <==>
      user.Some? && !user.value.isAnonymous && (Truthy(user.value.displayName) || Truthy(user.value.email))
    ensures GreetedName(Greeting(user)).Some? ==>
      GreetedName(Greeting(user)).value ==
        if Truthy(user.value.displayName) then user.value.displayName.value else user.value.email.value
    ensures user.Some? && user.value.isAnonymous ==> Greeting(user) == "Welcome, Anonymous User"
    ensures user.None? ==> Greeting(user) == "Welcome, guest"
    ensures user.Some? && !user.value.isAnonymous && !Truthy(user.value.displayName) && !Truthy(user.value.email) ==>
      Greeting(user) == "Welcome back"
  {
    var prefix := "Welcome back, ";
    match user
    case None =>
      assert "Welcome, guest"[..|prefix|] != prefix by { assert "Welcome, guest"[8] != prefix[8]; }
    case Some(u) =>
      if u.isAnonymous {
        assert "Welcome, Anonymous User"[..|prefix|] != prefix by { assert "Welcome, Anonymous User"[8] != prefix[8]; }
      } else if Truthy(u.displayName) || Truthy(u.email) {
        var n := if Truthy(u.displayName) then u.displayName.value else u.email.value;
        assert Greeting(user) == prefix + n;
        assert (prefix + n)[..|prefix|] == prefix;
        assert (prefix + n)[|prefix|..] == n;
      } else {
        assert |"Welcome back"| < |prefix|;
      }
  }
}
