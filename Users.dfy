/** The signed-in user record as the pages read it from the authentication hook. */
module Users {
  import opened Options

  /** The fields of the authentication user that the pages consult. */
  datatype AuthUser = AuthUser(isAnonymous: bool, displayName: Option<string>, email: Option<string>)

  /** JavaScript truthiness of an optional string: present and not empty. */
  predicate Truthy(s: Option<string>) {
    s.Some? && s.value != ""
  }
}
