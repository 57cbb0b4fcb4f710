/** The user entity that the storage rows map to (package `auth`). */
module Auth {
  import opened Strconv
  import opened Constraints

  /** PasswordHash is never serialised (`json:"-"`) and carries no tag. */
  datatype User = User(id: UInt64, username: string, passwordHash: string)

  /** `validate:"required,min=3,max=32"` on Username. */
  const UsernameRules: seq<Rule> := [Required, Min(3), Max(32)]

  predicate ValidUser(u: User) {
    Satisfies(u.username, UsernameRules)
  }

  lemma ValidUserBounds(u: User)
    ensures ValidUser(u) <==> 3 <= |u.username| <= 32
  {
    RequiredMinMax(u.username, 3, 32);
  }
}
