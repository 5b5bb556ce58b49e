/** The identity a request carries: the signed-in user's id, role and group. */
module Session {
  import opened Wrappers

  datatype Role = Admin | User

  /** `session.user`: id, role and the optional group used for shared access. */
  datatype SessionUser = SessionUser(id: string, role: Role, groupId: Option<string>)

  /** A session may be missing (`!session?.user`). */
  type MaybeSession = Option<SessionUser>

  /** The guard of every admin action: a session whose user is an ADMIN. */
  predicate IsAdmin(session: MaybeSession) {
    session.Some? && session.value.role == Admin
  }
}
