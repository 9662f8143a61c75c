/**
 * The identity provider and the `profiles` table as the dashboards see
 * them when they check who is signed in: a session or none, then the
 * profile row fetched with `.single()`.
 */
module Auth {
  import opened Wrappers

  /** A signed-in session; only the user id is read. */
  datatype Session = Session(userId: string)

  /** A `profiles` row; the staff dashboard reads only `fullName` and `role`. */
  datatype Profile = Profile(fullName: string, role: string, department: string, year: int, email: string)

  /** The `{ data, error }` pair a profile query resolves to. */
  datatype ProfileResponse = ProfileResponse(failed: bool, data: Option<Profile>)

  /** Where a `checkAuth` ends: the dashboard is shown, or the user is sent to a login route, signed out first or not. */
  datatype GateOutcome = Admit(profile: Profile) | Redirect(signedOut: bool, route: string)
}
