/** The authentication records exchanged with the server (webapp/src/types/auth.ts). */
module AuthTypes {

  /** A user profile as the server sends it; `id` is a JSON number, modelled as an integer. */
  datatype User = User(id: int, username: string, email: string)

  /** What the login form submits. */
  datatype LoginCredentials = LoginCredentials(email: string, password: string)

  /** What the register form submits; `confirmPassword` is checked on the client only. */
  datatype RegisterCredentials =
    RegisterCredentials(username: string, email: string, password: string, confirmPassword: string)

  /** The body of a successful login or token refresh. */
  datatype AuthResponse = AuthResponse(token: string, user: User)
}
