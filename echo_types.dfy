/** The records the extension exchanges with the hosted authentication and
    billing service (src/types/echo.ts). Monetary amounts are floating-point
    numbers in the source; here they are carried as reals and never computed with. */
module EchoTypes {
  import opened Wrappers

  datatype EchoUser = EchoUser(id: string, email: string, name: Option<string>, picture: Option<string>)

  datatype EchoBalance = EchoBalance(totalPaid: real, totalSpent: real, balance: real, currency: string)

  /** The token pair issued by a sign-in or a refresh, with expiry instants in
      milliseconds since the epoch. */
  datatype TokenData = TokenData(
    accessToken: string,
    accessTokenExpiresAt: int,
    refreshToken: string,
    refreshTokenExpiresAt: int)
}
