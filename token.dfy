/** The claims a token carries (secure/structures/structures.go). The token codec that
    signs and checks them lies outside the model: its results are inputs of the
    orchestrators in module Api. */
module Token {

  /** Who the token was issued to, for which service, with which of the user's groups,
      and the display name the directory returned at login. */
  datatype Claims = Claims(username: string, service: string, groups: seq<string>, name: string)
}
