/**
 * The provider's configuration step: it checks which credentials were given,
 * normalises the API endpoint and builds the client configuration record.
 * Building the SDK client from that record is not modelled; the model stops
 * at the record.
 */
module ProviderConfig {
  import opened Wrappers

  /** The record handed to the SDK client constructor. */
  datatype Config = Config(
    username: string,
    password: string,
    endpoint: string,
    retries: int,
    token: string)

  const MissingUsernameMessage: string :=
    "Neither ProfitBricks token, nor ProfitBricks username has been provided"
  const MissingPasswordMessage: string :=
    "Neither ProfitBricks token, nor ProfitBricks password has been provided"
  const ConflictingCredentialsMessage: string :=
    "Only provide ProfitBricks token OR ProfitBricks username/password."

  /** True when `url` ends in '/' and is longer than one character. */
  predicate HasStrippableSlash(url: string) {
    |url| > 1 && url[|url| - 1] == '/'
  }

  /**
   * Drops one trailing '/' so that "https://api/" and "https://api" name the
   * same endpoint; a lone "/" and the empty string are left as they are.
   */
  function CleanURL(url: string): (r: string)
    ensures r <= url
    ensures |url| - 1 <= |r| <= |url|
    ensures r == url <==> !HasStrippableSlash(url)
    ensures r != url ==> r + "/" == url
  {
    if HasStrippableSlash(url) then url[..|url| - 1] else url
  }

  /** The empty string and "/" are fixed points of CleanURL. */
  lemma CleanURLFixedPoints()
    ensures CleanURL("") == ""
    ensures CleanURL("/") == "/"
  {
  }

  /**
   * CleanURL strips only one slash, so applying it again changes the result
   * exactly when the input ends in two slashes after at least one other
   * character.
   */
  lemma CleanURLIdempotentIff(url: string)
    ensures CleanURL(CleanURL(url)) == CleanURL(url) <==>
              !(|url| > 2 && url[|url| - 1] == '/' && url[|url| - 2] == '/')
  {
  }

  /** CleanURL is not idempotent: "a//" is cleaned to "a/", then to "a". */
  lemma CleanURLNotIdempotent()
    ensures exists url :: CleanURL(CleanURL(url)) != CleanURL(url)
  {
    var url := "a//";
    assert CleanURL(url) == "a/";
    assert CleanURL("a/") == "a";
  }

  /** The credential check alone: `None` when it passes, else its message. */
  function CredentialError(usernameOk: bool, passwordOk: bool, token: string): (e: Option<string>)
    ensures e == None <==> (token == "" && usernameOk && passwordOk)
                           || (token != "" && !usernameOk && !passwordOk)
    ensures token == "" && !usernameOk ==> e == Some(MissingUsernameMessage)
    ensures token == "" && usernameOk && !passwordOk ==> e == Some(MissingPasswordMessage)
    ensures token != "" && (usernameOk || passwordOk) ==> e == Some(ConflictingCredentialsMessage)
  {
    if token == "" then
      if !usernameOk then Some(MissingUsernameMessage)
      else if !passwordOk then Some(MissingPasswordMessage)
      else None
    else if usernameOk || passwordOk then Some(ConflictingCredentialsMessage)
    else None
  }

  /**
   * The configuration step. `username` and `password` are `None` when the
   * setting is absent (the source's `ok` flag is false), in which case the
   * record receives the empty string. A token excludes username and password;
   * without a token both are required, username checked first.
   */
  function ProviderConfigure(
    username: Option<string>,
    password: Option<string>,
    token: string,
    endpoint: string,
    retries: int): (r: Result<Config, string>)
    ensures r.Success? <==> (token == "" && username.Some? && password.Some?)
                            || (token != "" && username.None? && password.None?)
    ensures token == "" && username.None? ==> r == Failure(MissingUsernameMessage)
    ensures token == "" && username.Some? && password.None? ==> r == Failure(MissingPasswordMessage)
    ensures token != "" && (username.Some? || password.Some?) ==> r == Failure(ConflictingCredentialsMessage)
    ensures r.Success? ==>
              && r.value.endpoint == CleanURL(endpoint)
              && r.value.token == token
              && r.value.retries == retries
              && r.value.username == (if token == "" then username.value else "")
              && r.value.password == (if token == "" then password.value else "")
  {
    match CredentialError(username.Some?, password.Some?, token)
    case Some(msg) => Failure(msg)
    case None =>
      Success(Config(
        username := username.GetOr(""),
        password := password.GetOr(""),
        endpoint := CleanURL(endpoint),
        retries := retries,
        token := token))
  }

  /**
   * The three rejections are told apart by their messages, so a caller can
   * recover which rule was broken from the error alone.
   */
  lemma RejectionMessagesDistinct()
    ensures MissingUsernameMessage != MissingPasswordMessage
    ensures MissingUsernameMessage != ConflictingCredentialsMessage
    ensures MissingPasswordMessage != ConflictingCredentialsMessage
  {
  }
}
