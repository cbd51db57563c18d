/**
 * Classification of the endpoint's HTTP status code. Every code other
 * than 200 ends the run after its diagnostics are reported.
 */
module Status {
  import opened Decimal

  datatype Outcome = Success | InvalidCredentials | WaterbodyNotFound | ServerError(code: int)

  const InvalidCredentialsMessage := "Invalid Username or Password"
  const WaterbodyNotFoundMessage := "Invalid Waterbody ID"
  const ServerErrorMessage := "Error in running the tool."

  /**
   * The status dispatch: 401 and 404 have their own outcomes, 200 alone
   * lets the run continue, and every other code is a generic failure that
   * keeps the code.
   */
  function Classify(status: int): (o: Outcome)
    ensures o == Success <==> status == 200
    ensures o == InvalidCredentials <==> status == 401
    ensures o == WaterbodyNotFound <==> status == 404
    ensures o.ServerError? <==> status != 200 && status != 401 && status != 404
    ensures o.ServerError? ==> o.code == status
  {
    if status == 401 then InvalidCredentials
    else if status == 404 then WaterbodyNotFound
    else if status != 200 then ServerError(status)
    else Success
  }

  /**
   * The errors reported before the run halts: the status code as text,
   * then the outcome's message, and for a generic failure the host's
   * accumulated messages as well.
   */
  function HaltMessages(status: int, hostMessages: string): (m: seq<string>)
    requires status != 200
    ensures |m| >= 2 && m[0] == IntText(status)
    ensures status == 401 ==> m == ["401", InvalidCredentialsMessage]
    ensures status == 404 ==> m == ["404", WaterbodyNotFoundMessage]
    ensures status != 401 && status != 404 ==> m == [IntText(status), ServerErrorMessage, hostMessages]
  {
    assert IntText(401) == "401" && IntText(404) == "404";
    match Classify(status)
    case InvalidCredentials => [IntText(status), InvalidCredentialsMessage]
    case WaterbodyNotFound => [IntText(status), WaterbodyNotFoundMessage]
    case ServerError(_) => [IntText(status), ServerErrorMessage, hostMessages]
  }
}
