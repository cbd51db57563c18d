/**
 * The request sent to the export endpoint: the three tool parameters
 * gathered into a dictionary that is filled in place, one key at a time,
 * before it is serialised as the JSON body.
 */
module Request {
  import opened Optional

  /** The three tool parameters: waterbody id, username and password. */
  datatype ImportRequest = ImportRequest(waterbodyId: int, username: string, password: string)

  /** The two kinds of JSON value the request body holds. */
  datatype JsonValue = JsonInt(n: int) | JsonString(s: string)

  const IdKey := "Id"
  const UsernameKey := "Username"
  const PasswordKey := "Password"

  /** How the endpoint reads a body back: the id as an integer, the credentials as strings. */
  function ReadRequest(body: map<string, JsonValue>): Option<ImportRequest> {
    if && IdKey in body && body[IdKey].JsonInt?
       && UsernameKey in body && body[UsernameKey].JsonString?
       && PasswordKey in body && body[PasswordKey].JsonString?
    then Some(ImportRequest(body[IdKey].n, body[UsernameKey].s, body[PasswordKey].s))
    else None
  }

  /** Fills the body dictionary key by key; it has exactly the three keys and reads back as `request`. */
  method BuildRequestBody(request: ImportRequest) returns (body: map<string, JsonValue>)
    ensures body.Keys == {IdKey, UsernameKey, PasswordKey}
    ensures ReadRequest(body) == Some(request)
  {
    body := map[];
    body := body[IdKey := JsonInt(request.waterbodyId)];
    body := body[UsernameKey := JsonString(request.username)];
    body := body[PasswordKey := JsonString(request.password)];
  }
}
