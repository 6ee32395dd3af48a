/** The authenticated HTTP client: default headers, merging of caller options,
    classification of the response status, and the options of each verb. The
    network call and the reading of response bodies are not modelled. */
module Api {
  import opened Wrappers
  import opened Types
  import Text
  import Constants

  const ContentType: string := "Content-Type"
  const Authorization: string := "Authorization"
  const JsonMediaType: string := "application/json"

  /** The `RequestInit` a caller passes; `verb` None means fetch's default, GET. */
  datatype RequestOptions = RequestOptions(verb: Option<string>, body: Option<string>, headers: map<string, string>)

  /** What is handed to `fetch`. */
  datatype Request = Request(url: string, verb: Option<string>, body: Option<string>, headers: map<string, string>)

  /** A token is used only when it is truthy: present and non-empty. */
  predicate IsTruthy(token: Option<string>) {
    token.Some? && token.value != ""
  }

  const AuthRequiredMessage: string := "Authentication required"
  const HttpErrorPrefix: string := "HTTP error! status: "

  /** The check after the response arrives: 2xx passes the status through,
      401 is told apart from every other failure. */
  function CheckStatus(status: nat): (r: Result<nat, string>)
    ensures r.Success? <==> 200 <= status <= 299
    ensures r.Success? ==> r.value == status
    ensures status == 401 ==> r == Failure(AuthRequiredMessage)
    ensures r.Failure? && status != 401 ==>
      && |r.error| > |HttpErrorPrefix| && r.error[..|HttpErrorPrefix|] == HttpErrorPrefix
      && Text.IsNumeralOf(r.error[|HttpErrorPrefix|..], status)
  {
    Text.ParseNatToString(status);
    if 200 <= status <= 299 then Success(status)
    else if status == 401 then Failure(AuthRequiredMessage)
    else
      var message := HttpErrorPrefix + Text.NatToString(status);
      assert message[|HttpErrorPrefix|..] == Text.NatToString(status);
      Failure(message)
  }

  /** Every failing status has its own error: the message determines the status,
      and the authentication error is never confused with another one. */
  lemma {:induction false} ErrorIdentifiesStatus(s1: nat, s2: nat)
    requires CheckStatus(s1).Failure? && CheckStatus(s1) == CheckStatus(s2)
    ensures s1 == s2
  {
    if s1 != 401 && s2 != 401 {
      Text.ParseNatToString(s1);
      Text.ParseNatToString(s2);
    }
  }

  /** The calls the service offers; the body of a write is `JSON.stringify(data)`. */
  datatype Call = Get | Post(data: JsonValue) | Put(data: JsonValue) | Delete

  /** The options each verb hands to the fetch wrapper. */
  function OptionsFor(call: Call, stringify: JsonValue -> string): (o: RequestOptions)
    ensures o.headers == map[]
    ensures call.Get? ==> o.verb.None? && o.body.None?
    ensures call.Post? ==> o.verb == Some("POST") && o.body == Some(stringify(call.data))
    ensures call.Put? ==> o.verb == Some("PUT") && o.body == Some(stringify(call.data))
    ensures call.Delete? ==> o.verb == Some("DELETE") && o.body.None?
  {
    match call
    case Get => RequestOptions(None, None, map[])
    case Post(data) => RequestOptions(Some("POST"), Some(stringify(data)), map[])
    case Put(data) => RequestOptions(Some("PUT"), Some(stringify(data)), map[])
    case Delete => RequestOptions(Some("DELETE"), None, map[])
  }

  class ApiService {
    const baseUrl: string

    constructor ()
      ensures baseUrl == Constants.BaseUrl
    {
      baseUrl := Constants.BaseUrl;
    }

    /** `getHeaders`, given what the token provider returns at this moment. */
    method GetHeaders(token: Option<string>) returns (headers: map<string, string>)
      ensures ContentType in headers && headers[ContentType] == JsonMediaType
      ensures Authorization in headers <==> IsTruthy(token)
      ensures IsTruthy(token) ==> headers[Authorization] == "Bearer " + token.value
      ensures headers.Keys <= {ContentType, Authorization}
    {
      headers := map[ContentType := JsonMediaType];
      if IsTruthy(token) {
        headers := headers[Authorization := "Bearer " + token.value];
      }
    }

    /** The request the fetch wrapper sends: the base URL joined to `url`, the
        caller's method and body, and the default headers overridden key by key by
        the caller's. */
    method PrepareRequest(url: string, options: RequestOptions, token: Option<string>) returns (request: Request)
      ensures request.url == baseUrl + url
      ensures request.verb == options.verb && request.body == options.body
      ensures request.headers.Keys ==
        {ContentType} + (if IsTruthy(token) then {Authorization} else {}) + options.headers.Keys
      ensures forall k :: k in options.headers ==> request.headers[k] == options.headers[k]
      ensures ContentType !in options.headers ==> request.headers[ContentType] == JsonMediaType
      ensures Authorization !in options.headers && IsTruthy(token) ==>
        request.headers[Authorization] == "Bearer " + token.value
    {
      var defaults := GetHeaders(token);
      request := Request(baseUrl + url, options.verb, options.body, defaults + options.headers);
    }
  }
}
