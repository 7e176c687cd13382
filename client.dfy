/** The request-building half of `pim_request` (main.py:38-66): the URL, the
    `Authorization` header and the arguments handed to the HTTP library. */
module Client {
  import opened Wrappers
  import opened Models

  /** The configured `AZ_RBAC_PIM_BASE_URL` and `AZ_RBAC_PIM_BASE_PATH`. */
  datatype Endpoint = Endpoint(baseUrl: string, basePath: string)

  /** What is handed to `requests.Request` before the request is prepared and sent. */
  datatype HttpRequest = HttpRequest(
    url: string,
    httpMethod: string,
    data: Option<map<string, string>>,
    headers: map<string, string>,
    params: Option<map<string, string>>,
    json: Option<RoleAssignmentRequest>)

  const AuthorizationHeader := "Authorization"

  /** The part of the URL in front of the operation path. */
  function UrlPrefix(endpoint: Endpoint, resourceType: ResourceType): string {
    endpoint.baseUrl + "/" + endpoint.basePath + "/" + resourceType + "/"
  }

  /** The request as `pim_request` hands it over: the URL is built from the endpoint,
      the resource type and the path; the caller's headers gain a bearer-token
      `Authorization` entry, which replaces any the caller supplied. */
  function Prepare(endpoint: Endpoint, request: PIMRequest): (r: HttpRequest)
    ensures r.url == endpoint.baseUrl + "/" + endpoint.basePath + "/" + request.resourceType + "/" + request.path
    ensures r.headers.Keys == request.headers.Keys + {AuthorizationHeader}
    ensures r.headers[AuthorizationHeader] == "Bearer " + request.token
    ensures forall k :: k in request.headers && k != AuthorizationHeader ==> r.headers[k] == request.headers[k]
    ensures r.httpMethod == request.httpMethod && r.data == request.data
    ensures r.params == request.params && r.json == request.payload
  {
    var url := UrlPrefix(endpoint, request.resourceType) + request.path;
    var headers := request.headers[AuthorizationHeader := "Bearer " + request.token];
    HttpRequest(url, request.httpMethod, request.data, headers, request.params, request.payload)
  }

  /** Two requests sent to the same endpoint reach the same URL exactly when they name the same path. */
  lemma UrlDeterminesPath(endpoint: Endpoint, a: PIMRequest, b: PIMRequest)
    ensures Prepare(endpoint, a).url == Prepare(endpoint, b).url <==> a.path == b.path
  {
    var prefix := UrlPrefix(endpoint, AzureResources);
    assert Prepare(endpoint, a).url == prefix + a.path;
    assert Prepare(endpoint, b).url == prefix + b.path;
    assert (prefix + a.path)[|prefix|..] == a.path;
    assert (prefix + b.path)[|prefix|..] == b.path;
  }

  /** Whatever `Authorization` value the caller put in the headers, the prepared request is the same. */
  lemma CallerAuthorizationIgnored(endpoint: Endpoint, request: PIMRequest, value: string)
    ensures Prepare(endpoint, request.(headers := request.headers[AuthorizationHeader := value]))
         == Prepare(endpoint, request)
  {
    var h := request.headers[AuthorizationHeader := value][AuthorizationHeader := "Bearer " + request.token];
    assert h == request.headers[AuthorizationHeader := "Bearer " + request.token];
  }
}
