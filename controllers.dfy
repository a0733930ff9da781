/**
 * The OpenAPI client generator proxy: the service's own OpenAPI document has its first server
 * entry pointed at the public or the private URL and is posted, with the generator's options,
 * to the online generator, whose answer is handed back.
 */
module Controllers {
  import opened Wrappers
  import opened Json
  import opened Api
  import opened Flask

  /**
   * The OpenAPI document the `api-docs.openapi_json` view returns: its `servers` list, which
   * is patched in place, and its other top-level members.
   */
  class ApiSpec {
    const servers: array<Value>
    const members: map<string, Value>

    constructor (servers: seq<Value>, members: map<string, Value>)
      ensures this.servers[..] == servers && this.members == members
      ensures fresh(this.servers)
    {
      this.servers := new Value[|servers|](i requires 0 <= i < |servers| => servers[i]);
      this.members := members;
    }

    /** The document as a JSON value. */
    function Document(): (v: Value)
      reads this, servers
      ensures v.JObject? && "servers" in v.fields && v.fields["servers"] == JArray(servers[..])
      ensures forall k :: k in members && k != "servers" ==> k in v.fields && v.fields[k] == members[k]
    {
      JObject(members["servers" := JArray(servers[..])])
    }
  }

  /** The server entry the patch writes: a URL and nothing else. */
  function ServerEntry(url: Value): (v: Value)
    ensures v.JObject? && v.fields.Keys == {"url"} && v.fields["url"] == url
  {
    JObject(map["url" := url])
  }

  /** The POST the proxy makes: generator server, language, JSON body and certificate check. */
  datatype Request = Request(server: Value, genLang: string, body: Value, verify: Value)

  /** The body posted to the generator: the patched document and the generator's options. */
  function RequestBody(spec: Value, options: map<string, Value>): (v: Value)
    ensures v.JObject? && v.fields.Keys == {"spec", "options"}
    ensures v.fields["spec"] == spec && v.fields["options"] == JObject(options)
  {
    JObject(map["spec" := spec, "options" := JObject(options)])
  }

  /** A `str` setting (or None, from an unset variable) as an f-string writes it. */
  function Format(v: Value): string
    requires v.JStr? || v.JNull?
  {
    if v.JStr? then v.s else "None"
  }

  /** The error for a generator that could not be reached. */
  function RequestFailedMessage(server: Value): string
    requires server.JStr? || server.JNull?
  {
    "The request to the '" + Format(server) + "' server failed!"
  }

  /**
   * `get_openapi_client_dl_link(app, use_private_url, gen_lang, options)`: the first server
   * entry of `spec` becomes the private URL (or the public one) and every other entry stays;
   * `post` stands for the HTTP request, answering the generator's JSON or None when the
   * request fails, which becomes a 500 naming the generator.
   */
  method GetOpenApiClientDlLink(
    config: Config, spec: ApiSpec, usePrivateUrl: bool, genLang: string, options: map<string, Value>,
    post: Request -> Option<Value>)
    returns (r: Result<Value, Abort>)
    requires "VERIFY_SSL_CERT" in config && "OPENAPI_GEN_SERVER_URL" in config
    requires usePrivateUrl ==> "SERVICE_PRIVATE_URL" in config
    requires !usePrivateUrl ==> "SERVICE_PUBLIC_URL" in config
    requires config["OPENAPI_GEN_SERVER_URL"].JStr? || config["OPENAPI_GEN_SERVER_URL"].JNull?
    requires spec.servers.Length > 0
    modifies spec.servers
    ensures spec.servers[0] == ServerEntry(if usePrivateUrl then config["SERVICE_PRIVATE_URL"] else config["SERVICE_PUBLIC_URL"])
    ensures forall i :: 1 <= i < spec.servers.Length ==> spec.servers[i] == old(spec.servers[i])
    ensures var server := config["OPENAPI_GEN_SERVER_URL"];
      var request := Request(server, genLang, RequestBody(spec.Document(), options), config["VERIFY_SSL_CERT"]);
      r == match post(request)
        case Some(answer) => Success(answer)
        case None => Failure(Abort(INTERNAL_SERVER_ERROR, RequestFailedMessage(server)))
  {
    var verifySslCert := config["VERIFY_SSL_CERT"];
    var openApiGenServerUrl := config["OPENAPI_GEN_SERVER_URL"];
    if usePrivateUrl {
      spec.servers[0] := ServerEntry(config["SERVICE_PRIVATE_URL"]);
    } else {
      spec.servers[0] := ServerEntry(config["SERVICE_PUBLIC_URL"]);
    }
    var answer := post(Request(openApiGenServerUrl, genLang, RequestBody(spec.Document(), options), verifySslCert));
    match answer
    case Some(json) =>
      r := Success(json);
    case None =>
      r := Failure(AbortWith(INTERNAL_SERVER_ERROR, Some(RequestFailedMessage(openApiGenServerUrl))));
  }
}
