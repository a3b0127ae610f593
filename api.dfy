/** Resource names and the request sent to the remote authorization service. */
module Api {
  import opened Values
  import opened Exceptions

  const DefaultPartition := "tinyauth"
  const DefaultRegion := "default"
  const JsonMediaType := "application/json"

  /** The application configuration the package reads. Keys the code reads
      with `config[...]` are plain fields; keys read with `config.get(...)`
      are optional and fall back to their defaults. */
  datatype Config = Config(
    service: string,
    endpoint: string,
    accessKeyId: string,
    secretAccessKey: string,
    partition: Option<string>,
    region: Option<string>,
    bypass: Option<bool>)

  function Partition(cfg: Config): string
  {
    if cfg.partition.Some? then cfg.partition.value else DefaultPartition
  }

  function Region(cfg: Config): string
  {
    if cfg.region.Some? then cfg.region.value else DefaultRegion
  }

  function BypassEnabled(cfg: Config): bool
  {
    cfg.bypass.Some? && cfg.bypass.value
  }

  /** `sep.join(parts)`: the parts with one separator between neighbours. */
  function Join(sep: char, parts: seq<string>): string
    decreases |parts|
  {
    if |parts| == 0 then ""
    else if |parts| == 1 then parts[0]
    else parts[0] + [sep] + Join(sep, parts[1..])
  }

  lemma JoinTwo(sep: char, a: string, b: string)
    ensures Join(sep, [a, b]) == a + [sep] + b
  {
    assert [a, b][1..] == [b];
  }

  lemma JoinFive(sep: char, a: string, b: string, c: string, d: string, e: string)
    ensures Join(sep, [a, b, c, d, e]) == a + [sep] + b + [sep] + c + [sep] + d + [sep] + e
  {
    assert [c, d, e][1..] == [d, e];
    JoinTwo(sep, d, e);
    assert Join(sep, [c, d, e]) == c + [sep] + d + [sep] + e;
    assert [b, c, d, e][1..] == [c, d, e];
    assert Join(sep, [b, c, d, e]) == b + [sep] + c + [sep] + d + [sep] + e;
    assert [a, b, c, d, e][1..] == [b, c, d, e];
  }

  /** The namespace root: "arn", partition, service, region and an empty
      string joined by colons, so it ends in the colon after the region. */
  function GetArnBase(cfg: Config): (base: string)
    ensures base == "arn:" + Partition(cfg) + ":" + cfg.service + ":" + Region(cfg) + ":"
  {
    JoinFive(':', "arn", Partition(cfg), cfg.service, Region(cfg), "");
    Join(':', ["arn", Partition(cfg), cfg.service, Region(cfg), ""])
  }

  /** The name of one resource: the base and "class/resource" joined by a colon. */
  function FormatArn(cfg: Config, resourceClass: string, resource: string): (arn: string)
    ensures arn == GetArnBase(cfg) + ":" + resourceClass + "/" + resource
  {
    JoinTwo('/', resourceClass, resource);
    JoinTwo(':', GetArnBase(cfg), resourceClass + "/" + resource);
    Join(':', [GetArnBase(cfg), Join('/', [resourceClass, resource])])
  }

  /** A POST to the remote service, as `requests` would be asked to send it. */
  datatype HttpPost = HttpPost(
    url: string,
    auth: (string, string),
    headers: map<string, string>,
    json: Json)

  /** What the remote call produced: an exception, or the decoded body. */
  datatype Reply = Raised(error: Error) | Returned(body: map<string, Json>)

  /** The service URL: the endpoint, then "v1/services/<service>/<api>". */
  function CallUrl(cfg: Config, api: string): string
  {
    cfg.endpoint + "v1/services/" + cfg.service + "/" + api
  }

  /** The post `call(api, request)` makes: the request value is the JSON body,
      unchanged, and the service's access key pair is the basic-auth pair. */
  function BuildCall(cfg: Config, api: string, request: Json): (post: HttpPost)
    ensures post.url == CallUrl(cfg, api)
    ensures post.auth == (cfg.accessKeyId, cfg.secretAccessKey)
    ensures post.headers.Keys == {"Accept", "Content-Type"}
    ensures forall h :: h in post.headers ==> post.headers[h] == JsonMediaType
    ensures post.json == request
  {
    HttpPost(
      CallUrl(cfg, api),
      (cfg.accessKeyId, cfg.secretAccessKey),
      map["Accept" := JsonMediaType, "Content-Type" := JsonMediaType],
      request)
  }

  // ----- Properties of resource names -----

  /** Unset partition and region fall back to "tinyauth" and "default". */
  lemma ArnBaseDefaults(cfg: Config)
    requires cfg.partition == None && cfg.region == None
    ensures GetArnBase(cfg) == "arn:tinyauth:" + cfg.service + ":default:"
  {
  }

  /** The base ends in the separator; it ends in exactly one when the region
      is non-empty and does not itself end in a colon. */
  lemma ArnBaseEndsInSeparator(cfg: Config)
    ensures var base := GetArnBase(cfg);
      |base| >= 2 && base[|base| - 1] == ':' &&
      (Region(cfg) != "" && Region(cfg)[|Region(cfg)| - 1] != ':' ==> base[|base| - 2] != ':')
  {
  }

  /** The base is a strict prefix of every resource name, a double colon
      follows the region, and the class and resource come after it. */
  lemma FormatArnExtendsBase(cfg: Config, resourceClass: string, resource: string)
    ensures var base := GetArnBase(cfg);
      var arn := FormatArn(cfg, resourceClass, resource);
      base < arn &&
      arn[|base| - 1..|base| + 1] == "::" &&
      arn[|base| + 1..] == resourceClass + "/" + resource
  {
  }

  /** With the default empty resource the name still ends in "class/". */
  lemma FormatArnEmptyResource(cfg: Config, resourceClass: string)
    ensures var arn := FormatArn(cfg, resourceClass, "");
      |arn| > |resourceClass| && arn[|arn| - |resourceClass| - 1..] == resourceClass + "/"
  {
  }

  /** Names depend on the service identity only: endpoint, keys and the
      bypass flag play no part. */
  lemma ArnDependsOnIdentityOnly(c1: Config, c2: Config, resourceClass: string, resource: string)
    requires Partition(c1) == Partition(c2) && c1.service == c2.service && Region(c1) == Region(c2)
    ensures GetArnBase(c1) == GetArnBase(c2)
    ensures FormatArn(c1, resourceClass, resource) == FormatArn(c2, resourceClass, resource)
  {
  }

  // ----- Properties of the service URL -----

  /** For every configuration and API name, the URL has no "api/" segment
      between the endpoint and "v1/services/". */
  lemma UrlNeverHasApiSegment(cfg: Config, api: string)
    ensures CallUrl(cfg, api) != cfg.endpoint + "api/v1/services/" + cfg.service + "/" + api
  {
    var url := CallUrl(cfg, api);
    var other := cfg.endpoint + "api/v1/services/" + cfg.service + "/" + api;
    assert url[|cfg.endpoint|] == 'v';
    assert other[|cfg.endpoint|] == 'a';
  }

  /** Under one configuration, distinct API names reach distinct URLs. */
  lemma CallUrlDeterminesApi(cfg: Config, api1: string, api2: string)
    requires CallUrl(cfg, api1) == CallUrl(cfg, api2)
    ensures api1 == api2
  {
    var prefix := cfg.endpoint + "v1/services/" + cfg.service + "/";
    assert CallUrl(cfg, api1)[|prefix|..] == api1;
    assert CallUrl(cfg, api2)[|prefix|..] == api2;
  }

  // ----- The configuration of the package's own tests -----

  /** The settings the test suites install before each test. */
  const TestConfig := Config("test", "http://localhost/", "root", "password", None, None, None)

  /** Resource names under the test configuration. */
  lemma TestConfigArns()
    ensures GetArnBase(TestConfig) == "arn:tinyauth:test:default:"
    ensures FormatArn(TestConfig, "res_class", "res_key") == "arn:tinyauth:test:default::res_class/res_key"
  {
    TestConfigBase();
    TestResourceSuffix(GetArnBase(TestConfig));
  }

  lemma TestConfigBase()
    ensures GetArnBase(TestConfig) == "arn:tinyauth:test:default:"
  {
  }

  lemma TestResourceSuffix(base: string)
    requires base == "arn:tinyauth:test:default:"
    ensures base + ":" + "res_class" + "/" + "res_key" == "arn:tinyauth:test:default::res_class/res_key"
  {
    assert base + ":" == "arn:tinyauth:test:default::";
    assert base + ":" + "res_class" == "arn:tinyauth:test:default::res_class";
    assert base + ":" + "res_class" + "/" == "arn:tinyauth:test:default::res_class/";
  }

  /** The login call under the test configuration: the code builds a URL
      without the "api/" segment that the login test expects, and sends the
      test's credentials as the basic-auth pair. */
  lemma TestLoginCallUrl()
    ensures CallUrl(TestConfig, "get-token-for-login") == "http://localhost/v1/services/test/get-token-for-login"
    ensures CallUrl(TestConfig, "get-token-for-login") != "http://localhost/api/v1/services/test/get-token-for-login"
  {
    var url := CallUrl(TestConfig, "get-token-for-login");
    assert url == "http://localhost/" + "v1/services/" + "test" + "/" + "get-token-for-login";
    assert "http://localhost/" + "v1/services/" == "http://localhost/v1/services/";
    assert "http://localhost/v1/services/" + "test" + "/" == "http://localhost/v1/services/test/";
    assert url[17] == 'v' != "http://localhost/api/v1/services/test/get-token-for-login"[17];
  }
}
