/** The request schemas of the scrape-source endpoints. */
module ScrapingValidators {
  import opened Wrappers
  import opened Json
  import opened Joi

  /** `apiConfigSchema`: every key optional, nothing about which ones an API source needs. */
  function ApiConfigKeys(): map<string, Key<Check>> {
    map[
      "endpoint" := Key(UriStr(), false, None),
      "apiKeyEnvVar" := Key(AnyStr(), false, None),
      "extraParams" := Key(AnyObject, false, None)
    ]
  }

  function CreateScrapeSourceSchema(): Schema {
    map[
      "name" := Required(Str(2, Some(100), false, [])),
      "baseUrl" := Required(UriStr()),
      "listPath" := Optional(AnyStr()),
      "selectors" := Optional(StrMap),
      "enabled" := Optional(Boolean),
      "frequencyMinutes" := Optional(Num(true, Some(5), None)),
      "providerType" := Key(Leaf(OneOf(["html", "api"])), false, Some(JStr("html"))),
      "apiConfig" := Key(Object(ApiConfigKeys()), false, None)
    ]
  }

  function UpdateScrapeSourceSchema(): Schema {
    MakeOptional(CreateScrapeSourceSchema(), {"name", "baseUrl"})
  }

  predicate IsStr(fields: map<string, Json>, k: string) {
    k in fields && fields[k].JStr?
  }

  /** A create body has a name of 2..100 characters and a URI base URL. */
  lemma CreateRequiresNameAndBaseUrl(body: Json)
    requires Validate(CreateScrapeSourceSchema(), body).Success?
    ensures IsStr(body.fields, "name") && 2 <= |body.fields["name"].s| <= 100
    ensures IsStr(body.fields, "baseUrl") && IsUri(body.fields["baseUrl"].s)
  {
    var schema := CreateScrapeSourceSchema();
    assert schema["name"].required && schema["baseUrl"].required;
    assert RuleAccepts(schema["name"].rule, body.fields["name"]);
    assert RuleAccepts(schema["baseUrl"].rule, body.fields["baseUrl"]);
  }

  /** Both schemas: `frequencyMinutes` is a whole number from 5 to `Number.MAX_SAFE_INTEGER`. */
  lemma FrequencyRule(body: Json, update: bool)
    requires Validate(if update then UpdateScrapeSourceSchema() else CreateScrapeSourceSchema(), body).Success?
    ensures "frequencyMinutes" in body.fields ==>
              body.fields["frequencyMinutes"].JNum? && IsInteger(body.fields["frequencyMinutes"].n)
              && 5.0 <= body.fields["frequencyMinutes"].n <= MaxSafeInteger as real
  {
    var schema := if update then UpdateScrapeSourceSchema() else CreateScrapeSourceSchema();
    var c := CreateScrapeSourceSchema();
    assert c["frequencyMinutes"].rule == Leaf(Num(true, Some(5), None));
    assert schema["frequencyMinutes"].rule == c["frequencyMinutes"].rule;
    if "frequencyMinutes" in body.fields {
      assert RuleAccepts(schema["frequencyMinutes"].rule, body.fields["frequencyMinutes"]);
    }
  }

  /** Both schemas: `selectors` is an object whose values are non-empty strings. */
  lemma SelectorsRule(body: Json, update: bool)
    requires Validate(if update then UpdateScrapeSourceSchema() else CreateScrapeSourceSchema(), body).Success?
    ensures "selectors" in body.fields ==> body.fields["selectors"].JObj?
    ensures "selectors" in body.fields ==> forall k :: k in body.fields["selectors"].fields ==>
              body.fields["selectors"].fields[k].JStr? && body.fields["selectors"].fields[k].s != ""
  {
    var schema := if update then UpdateScrapeSourceSchema() else CreateScrapeSourceSchema();
    var c := CreateScrapeSourceSchema();
    assert c["selectors"].rule == Leaf(StrMap);
    assert schema["selectors"].rule == c["selectors"].rule;
    if "selectors" in body.fields {
      assert RuleAccepts(schema["selectors"].rule, body.fields["selectors"]);
    }
  }

  /** Both schemas: the validated `providerType` is "html" or "api", and "html" when absent. */
  lemma ProviderTypeRule(body: Json, update: bool)
    requires Validate(if update then UpdateScrapeSourceSchema() else CreateScrapeSourceSchema(), body).Success?
    ensures var v := Validate(if update then UpdateScrapeSourceSchema() else CreateScrapeSourceSchema(), body).value;
            "providerType" in v && (v["providerType"] == JStr("html") || v["providerType"] == JStr("api"))
            && ("providerType" !in body.fields ==> v["providerType"] == JStr("html"))
  {
    var schema := if update then UpdateScrapeSourceSchema() else CreateScrapeSourceSchema();
    var c := CreateScrapeSourceSchema();
    assert c["providerType"] == Key(Leaf(OneOf(["html", "api"])), false, Some(JStr("html")));
    assert schema["providerType"].rule == c["providerType"].rule;
    assert schema["providerType"].default == c["providerType"].default;
    if "providerType" in body.fields {
      assert RuleAccepts(schema["providerType"].rule, body.fields["providerType"]);
    }
  }

  /** `apiConfig`, when present: a URI endpoint, a string key variable, an object of extra parameters. */
  lemma ApiConfigRules(body: Json)
    requires Validate(CreateScrapeSourceSchema(), body).Success?
    requires "apiConfig" in body.fields
    ensures body.fields["apiConfig"].JObj?
    ensures var c := body.fields["apiConfig"].fields;
            && (forall k :: k in c ==> k in {"endpoint", "apiKeyEnvVar", "extraParams"})
            && ("endpoint" in c ==> c["endpoint"].JStr? && IsUri(c["endpoint"].s))
            && ("apiKeyEnvVar" in c ==> c["apiKeyEnvVar"].JStr?)
            && ("extraParams" in c ==> c["extraParams"].JObj?)
  {
    var schema := CreateScrapeSourceSchema();
    assert RuleAccepts(schema["apiConfig"].rule, body.fields["apiConfig"]);
    var c := body.fields["apiConfig"].fields;
    var keys := ApiConfigKeys();
    if "endpoint" in c {
      assert CheckAccepts(keys["endpoint"].rule, c["endpoint"]);
    }
    if "apiKeyEnvVar" in c {
      assert CheckAccepts(keys["apiKeyEnvVar"].rule, c["apiKeyEnvVar"]);
    }
    if "extraParams" in c {
      assert CheckAccepts(keys["extraParams"].rule, c["extraParams"]);
    }
  }

  /** The update schema accepts everything the create schema does, and also the empty body. */
  lemma UpdateWidensCreate(body: Json)
    requires Validate(CreateScrapeSourceSchema(), body).Success?
    ensures Validate(UpdateScrapeSourceSchema(), body).Success?
    ensures Validate(UpdateScrapeSourceSchema(), JObj(map[])).Success?
  {
    MakeOptionalWidens(CreateScrapeSourceSchema(), {"name", "baseUrl"}, body.fields);
    SourceRequiredKeys();
    EmptyBodyAccepted(UpdateScrapeSourceSchema());
  }

  lemma ExampleUri()
    ensures IsUri("https://x")
  {
    var url := "https://x";
    assert url[5] == ':';
  }

  /** Only `name` and `baseUrl` are required by the create schema. */
  lemma SourceRequiredKeys()
    ensures forall k :: k in CreateScrapeSourceSchema() && CreateScrapeSourceSchema()[k].required ==> k == "name" || k == "baseUrl"
  {
  }

  /** The create schema's rules for the keys of the two example bodies below. */
  lemma SourceExampleRules()
    ensures var schema := CreateScrapeSourceSchema();
            && schema["name"].rule == Leaf(Str(2, Some(100), false, []))
            && schema["baseUrl"].rule == Leaf(UriStr())
            && schema["providerType"].rule == Leaf(OneOf(["html", "api"]))
            && schema["selectors"].rule == Leaf(StrMap)
  {
  }

  /**
   * Neither schema asks for the endpoint an API source needs: an `api` source with no
   * `apiConfig` is accepted.
   */
  lemma ApiSourceWithoutEndpointAccepted()
    ensures Validate(CreateScrapeSourceSchema(),
              JObj(map["name" := JStr("Jobs"), "baseUrl" := JStr("https://x"), "providerType" := JStr("api")])).Success?
  {
    var schema := CreateScrapeSourceSchema();
    var f := map["name" := JStr("Jobs"), "baseUrl" := JStr("https://x"), "providerType" := JStr("api")];
    ExampleUri();
    SourceRequiredKeys();
    SourceExampleRules();
    forall k | k in f
      ensures k in schema && RuleAccepts(schema[k].rule, f[k])
    {
      assert k == "name" || k == "baseUrl" || k == "providerType";
    }
    assert Accepted(schema, f);
  }

  /**
   * Neither schema asks for the `item` and `title` selectors an HTML source needs: an
   * empty selector map is accepted.
   */
  lemma HtmlSourceWithoutSelectorsAccepted()
    ensures Validate(CreateScrapeSourceSchema(),
              JObj(map["name" := JStr("Jobs"), "baseUrl" := JStr("https://x"), "selectors" := JObj(map[])])).Success?
  {
    var schema := CreateScrapeSourceSchema();
    var f := map["name" := JStr("Jobs"), "baseUrl" := JStr("https://x"), "selectors" := JObj(map[])];
    ExampleUri();
    SourceRequiredKeys();
    SourceExampleRules();
    forall k | k in f
      ensures k in schema && RuleAccepts(schema[k].rule, f[k])
    {
      assert k == "name" || k == "baseUrl" || k == "selectors";
    }
    assert Accepted(schema, f);
  }
}
