/** The request schema of the company-profile endpoint. */
module CompanyValidators {
  import opened Wrappers
  import opened Json
  import opened Joi

  function UpdateCompanyProfileSchema(): Schema {
    map[
      "companyName" := Optional(MaxStr(200)),
      "logoUrl" := Optional(UriStr()),
      "website" := Optional(UriStr()),
      "description" := Optional(MaxStr(2000)),
      "size" := Optional(MaxStr(100)),
      "location" := Optional(MaxStr(200))
    ]
  }

  predicate StrWithin(f: map<string, Json>, k: string, max: nat) {
    k in f ==> f[k].JStr? && |f[k].s| <= max
  }

  predicate UriField(f: map<string, Json>, k: string) {
    k in f ==> f[k].JStr? && IsUri(f[k].s)
  }

  /** A valid company body keeps each text field within its length limit. */
  lemma CompanyTextRules(body: Json)
    requires Validate(UpdateCompanyProfileSchema(), body).Success?
    ensures var f := body.fields;
            && StrWithin(f, "companyName", 200) && StrWithin(f, "location", 200)
            && StrWithin(f, "description", 2000) && StrWithin(f, "size", 100)
  {
    var schema := UpdateCompanyProfileSchema();
    var f := body.fields;
    assert schema["companyName"].rule == schema["location"].rule == Leaf(MaxStr(200));
    assert schema["description"].rule == Leaf(MaxStr(2000)) && schema["size"].rule == Leaf(MaxStr(100));
    if "companyName" in f { assert RuleAccepts(schema["companyName"].rule, f["companyName"]); }
    if "location" in f { assert RuleAccepts(schema["location"].rule, f["location"]); }
    if "description" in f { assert RuleAccepts(schema["description"].rule, f["description"]); }
    if "size" in f { assert RuleAccepts(schema["size"].rule, f["size"]); }
  }

  /** Every key is optional, so the empty body is valid. */
  lemma EmptyCompanyBodyValid()
    ensures Validate(UpdateCompanyProfileSchema(), JObj(map[])).Success?
  {
    EmptyBodyAccepted(UpdateCompanyProfileSchema());
  }

  /** A valid company body carries URIs as its logo and website links. */
  lemma CompanyLinkRules(body: Json)
    requires Validate(UpdateCompanyProfileSchema(), body).Success?
    ensures UriField(body.fields, "logoUrl") && UriField(body.fields, "website")
  {
    var schema := UpdateCompanyProfileSchema();
    var f := body.fields;
    assert schema["logoUrl"].rule == schema["website"].rule == Leaf(UriStr());
    if "logoUrl" in f { assert RuleAccepts(schema["logoUrl"].rule, f["logoUrl"]); }
    if "website" in f { assert RuleAccepts(schema["website"].rule, f["website"]); }
  }
}
