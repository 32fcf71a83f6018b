/** The request schemas of the internship endpoints. */
module InternshipValidators {
  import opened Wrappers
  import opened Json
  import opened Joi

  function CreateInternshipSchema(): Schema {
    map[
      "title" := Required(Str(3, Some(200), false, [])),
      "description" := Required(Str(10, None, false, [])),
      "responsibilities" := Optional(AnyStr()),
      "requirements" := Optional(StrArray),
      "stipend" := Optional(Num(false, Some(0), None)),
      "salary" := Optional(Num(false, Some(0), None)),
      "currency" := Optional(MaxStr(10)),
      "location" := Required(MaxStr(200)),
      "mode" := Required(OneOf(["remote", "onsite", "hybrid"])),
      "type" := Required(OneOf(["internship", "fulltime"])),
      "durationInMonths" := Optional(Num(true, Some(0), None)),
      "skills" := Optional(StrArray),
      "externalApplyUrl" := Optional(UriStr()),
      "applyDeadline" := Optional(Date),
      "status" := Optional(OneOf(["open", "closed", "draft"]))
    ]
  }

  /** The rules the create schema gives the keys the lemmas below are about. */
  lemma CreateSchemaRules()
    ensures var c := CreateInternshipSchema();
            && c["title"] == Required(Str(3, Some(200), false, []))
            && c["description"] == Required(Str(10, None, false, []))
            && c["location"] == Required(MaxStr(200))
            && c["mode"] == Required(OneOf(["remote", "onsite", "hybrid"]))
            && c["type"] == Required(OneOf(["internship", "fulltime"]))
            && c["stipend"].rule == c["salary"].rule == Leaf(Num(false, Some(0), None))
            && c["durationInMonths"].rule == Leaf(Num(true, Some(0), None))
            && c["status"].rule == Leaf(OneOf(["open", "closed", "draft"]))
            && c["currency"].rule == Leaf(MaxStr(10))
            && c["externalApplyUrl"].rule == Leaf(UriStr())
  {
  }

  const ForkedKeys: set<string> := {"title", "description", "location", "mode", "type"}

  function UpdateInternshipSchema(): Schema {
    MakeOptional(CreateInternshipSchema(), ForkedKeys)
  }

  function UpdateInternshipStatusSchema(): Schema {
    map["status" := Required(OneOf(["open", "closed", "draft"]))]
  }

  predicate StrIn(fields: map<string, Json>, k: string, valid: set<string>) {
    k in fields && fields[k].JStr? && fields[k].s in valid
  }

  /** A create body has the five required fields, each within its bounds. */
  lemma CreateInternshipRequired(body: Json)
    requires Validate(CreateInternshipSchema(), body).Success?
    ensures "title" in body.fields && body.fields["title"].JStr? && 3 <= |body.fields["title"].s| <= 200
    ensures "description" in body.fields && body.fields["description"].JStr? && |body.fields["description"].s| >= 10
    ensures "location" in body.fields && body.fields["location"].JStr? && 1 <= |body.fields["location"].s| <= 200
    ensures StrIn(body.fields, "mode", {"remote", "onsite", "hybrid"})
    ensures StrIn(body.fields, "type", {"internship", "fulltime"})
  {
    var schema := CreateInternshipSchema();
    CreateSchemaRules();
    RequiredKeyAccepted(schema, body, "title");
    RequiredKeyAccepted(schema, body, "description");
    RequiredKeyAccepted(schema, body, "location");
    RequiredKeyAccepted(schema, body, "mode");
    RequiredKeyAccepted(schema, body, "type");
  }

  lemma CreateStipendRule() ensures CreateInternshipSchema()["stipend"].rule == Leaf(Num(false, Some(0), None)) {}
  lemma CreateSalaryRule() ensures CreateInternshipSchema()["salary"].rule == Leaf(Num(false, Some(0), None)) {}
  lemma CreateDurationRule() ensures CreateInternshipSchema()["durationInMonths"].rule == Leaf(Num(true, Some(0), None)) {}
  lemma CreateStatusRule() ensures CreateInternshipSchema()["status"].rule == Leaf(OneOf(["open", "closed", "draft"])) {}
  lemma CreateCurrencyRule() ensures CreateInternshipSchema()["currency"].rule == Leaf(MaxStr(10)) {}
  lemma CreateApplyUrlRule() ensures CreateInternshipSchema()["externalApplyUrl"].rule == Leaf(UriStr()) {}

  /** A value in a three-entry `valid(...)` list is one of the three. */
  lemma ListedIsMember(s: string, a: string, b: string, c: string)
    requires s in [a, b, c]
    ensures s in {a, b, c}
  {
  }

  /** A key present in a body either schema accepts is accepted by the create schema's rule for it. */
  lemma KeyRule(update: bool, body: Json, k: string)
    requires Validate(if update then UpdateInternshipSchema() else CreateInternshipSchema(), body).Success?
    requires body.JObj? && k in body.fields
    ensures k in CreateInternshipSchema() && RuleAccepts(CreateInternshipSchema()[k].rule, body.fields[k])
  {
    var c := CreateInternshipSchema();
    if update {
      PresentKeyAccepted(UpdateInternshipSchema(), body, k);
      assert UpdateInternshipSchema()[k].rule == c[k].rule;
    } else {
      PresentKeyAccepted(c, body, k);
    }
  }

  /** In both the create and the update schema, stipend and salary are at least 0 and at most `Number.MAX_SAFE_INTEGER`. */
  lemma PayRules(body: Json, update: bool)
    requires Validate(if update then UpdateInternshipSchema() else CreateInternshipSchema(), body).Success?
    ensures var f := body.fields;
            && ("stipend" in f ==> f["stipend"].JNum? && 0.0 <= f["stipend"].n <= MaxSafeInteger as real)
            && ("salary" in f ==> f["salary"].JNum? && 0.0 <= f["salary"].n <= MaxSafeInteger as real)
  {
    if "stipend" in body.fields {
      KeyRule(update, body, "stipend");
      CreateStipendRule();
    }
    if "salary" in body.fields {
      KeyRule(update, body, "salary");
      CreateSalaryRule();
    }
  }

  /**
   * In both schemas, the duration is a whole number from 0 to `Number.MAX_SAFE_INTEGER` and the status is
   * open, closed or draft.
   */
  lemma DurationAndStatusRules(body: Json, update: bool)
    requires Validate(if update then UpdateInternshipSchema() else CreateInternshipSchema(), body).Success?
    ensures var f := body.fields;
            && ("durationInMonths" in f ==> f["durationInMonths"].JNum? && IsInteger(f["durationInMonths"].n)
                                            && 0.0 <= f["durationInMonths"].n <= MaxSafeInteger as real)
            && ("status" in f ==> StrIn(f, "status", {"open", "closed", "draft"}))
  {
    if "durationInMonths" in body.fields {
      KeyRule(update, body, "durationInMonths");
      CreateDurationRule();
    }
    if "status" in body.fields {
      KeyRule(update, body, "status");
      CreateStatusRule();
      ListedIsMember(body.fields["status"].s, "open", "closed", "draft");
    }
  }

  /** In both schemas, the currency has at most 10 characters and the external apply URL is a URI. */
  lemma CurrencyAndUrlRules(body: Json, update: bool)
    requires Validate(if update then UpdateInternshipSchema() else CreateInternshipSchema(), body).Success?
    ensures var f := body.fields;
            && ("currency" in f ==> f["currency"].JStr? && |f["currency"].s| <= 10)
            && ("externalApplyUrl" in f ==> f["externalApplyUrl"].JStr? && IsUri(f["externalApplyUrl"].s))
  {
    if "currency" in body.fields {
      KeyRule(update, body, "currency");
      CreateCurrencyRule();
    }
    if "externalApplyUrl" in body.fields {
      KeyRule(update, body, "externalApplyUrl");
      CreateApplyUrlRule();
    }
  }

  /**
   * The update schema is the create schema with the five forked keys made optional:
   * every other key keeps its rule unchanged, and whatever the create schema accepts,
   * the update schema accepts too.
   */
  lemma UpdateInternshipIsFork(body: Json)
    requires Validate(CreateInternshipSchema(), body).Success?
    ensures UpdateInternshipSchema().Keys == CreateInternshipSchema().Keys
    ensures forall k :: k in CreateInternshipSchema() && k !in ForkedKeys ==>
              UpdateInternshipSchema()[k] == CreateInternshipSchema()[k]
    ensures forall k :: k in ForkedKeys ==> !UpdateInternshipSchema()[k].required
    ensures Validate(UpdateInternshipSchema(), body).Success?
  {
    MakeOptionalWidens(CreateInternshipSchema(), ForkedKeys, body.fields);
  }

  /** A status-change body must carry one of the three statuses and nothing else. */
  lemma StatusBodyRules(body: Json)
    ensures Validate(UpdateInternshipStatusSchema(), body).Success? <==>
              body.JObj? && body.fields.Keys == {"status"} && StrIn(body.fields, "status", {"open", "closed", "draft"})
  {
    var schema := UpdateInternshipStatusSchema();
    if body.JObj? && "status" in body.fields {
      assert RuleAccepts(schema["status"].rule, body.fields["status"]) <==>
             StrIn(body.fields, "status", {"open", "closed", "draft"});
    }
  }
}
