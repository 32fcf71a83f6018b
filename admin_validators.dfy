/** The request schemas of the admin endpoints. */
module AdminValidators {
  import opened Wrappers
  import opened Json
  import opened Joi

  function UpdateUserStatusSchema(): Schema {
    map["status" := Required(OneOf(["active", "suspended"]))]
  }

  function VerifyCompanySchema(): Schema {
    map["isVerified" := Required(Boolean)]
  }

  /** A user-status body is exactly `{ status }` with "active" or "suspended". */
  lemma UserStatusBodyRules(body: Json)
    ensures Validate(UpdateUserStatusSchema(), body).Success? <==>
              && body.JObj? && body.fields.Keys == {"status"}
              && (body.fields["status"] == JStr("active") || body.fields["status"] == JStr("suspended"))
  {
    var schema := UpdateUserStatusSchema();
    if body.JObj? && "status" in body.fields {
      assert RuleAccepts(schema["status"].rule, body.fields["status"]) <==>
             body.fields["status"] == JStr("active") || body.fields["status"] == JStr("suspended");
    }
  }

  /** A verify-company body is exactly `{ isVerified }` with a boolean. */
  lemma VerifyCompanyBodyRules(body: Json)
    ensures Validate(VerifyCompanySchema(), body).Success? <==>
              body.JObj? && body.fields.Keys == {"isVerified"} && body.fields["isVerified"].JBool?
  {
    var schema := VerifyCompanySchema();
    if body.JObj? && "isVerified" in body.fields {
      assert RuleAccepts(schema["isVerified"].rule, body.fields["isVerified"]) <==> body.fields["isVerified"].JBool?;
    }
  }
}
