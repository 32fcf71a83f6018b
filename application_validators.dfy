/** The request schemas of the application endpoints. */
module ApplicationValidators {
  import opened Wrappers
  import opened Json
  import opened Joi

  function ApplyInternshipSchema(): Schema {
    map[
      "resumeUrl" := Optional(UriStr()),
      "coverLetter" := Optional(MaxStr(2000))
    ]
  }

  function UpdateApplicationStatusSchema(): Schema {
    map["status" := Required(OneOf(["applied", "shortlisted", "rejected", "hired"]))]
  }

  /** An apply body: a URI resume link and a cover letter of at most 2000 characters, both optional. */
  lemma ApplyBodyRules(body: Json)
    requires Validate(ApplyInternshipSchema(), body).Success?
    ensures "resumeUrl" in body.fields ==> body.fields["resumeUrl"].JStr? && IsUri(body.fields["resumeUrl"].s)
    ensures "coverLetter" in body.fields ==>
              body.fields["coverLetter"].JStr? && 1 <= |body.fields["coverLetter"].s| <= 2000
    ensures Validate(ApplyInternshipSchema(), JObj(map[])).Success?
  {
    var schema := ApplyInternshipSchema();
    if "resumeUrl" in body.fields { assert RuleAccepts(schema["resumeUrl"].rule, body.fields["resumeUrl"]); }
    if "coverLetter" in body.fields { assert RuleAccepts(schema["coverLetter"].rule, body.fields["coverLetter"]); }
  }

  /** A status body: exactly the key `status`, with one of the four application statuses. */
  lemma StatusBodyRules(body: Json)
    ensures Validate(UpdateApplicationStatusSchema(), body).Success? <==>
              && body.JObj? && body.fields.Keys == {"status"} && body.fields["status"].JStr?
              && body.fields["status"].s in {"applied", "shortlisted", "rejected", "hired"}
  {
    var schema := UpdateApplicationStatusSchema();
    if body.JObj? && "status" in body.fields {
      assert RuleAccepts(schema["status"].rule, body.fields["status"]) <==>
             body.fields["status"].JStr? && body.fields["status"].s in {"applied", "shortlisted", "rejected", "hired"};
    }
  }
}
