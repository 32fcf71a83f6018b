/** The request schema of the student-profile endpoint. */
module StudentValidators {
  import opened Wrappers
  import opened Json
  import opened Joi

  function UpdateStudentProfileSchema(): Schema {
    map[
      "collegeName" := Optional(MaxStr(200)),
      "degree" := Optional(MaxStr(100)),
      "branch" := Optional(MaxStr(100)),
      "graduationYear" := Optional(Num(true, Some(2000), Some(2100))),
      "locationPreference" := Optional(StrArray),
      "skills" := Optional(StrArray),
      "resumeUrl" := Optional(UriStr()),
      "linkedInUrl" := Optional(UriStr()),
      "githubUrl" := Optional(UriStr()),
      "portfolioUrl" := Optional(UriStr()),
      "about" := Optional(MaxStr(1000))
    ]
  }

  predicate StrWithin(f: map<string, Json>, k: string, max: nat) {
    k in f ==> f[k].JStr? && |f[k].s| <= max
  }

  predicate UriField(f: map<string, Json>, k: string) {
    k in f ==> f[k].JStr? && IsUri(f[k].s)
  }

  predicate StrList(f: map<string, Json>, k: string) {
    k in f ==> f[k].JArr? && forall i :: 0 <= i < |f[k].items| ==> f[k].items[i].JStr?
  }

  // The rule of each key of the profile schema.
  lemma ProfileCollegeNameRule() ensures UpdateStudentProfileSchema()["collegeName"].rule == Leaf(MaxStr(200)) {}
  lemma ProfileDegreeRule() ensures UpdateStudentProfileSchema()["degree"].rule == Leaf(MaxStr(100)) {}
  lemma ProfileBranchRule() ensures UpdateStudentProfileSchema()["branch"].rule == Leaf(MaxStr(100)) {}
  lemma ProfileGraduationYearRule() ensures UpdateStudentProfileSchema()["graduationYear"].rule == Leaf(Num(true, Some(2000), Some(2100))) {}
  lemma ProfileLocationPreferenceRule() ensures UpdateStudentProfileSchema()["locationPreference"].rule == Leaf(StrArray) {}
  lemma ProfileSkillsRule() ensures UpdateStudentProfileSchema()["skills"].rule == Leaf(StrArray) {}
  lemma ProfileResumeUrlRule() ensures UpdateStudentProfileSchema()["resumeUrl"].rule == Leaf(UriStr()) {}
  lemma ProfileLinkedInUrlRule() ensures UpdateStudentProfileSchema()["linkedInUrl"].rule == Leaf(UriStr()) {}
  lemma ProfileGithubUrlRule() ensures UpdateStudentProfileSchema()["githubUrl"].rule == Leaf(UriStr()) {}
  lemma ProfilePortfolioUrlRule() ensures UpdateStudentProfileSchema()["portfolioUrl"].rule == Leaf(UriStr()) {}
  lemma ProfileAboutRule() ensures UpdateStudentProfileSchema()["about"].rule == Leaf(MaxStr(1000)) {}

  /** A valid profile body: the graduation year is a whole number in [2000, 2100]. */
  lemma GraduationYearRule(body: Json)
    requires Validate(UpdateStudentProfileSchema(), body).Success?
    ensures var f := body.fields;
            "graduationYear" in f ==> f["graduationYear"].JNum? && IsInteger(f["graduationYear"].n)
                                      && 2000.0 <= f["graduationYear"].n <= 2100.0
  {
    var schema := UpdateStudentProfileSchema();
    if "graduationYear" in body.fields {
      PresentKeyAccepted(schema, body, "graduationYear");
      ProfileGraduationYearRule();
    }
  }

  /** A valid profile body keeps each text field within its length limit. */
  lemma ProfileTextRules(body: Json)
    requires Validate(UpdateStudentProfileSchema(), body).Success?
    ensures var f := body.fields;
            && StrWithin(f, "collegeName", 200) && StrWithin(f, "degree", 100)
            && StrWithin(f, "branch", 100) && StrWithin(f, "about", 1000)
  {
    var schema := UpdateStudentProfileSchema();
    if "collegeName" in body.fields {
      PresentKeyAccepted(schema, body, "collegeName");
      ProfileCollegeNameRule();
    }
    if "degree" in body.fields {
      PresentKeyAccepted(schema, body, "degree");
      ProfileDegreeRule();
    }
    if "branch" in body.fields {
      PresentKeyAccepted(schema, body, "branch");
      ProfileBranchRule();
    }
    if "about" in body.fields {
      PresentKeyAccepted(schema, body, "about");
      ProfileAboutRule();
    }
  }

  /** A valid profile body: the four links are URIs. */
  lemma ProfileLinkRules(body: Json)
    requires Validate(UpdateStudentProfileSchema(), body).Success?
    ensures var f := body.fields;
            && UriField(f, "resumeUrl") && UriField(f, "linkedInUrl")
            && UriField(f, "githubUrl") && UriField(f, "portfolioUrl")
  {
    var schema := UpdateStudentProfileSchema();
    if "resumeUrl" in body.fields {
      PresentKeyAccepted(schema, body, "resumeUrl");
      ProfileResumeUrlRule();
    }
    if "linkedInUrl" in body.fields {
      PresentKeyAccepted(schema, body, "linkedInUrl");
      ProfileLinkedInUrlRule();
    }
    if "githubUrl" in body.fields {
      PresentKeyAccepted(schema, body, "githubUrl");
      ProfileGithubUrlRule();
    }
    if "portfolioUrl" in body.fields {
      PresentKeyAccepted(schema, body, "portfolioUrl");
      ProfilePortfolioUrlRule();
    }
  }

  /** A valid profile body: the location preferences and skills are lists of strings. */
  lemma ProfileListRules(body: Json)
    requires Validate(UpdateStudentProfileSchema(), body).Success?
    ensures StrList(body.fields, "locationPreference") && StrList(body.fields, "skills")
  {
    var schema := UpdateStudentProfileSchema();
    if "locationPreference" in body.fields {
      PresentKeyAccepted(schema, body, "locationPreference");
      ProfileLocationPreferenceRule();
    }
    if "skills" in body.fields {
      PresentKeyAccepted(schema, body, "skills");
      ProfileSkillsRule();
    }
  }

  /** Every key is optional, so the empty body is valid. */
  lemma EmptyProfileBodyValid()
    ensures Validate(UpdateStudentProfileSchema(), JObj(map[])).Success?
  {
    EmptyBodyAccepted(UpdateStudentProfileSchema());
  }
}
