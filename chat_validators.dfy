/** The request schema of the chat endpoint. */
module ChatValidators {
  import opened Wrappers
  import opened Json
  import opened Joi

  function ChatMessageSchema(): Schema {
    map[
      "message" := Required(Str(1, Some(1000), false, [])),
      "sessionId" := Optional(AnyStr())
    ]
  }

  /** A chat body carries a message of 1..1000 characters and, optionally, a session id string. */
  lemma ChatBodyRules(body: Json)
    ensures Validate(ChatMessageSchema(), body).Success? <==>
              && body.JObj?
              && (forall k :: k in body.fields ==> k == "message" || k == "sessionId")
              && "message" in body.fields && body.fields["message"].JStr?
              && 1 <= |body.fields["message"].s| <= 1000
              && ("sessionId" in body.fields ==> body.fields["sessionId"].JStr? && body.fields["sessionId"].s != "")
  {
    var schema := ChatMessageSchema();
    if body.JObj? {
      var f := body.fields;
      if "message" in f {
        assert RuleAccepts(schema["message"].rule, f["message"]) <==>
               f["message"].JStr? && 1 <= |f["message"].s| <= 1000;
      }
      if "sessionId" in f {
        assert RuleAccepts(schema["sessionId"].rule, f["sessionId"]) <==>
               f["sessionId"].JStr? && f["sessionId"].s != "";
      }
    }
  }
}
