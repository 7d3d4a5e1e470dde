/**
 * The generate-followup edge function
 * (supabase/functions/generate-followup/index.ts): answers the CORS
 * preflight, checks the two required members, applies the defaults of the
 * optional ones and returns the filled template.
 */
module GenerateFollowup {
  import opened Wrappers
  import opened Text
  import opened Http
  import opened Letter

  /** The members of the request body; `None` for the body is a `req.json()` that throws. */
  datatype GenerateBody = GenerateBody(clientName: Field, meetingContext: Field, userEmail: Field, userName: Field)

  datatype GenerateRequest = GenerateRequest(httpMethod: string, body: Option<GenerateBody>)

  /** The sentence after the salutation in this copy of the template. */
  const Thanks: string :=
    "Thank you for taking the time to meet with "
    + "me yesterday to discuss your project needs. "
    + "I appreciated the opportunity to learn more "
    + "about your goals and challenges."

  const DefaultEmail: string := "you@example.com"
  const DefaultName: string := "Your Name"

  const MissingFields: Response := Response(400, Some(ErrorBody("Missing required fields")))

  /** The letter for a body that passed the check. */
  function LetterFor(b: GenerateBody): string {
    Compose(Interpolate(b.clientName), Thanks, Interpolate(b.meetingContext),
      Interpolate(WithDefault(b.userName, DefaultName)), Interpolate(WithDefault(b.userEmail, DefaultEmail)))
  }

  /**
   * The handler given to `serve`. `initFails` is a `createClient` call that
   * throws, as it does for the empty URL that an unset environment variable
   * leaves; the client is created inside the `try`, before the body is read.
   */
  function Handle(req: GenerateRequest, initFails: bool): (r: Response)
    ensures req.httpMethod == "OPTIONS" <==> r == Preflight
    ensures r.status in {200, 204, 400, 500}
  {
    if req.httpMethod == "OPTIONS" then Preflight
    else if initFails || req.body.None? then ServerError
    else
      var b := req.body.value;
      if !Truthy(b.clientName) || !Truthy(b.meetingContext) then MissingFields
      else Response(200, Some(ContentBody(LetterFor(b))))
  }

  /**
   * A request other than a preflight is answered 500 when the client cannot
   * be created or the body cannot be read; otherwise 400 when a required
   * member is falsy (absent, `null` or empty) and 200 with the letter.
   */
  lemma HandleCases(req: GenerateRequest, initFails: bool)
    requires req.httpMethod != "OPTIONS"
    ensures initFails || req.body.None? <==> Handle(req, initFails) == ServerError
    ensures !initFails && req.body.Some? ==>
      (Handle(req, initFails) == MissingFields <==> !Truthy(req.body.value.clientName) || !Truthy(req.body.value.meetingContext))
    ensures Handle(req, initFails).status == 200 <==>
      !initFails && req.body.Some? && Truthy(req.body.value.clientName) && Truthy(req.body.value.meetingContext)
  {
  }

  /**
   * A successful answer carries `{ content }` with the letter addressed to
   * the client, quoting the meeting context and signed with the sender's
   * name and address, the defaults standing in for absent members. Each
   * member appears as its template text, so `true` addresses "Dear true,".
   */
  lemma SuccessContent(req: GenerateRequest, initFails: bool)
    requires req.httpMethod != "OPTIONS" && !initFails && req.body.Some?
    requires Truthy(req.body.value.clientName) && Truthy(req.body.value.meetingContext)
    ensures var b := req.body.value;
      var clientName, meetingContext := Interpolate(b.clientName), Interpolate(b.meetingContext);
      var sig := Signature(Interpolate(WithDefault(b.userName, DefaultName)), Interpolate(WithDefault(b.userEmail, DefaultEmail)));
      && Handle(req, initFails).status == 200
      && Handle(req, initFails).body.Some? && Handle(req, initFails).body.value.ContentBody?
      && var content := Handle(req, initFails).body.value.content;
      && Salutation(clientName) <= content
      && Includes(content, ContextClause(meetingContext))
      && |sig| <= |content| && content[|content| - |sig|..] == sig
  {
    var b := req.body.value;
    ComposeShape(Interpolate(b.clientName), Thanks, Interpolate(b.meetingContext),
      Interpolate(WithDefault(b.userName, DefaultName)), Interpolate(WithDefault(b.userEmail, DefaultEmail)));
  }

  /** The defaults replace absent members only: an explicit `null` is printed as `null`. */
  lemma SignatureDefaults(b: GenerateBody)
    ensures b.userName.Absent? ==> Interpolate(WithDefault(b.userName, DefaultName)) == "Your Name"
    ensures b.userEmail.Absent? ==> Interpolate(WithDefault(b.userEmail, DefaultEmail)) == "you@example.com"
    ensures b.userName.Str? ==> Interpolate(WithDefault(b.userName, DefaultName)) == b.userName.s
    ensures b.userEmail.Str? ==> Interpolate(WithDefault(b.userEmail, DefaultEmail)) == b.userEmail.s
    ensures b.userName.Null? ==> Interpolate(WithDefault(b.userName, DefaultName)) == "null"
    ensures b.userEmail.Null? ==> Interpolate(WithDefault(b.userEmail, DefaultEmail)) == "null"
  {
  }
}
