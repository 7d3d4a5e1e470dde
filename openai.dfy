/**
 * `generateFollowupEmail` (lib/openai.ts): the placeholder for a language
 * model call, which fills the follow-up template and performs no checks.
 */
module OpenAi {
  import opened Text
  import opened Letter

  /** The sentence after the salutation in this copy of the template. */
  const Thanks: string :=
    "Thank you for taking the time to meet with "
    + "me yesterday to discuss your project needs. "
    + "I appreciated the opportunity to learn more "
    + "about your goals and the challenges you're "
    + "facing."

  /** The `{ content }` object the function resolves to. */
  datatype Generated = Generated(content: string)

  /**
   * The content opens with `Dear <clientName>,`, carries `Based on our
   * conversation about <meetingContext>,` and ends with the name and address
   * of the sender on two lines; there is no validation, so empty names are
   * accepted like any other.
   */
  function GenerateFollowupEmail(clientName: string, meetingContext: string, userEmail: string, userName: string): (r: Generated)
    ensures Salutation(clientName) <= r.content
    ensures Includes(r.content, ContextClause(meetingContext))
    ensures |Signature(userName, userEmail)| <= |r.content|
    ensures r.content[|r.content| - |Signature(userName, userEmail)|..] == Signature(userName, userEmail)
  {
    ComposeShape(clientName, Thanks, meetingContext, userName, userEmail);
    Generated(Compose(clientName, Thanks, meetingContext, userName, userEmail))
  }

  /** Empty inputs still produce a letter: it opens `Dear ,` and ends with a lone line break. */
  lemma EmptyInputsAccepted()
    ensures var r := GenerateFollowupEmail("", "", "", "");
      && "Dear ," <= r.content
      && r.content[|r.content| - 1..] == "\n"
  {
    var r := GenerateFollowupEmail("", "", "", "");
    assert Salutation("") == "Dear ,";
    assert Signature("", "") == "\n";
  }
}
