/**
 * The follow-up letter that both `generateFollowupEmail` (lib/openai.ts) and
 * the generate-followup edge function build from one template string. The
 * two copies differ only in the sentence after the salutation, which is
 * therefore a parameter here.
 */
module Letter {
  import opened Text

  /** `Dear ${clientName},` */
  function Salutation(clientName: string): string {
    "Dear " + clientName + ","
  }

  /** `Based on our conversation about ${meetingContext},` */
  function ContextClause(meetingContext: string): string {
    "Based on our conversation about " + meetingContext + ","
  }

  /** The closing two lines: the sender's name, then the sender's address. */
  function Signature(userName: string, userEmail: string): string {
    userName + "\n" + userEmail
  }

  const Rest: string :=
    " I wanted to follow up with some additional "
    + "thoughts and resources that might be helpful "
    + "as you consider next steps.\n\nWould you "
    + "be available for a brief call next week "
    + "to discuss this further? I'm available Tuesday "
    + "or Thursday afternoon if either works for "
    + "you.\n\nLooking forward to hearing from "
    + "you.\n\nBest regards,\n"

  /** The template: salutation, thanks, context clause, the invitation to a call, signature. */
  function Compose(clientName: string, thanks: string, meetingContext: string, userName: string, userEmail: string): string {
    Join(Opening(clientName, thanks), ContextClause(meetingContext), Rest, Signature(userName, userEmail))
  }

  /** The salutation and the thanks sentence, each followed by a blank line. */
  function Opening(clientName: string, thanks: string): string {
    Salutation(clientName) + "\n\n" + thanks + "\n\n"
  }

  lemma OpeningStartsWithSalutation(clientName: string, thanks: string)
    ensures Salutation(clientName) <= Opening(clientName, thanks)
  {
    assert Opening(clientName, thanks) == Salutation(clientName) + ("\n\n" + thanks + "\n\n");
  }

  lemma PrefixTransitive(a: string, b: string, c: string)
    requires a <= b && b <= c
    ensures a <= c
  {
    assert c[..|a|] == b[..|a|];
  }

  /** The four parts of the letter: `head`, the context clause, `tail`, the signature. */
  function Join(head: string, clause: string, tail: string, sig: string): string {
    head + clause + tail + sig
  }

  lemma JoinShape(head: string, clause: string, tail: string, sig: string)
    ensures var l := Join(head, clause, tail, sig);
      && head <= l
      && Includes(l, clause)
      && |sig| <= |l| && l[|l| - |sig|..] == sig
  {
    var l := Join(head, clause, tail, sig);
    assert l == head + (clause + (tail + sig));
    assert l[|head|..|head| + |clause|] == clause;
    assert OccursAt(l, clause, |head|);
    IncludesIff(l, clause);
    assert l == (head + clause + tail) + sig;
  }

  /**
   * The letter opens with the salutation, carries the context clause, and
   * closes with the signature, whatever the inputs (empty ones included).
   */
  lemma ComposeShape(clientName: string, thanks: string, meetingContext: string, userName: string, userEmail: string)
    ensures var l := Compose(clientName, thanks, meetingContext, userName, userEmail);
      && Salutation(clientName) <= l
      && Includes(l, ContextClause(meetingContext))
      && |Signature(userName, userEmail)| <= |l|
      && l[|l| - |Signature(userName, userEmail)|..] == Signature(userName, userEmail)
  {
    var head := Opening(clientName, thanks);
    JoinShape(head, ContextClause(meetingContext), Rest, Signature(userName, userEmail));
    OpeningStartsWithSalutation(clientName, thanks);
    PrefixTransitive(Salutation(clientName), head, Compose(clientName, thanks, meetingContext, userName, userEmail));
  }
}
