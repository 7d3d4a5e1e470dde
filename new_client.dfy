/**
 * The "Add New Client" page (app/dashboard/clients/new/page.tsx): the
 * submit handler validates the trimmed name and e-mail, builds the create
 * payload from the raw form values, inserts the row and reports the result.
 */
module NewClient {
  import opened Wrappers
  import opened Text
  import opened Records

  /** The form's values; the optional inputs may be missing from the form data. */
  datatype ClientForm = ClientForm(
    email: string,
    name: string,
    company: Option<string>,
    notes: Option<string>,
    phone: Option<string>)

  /** The object handed to `createClient`. */
  datatype Payload = Payload(
    email: string,
    fullName: string,
    company: string,
    notes: string,
    phone: string,
    userId: string)

  /** The check before anything is sent: neither trimmed value may be empty. */
  predicate Accepts(f: ClientForm) {
    Trim(f.email) != "" && Trim(f.name) != ""
  }

  /** The payload: raw (untrimmed) values, `""` for a missing input and for a missing user. */
  function PayloadFor(f: ClientForm, user: Option<string>): Payload {
    Payload(f.email, f.name, f.company.GetOr(""), f.notes.GetOr(""), f.phone.GetOr(""), user.GetOr(""))
  }

  /** The row the database stores for a payload under the id it assigns. */
  function RowFor(id: string, p: Payload): Client {
    Client(id, p.userId, Some(p.fullName), Some(p.email), Some(p.company), Some(p.phone), Some(p.notes))
  }

  /** What `createClient` does: resolve to the new row's id, or throw. */
  datatype CreateResult = Created(id: string) | CreateThrew

  /** The toast the handler ends with. */
  datatype SubmitResult = RequiredMissing | ClientCreated(id: string) | AddFailed

  function SubmitResultFor(f: ClientForm, result: CreateResult): SubmitResult {
    if !Accepts(f) then RequiredMissing
    else if result.Created? && result.id != "" then ClientCreated(result.id)
    else AddFailed
  }

  /** The page's state: the `isSubmitting` flag. */
  class NewClientPage {
    var isSubmitting: bool

    constructor ()
      ensures !isSubmitting
    {
      isSubmitting := false;
    }

    /**
     * `handleSubmit`. A rejected form clears the flag and writes nothing;
     * otherwise the flag is raised and stays raised, and the row is inserted
     * whenever the store returns one, even under a falsy id.
     */
    method Submit(table: ClientTable, f: ClientForm, user: Option<string>, result: CreateResult)
      returns (r: SubmitResult)
      modifies this, table
      ensures r == SubmitResultFor(f, result)
      ensures isSubmitting == Accepts(f)
      ensures table.rows ==
        if Accepts(f) && result.Created? then old(table.rows)[result.id := RowFor(result.id, PayloadFor(f, user))]
        else old(table.rows)
    {
      if Trim(f.email) == "" || Trim(f.name) == "" {
        isSubmitting := false;
        return RequiredMissing;
      }
      isSubmitting := true;
      var payload := PayloadFor(f, user);
      if result.CreateThrew? {
        return AddFailed;
      }
      table.Insert(result.id, RowFor(result.id, payload));
      if result.id != "" {
        r := ClientCreated(result.id);
      } else {
        r := AddFailed;
      }
    }
  }

  /** A form is accepted iff both the e-mail and the name hold a character that is not white space. */
  lemma AcceptsIff(f: ClientForm)
    ensures Accepts(f) <==>
      (exists i | 0 <= i < |f.email| :: !IsSpace(f.email[i])) && (exists i | 0 <= i < |f.name| :: !IsSpace(f.name[i]))
  {
  }

  /**
   * The payload carries the values as typed, not trimmed; missing optional
   * inputs and a missing user become `""`.
   */
  lemma PayloadFields(f: ClientForm, user: Option<string>)
    ensures var p := PayloadFor(f, user);
      && p.email == f.email && p.fullName == f.name
      && (f.company.None? ==> p.company == "") && (f.company.Some? ==> p.company == f.company.value)
      && (f.notes.None? ==> p.notes == "") && (f.notes.Some? ==> p.notes == f.notes.value)
      && (f.phone.None? ==> p.phone == "") && (f.phone.Some? ==> p.phone == f.phone.value)
      && (user.None? ==> p.userId == "") && (user.Some? ==> p.userId == user.value)
  {
  }

  /** Surrounding spaces pass the check and reach the database unchanged. */
  lemma PaddedNameIsSentRaw()
    ensures Accepts(ClientForm(" e ", " n ", None, None, None))
    ensures PayloadFor(ClientForm(" e ", " n ", None, None, None), None).fullName == " n "
    ensures PayloadFor(ClientForm(" e ", " n ", None, None, None), None).email == " e "
  {
    var f := ClientForm(" e ", " n ", None, None, None);
    assert !IsSpace(f.email[1]);
    assert !IsSpace(f.name[1]);
    AcceptsIff(f);
  }

  /**
   * Success is reported iff the form is accepted and the store returns a
   * non-empty id; a thrown error and an empty id both end in "Failed to add
   * client".
   */
  lemma SubmitResultCases(f: ClientForm, result: CreateResult)
    ensures SubmitResultFor(f, result) == RequiredMissing <==> !Accepts(f)
    ensures SubmitResultFor(f, result).ClientCreated? <==> Accepts(f) && result.Created? && result.id != ""
    ensures SubmitResultFor(f, result).ClientCreated? ==> SubmitResultFor(f, result).id == result.id
    ensures Accepts(f) && (result.CreateThrew? || result == Created("")) ==> SubmitResultFor(f, result) == AddFailed
  {
  }
}
