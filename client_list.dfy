/**
 * The client table (components/dashboard/client-list.tsx): the search
 * filter over name, e-mail and company, the empty-state row, and the guard
 * of the delete confirmation.
 */
module ClientList {
  import opened Wrappers
  import opened Text
  import opened Records
  import opened Seqs

  /** `field?.toLowerCase().includes(term.toLowerCase())`: a missing field never matches. */
  predicate FieldMatches(field: Option<string>, term: string) {
    field.Some? && Includes(Lower(field.value), Lower(term))
  }

  /** The predicate of `filteredClients`. */
  predicate Matches(c: Client, term: string) {
    FieldMatches(c.fullName, term) || FieldMatches(c.email, term) || FieldMatches(c.company, term)
  }

  /** `filteredClients`. */
  function FilterClients(clients: seq<Client>, term: string): seq<Client> {
    Filter(clients, c => Matches(c, term))
  }

  /** The "No clients found." row is shown. */
  predicate ShowsNoClientsRow(clients: seq<Client>, term: string) {
    |FilterClients(clients, term)| == 0
  }

  /**
   * A client is kept iff the lower-cased term occurs in its lower-cased name,
   * e-mail or company; the kept clients keep their order and their number
   * of occurrences.
   */
  lemma FilterClientsSpec(clients: seq<Client>, term: string)
    ensures IsSubsequence(FilterClients(clients, term), clients)
    ensures forall i | 0 <= i < |clients| :: clients[i] in FilterClients(clients, term) <==> Matches(clients[i], term)
    ensures forall c | c in FilterClients(clients, term) :: c in clients && Matches(c, term)
    ensures forall c :: multiset(FilterClients(clients, term))[c] == if Matches(c, term) then multiset(clients)[c] else 0
  {
    FilterCount(clients, c => Matches(c, term));
  }

  lemma FieldMatchesIff(field: Option<string>, term: string)
    ensures FieldMatches(field, term) <==>
      field.Some? && exists i :: OccursAt(Lower(field.value), Lower(term), i)
  {
    if field.Some? {
      IncludesIff(Lower(field.value), Lower(term));
    }
  }

  /** A client without a company matches on name or e-mail only. */
  lemma MissingCompanyNeverMatches(c: Client, term: string)
    requires c.company.None?
    ensures Matches(c, term) <==> FieldMatches(c.fullName, term) || FieldMatches(c.email, term)
  {
  }

  /** The search ignores the case of the term. */
  lemma FilterIgnoresTermCase(clients: seq<Client>, term: string)
    ensures FilterClients(clients, Upper(term)) == FilterClients(clients, term)
    ensures FilterClients(clients, Lower(term)) == FilterClients(clients, term)
  {
    LowerOfUpper(term);
    FilterCongruent(clients, c => Matches(c, Upper(term)), c => Matches(c, term));
    FilterCongruent(clients, c => Matches(c, Lower(term)), c => Matches(c, term));
  }

  /** The empty term keeps exactly the clients that have a name, an e-mail or a company. */
  lemma EmptyTermKeepsClientsWithAField(c: Client)
    ensures Matches(c, "") <==> c.fullName.Some? || c.email.Some? || c.company.Some?
  {
    assert Lower("") == "";
    if c.fullName.Some? { IncludesEmpty(Lower(c.fullName.value)); }
    if c.email.Some? { IncludesEmpty(Lower(c.email.value)); }
    if c.company.Some? { IncludesEmpty(Lower(c.company.value)); }
  }

  /** Searching the filtered list again with the same term changes nothing. */
  lemma FilterClientsIdempotent(clients: seq<Client>, term: string)
    ensures FilterClients(FilterClients(clients, term), term) == FilterClients(clients, term)
  {
    FilterIdempotent(clients, c => Matches(c, term));
  }

  /** The empty-state row appears iff no client matches. */
  lemma NoClientsRowIff(clients: seq<Client>, term: string)
    ensures ShowsNoClientsRow(clients, term) <==> forall i | 0 <= i < |clients| :: !Matches(clients[i], term)
  {
    FilterEmptyIff(clients, c => Matches(c, term));
  }

  /** A pattern holding a character that `s` lacks does not occur in it. */
  lemma MissingCharExcludes(s: string, pat: string, j: int)
    requires 0 <= j < |pat| && pat[j] !in s
    ensures !Includes(s, pat)
  {
    forall i ensures !OccursAt(s, pat, i) {
      if 0 <= i && i + |pat| <= |s| {
        assert s[i..i + |pat|][j] == s[i + j];
      }
    }
    IncludesIff(s, pat);
  }

  const Alex := Client("1", "u", Some("Alex Johnson"), Some("alex@x.com"), None, None, None)
  const Sam := Client("2", "u", Some("Sam Lee"), Some("sam@y.com"), None, None, None)

  lemma AlexMatches()
    ensures Matches(Alex, "ALEX")
  {
    assert Lower("ALEX") == "alex";
    assert Lower("Alex Johnson")[0..4] == "alex";
    assert OccursAt(Lower("Alex Johnson"), "alex", 0);
    IncludesIff(Lower("Alex Johnson"), "alex");
  }

  lemma SamMisses()
    ensures !Matches(Sam, "ALEX")
  {
    assert Lower("ALEX") == "alex";
    assert Lower("Sam Lee") == "sam lee";
    assert Lower("sam@y.com") == "sam@y.com";
    MissingCharExcludes("sam lee", "alex", 3);
    MissingCharExcludes("sam@y.com", "alex", 3);
  }

  /** Searching "ALEX" among Alex Johnson and Sam Lee keeps Alex Johnson only. */
  lemma SearchExample()
    ensures FilterClients([Alex, Sam], "ALEX") == [Alex]
  {
    AlexMatches();
    SamMisses();
    assert [Alex, Sam][1..] == [Sam];
    assert [Sam][1..] == [];
  }

  datatype DeleteOutcome = NothingSelected | Deleted(id: string) | DeleteFailed

  /**
   * `handleDeleteConfirm`: without a selected client nothing happens; else
   * the client's row is deleted, unless the store reports an error.
   */
  method ConfirmDelete(table: ClientTable, clientToDelete: Option<Client>, deleteFails: bool)
    returns (outcome: DeleteOutcome)
    modifies table
    ensures clientToDelete.None? ==> outcome == NothingSelected && table.rows == old(table.rows)
    ensures clientToDelete.Some? && deleteFails ==> outcome == DeleteFailed && table.rows == old(table.rows)
    ensures clientToDelete.Some? && !deleteFails ==>
      outcome == Deleted(clientToDelete.value.id) && table.rows == old(table.rows) - {clientToDelete.value.id}
  {
    if clientToDelete.None? {
      return NothingSelected;
    }
    if deleteFails {
      return DeleteFailed;
    }
    table.Delete(clientToDelete.value.id);
    outcome := Deleted(clientToDelete.value.id);
  }
}
