/**
 * The follow-up table (components/dashboard/followup-list.tsx): the search
 * filter, the status badge and the status-dependent row actions. Instants
 * are the opaque strings the database returns; their formatting (relative
 * "… ago", the New York time zone) is not modelled.
 */
module FollowupList {
  import opened Wrappers
  import opened Text
  import opened Seqs

  /** The client joined to a follow-up row (`clients(full_name, email)`); both columns are taken to be non-null. */
  datatype JoinedClient = JoinedClient(fullName: string, email: string)

  datatype ListedFollowup = ListedFollowup(
    id: string,
    client: Option<JoinedClient>,
    subject: string,
    status: string,
    sentAt: Option<string>,
    scheduledAt: Option<string>,
    isOpened: bool)

  /** The predicate of `filteredFollowups`. */
  predicate Matches(f: ListedFollowup, term: string) {
    || (f.client.Some? && Includes(Lower(f.client.value.fullName), Lower(term)))
    || (f.client.Some? && Includes(Lower(f.client.value.email), Lower(term)))
    || Includes(Lower(f.subject), Lower(term))
  }

  /** `filteredFollowups`. */
  function FilterFollowups(followups: seq<ListedFollowup>, term: string): seq<ListedFollowup> {
    Filter(followups, f => Matches(f, term))
  }

  /**
   * A follow-up is kept iff the lower-cased term occurs in its client's
   * lower-cased name or e-mail or in its lower-cased subject; order and
   * number of occurrences are kept.
   */
  lemma FilterFollowupsSpec(followups: seq<ListedFollowup>, term: string)
    ensures IsSubsequence(FilterFollowups(followups, term), followups)
    ensures forall i | 0 <= i < |followups| ::
      followups[i] in FilterFollowups(followups, term) <==> Matches(followups[i], term)
    ensures forall f :: multiset(FilterFollowups(followups, term))[f] == if Matches(f, term) then multiset(followups)[f] else 0
  {
    FilterCount(followups, f => Matches(f, term));
  }

  /** Without a joined client, only the subject can match. */
  lemma NoClientMatchesOnSubject(f: ListedFollowup, term: string)
    requires f.client.None?
    ensures Matches(f, term) <==> exists i :: OccursAt(Lower(f.subject), Lower(term), i)
  {
    IncludesIff(Lower(f.subject), Lower(term));
  }

  /** The "No follow-ups found." row appears iff nothing matches. */
  lemma NoFollowupsRowIff(followups: seq<ListedFollowup>, term: string)
    ensures |FilterFollowups(followups, term)| == 0 <==> forall i | 0 <= i < |followups| :: !Matches(followups[i], term)
  {
    FilterEmptyIff(followups, f => Matches(f, term));
  }

  /** The badge `getStatusDisplay` renders. */
  datatype StatusBadge =
    | SentBadge(sentAt: Option<string>)
    | OpenedBadge(isOpened: bool)
    | ScheduledBadge(at: string)
    | DraftBadge
    | RawBadge(status: string)

  /** `getStatusDisplay`; a scheduled row without a (non-empty) time shows `now`. */
  function StatusDisplay(f: ListedFollowup, now: string): StatusBadge {
    match f.status
    case "sent" => SentBadge(f.sentAt)
    case "opened" => OpenedBadge(f.isOpened)
    case "scheduled" =>
      ScheduledBadge(if f.scheduledAt.Some? && f.scheduledAt.value != "" then f.scheduledAt.value else now)
    case "draft" => DraftBadge
    case _ => RawBadge(f.status)
  }

  /** The fixed words of the badge, before any formatted instant. */
  function BadgeWords(b: StatusBadge): string {
    match b
    case SentBadge(_) => "Sent"
    case OpenedBadge(o) => if o then "Opened Yes" else "Opened No"
    case ScheduledBadge(_) => "Scheduled for"
    case DraftBadge => "Draft"
    case RawBadge(s) => s
  }

  /**
   * The case split is total: the four known statuses get their badge, with
   * "opened" following `is_opened`, and any other status shows verbatim.
   */
  lemma StatusDisplayCases(f: ListedFollowup, now: string)
    ensures f.status == "sent" ==> StatusDisplay(f, now) == SentBadge(f.sentAt) && BadgeWords(StatusDisplay(f, now)) == "Sent"
    ensures f.status == "opened" ==>
      BadgeWords(StatusDisplay(f, now)) == if f.isOpened then "Opened Yes" else "Opened No"
    ensures f.status == "scheduled" ==> StatusDisplay(f, now).ScheduledBadge?
    ensures f.status == "scheduled" && (f.scheduledAt.None? || f.scheduledAt.value == "") ==>
      StatusDisplay(f, now) == ScheduledBadge(now)
    ensures f.status == "draft" ==> BadgeWords(StatusDisplay(f, now)) == "Draft"
    ensures f.status !in {"sent", "opened", "scheduled", "draft"} ==>
      StatusDisplay(f, now) == RawBadge(f.status) && BadgeWords(StatusDisplay(f, now)) == f.status
  {
  }

  datatype RowAction = ViewDetails | Edit | SendNow | Resend | Delete

  /** The row's action menu. */
  function RowActions(status: string): seq<RowAction> {
    [ViewDetails, Edit]
      + (if status == "draft" then [SendNow] else [])
      + (if status == "sent" then [Resend] else [])
      + [Delete]
  }

  /** "Send Now" only for drafts, "Resend" only for sent rows; view, edit and delete always. */
  lemma RowActionsByStatus(status: string)
    ensures SendNow in RowActions(status) <==> status == "draft"
    ensures Resend in RowActions(status) <==> status == "sent"
    ensures ViewDetails in RowActions(status) && Edit in RowActions(status) && Delete in RowActions(status)
    ensures !(SendNow in RowActions(status) && Resend in RowActions(status))
  {
  }
}
