/**
 * The admin page's list logic: the search-and-status filters over
 * cancellation requests and user accounts, and the single-entry status
 * changes made by approving, rejecting and verifying.
 */
module Admin {
  import opened Lists
  import opened Text
  import opened FormChecks

  datatype RequestStatus = RequestPending | Processed | RequestRejected

  datatype Cancellation = Cancellation(
    id: string,
    bookingReference: string,
    userEmail: string,
    userName: string,
    locationName: string,
    bookingDate: string,
    bookingTime: string,
    totalAmount: real,
    reason: string,
    requestDate: string,
    refundAmount: real,
    status: RequestStatus)

  datatype Verification = VerificationPending | Verified | VerificationRejected

  datatype UserAccount = UserAccount(
    id: string,
    email: string,
    name: string,
    memberType: MemberType,
    verificationStatus: Verification,
    joinDate: string,
    totalBookings: int,
    totalSpent: real)

  /** The status strings the status filter compares with. */
  function RequestStatusName(s: RequestStatus): string {
    match s
    case RequestPending => "pending"
    case Processed => "processed"
    case RequestRejected => "rejected"
  }

  function VerificationName(v: Verification): string {
    match v
    case VerificationPending => "pending"
    case Verified => "verified"
    case VerificationRejected => "rejected"
  }

  /** Case-insensitive substring search. */
  predicate MatchesTerm(field: string, term: string) {
    Includes(ToLower(field), ToLower(term))
  }

  predicate CancellationShown(term: string, filterStatus: string, c: Cancellation) {
    (MatchesTerm(c.userName, term) || MatchesTerm(c.userEmail, term) || MatchesTerm(c.bookingReference, term))
    && (filterStatus == "all" || RequestStatusName(c.status) == filterStatus)
  }

  predicate UserShown(term: string, filterStatus: string, u: UserAccount) {
    (MatchesTerm(u.name, term) || MatchesTerm(u.email, term))
    && (filterStatus == "all" || VerificationName(u.verificationStatus) == filterStatus)
  }

  /** `filteredCancellations`: the requests that match both the search and the status,
      in their original order. */
  function FilterCancellations(cs: seq<Cancellation>, term: string, filterStatus: string)
    : (r: seq<Cancellation>)
    ensures forall c :: c in r <==> c in cs && CancellationShown(term, filterStatus, c)
    ensures IsSubsequence(r, cs)
    ensures forall c :: multiset(r)[c] == if CancellationShown(term, filterStatus, c) then multiset(cs)[c] else 0
  {
    FilterCounts(cs, c => CancellationShown(term, filterStatus, c));
    Filter(cs, c => CancellationShown(term, filterStatus, c))
  }

  /** `filteredUsers`: the same rule over name, e-mail and verification status. */
  function FilterUsers(us: seq<UserAccount>, term: string, filterStatus: string): (r: seq<UserAccount>)
    ensures forall u :: u in r <==> u in us && UserShown(term, filterStatus, u)
    ensures IsSubsequence(r, us)
    ensures forall u :: multiset(r)[u] == if UserShown(term, filterStatus, u) then multiset(us)[u] else 0
  {
    FilterCounts(us, u => UserShown(term, filterStatus, u));
    Filter(us, u => UserShown(term, filterStatus, u))
  }

  /** An empty search with status 'all' shows everything. */
  lemma EmptySearchShowsAll(cs: seq<Cancellation>, us: seq<UserAccount>)
    ensures FilterCancellations(cs, "", "all") == cs
    ensures FilterUsers(us, "", "all") == us
  {
    forall c: Cancellation ensures CancellationShown("", "all", c) {
      IncludesEmpty(ToLower(c.userName));
    }
    forall u: UserAccount ensures UserShown("", "all", u) {
      IncludesEmpty(ToLower(u.name));
    }
    FilterKeepsAll(cs, c => CancellationShown("", "all", c));
    FilterKeepsAll(us, u => UserShown("", "all", u));
  }

  /** Filtering an already filtered list changes nothing. */
  lemma FiltersIdempotent(cs: seq<Cancellation>, us: seq<UserAccount>, term: string, filterStatus: string)
    ensures FilterCancellations(FilterCancellations(cs, term, filterStatus), term, filterStatus)
            == FilterCancellations(cs, term, filterStatus)
    ensures FilterUsers(FilterUsers(us, term, filterStatus), term, filterStatus)
            == FilterUsers(us, term, filterStatus)
  {
    FilterIdempotent(cs, c => CancellationShown(term, filterStatus, c));
    FilterIdempotent(us, u => UserShown(term, filterStatus, u));
  }

  /** Upper- and lower-case searches find the same entries. */
  lemma SearchIgnoresCase(cs: seq<Cancellation>, term: string, filterStatus: string)
    ensures FilterCancellations(cs, ToUpper(term), filterStatus) == FilterCancellations(cs, term, filterStatus)
  {
    LowerOfUpper(term);
    FilterCongruent(cs, c => CancellationShown(ToUpper(term), filterStatus, c),
                    c => CancellationShown(term, filterStatus, c));
  }

  datatype RequestAction = Approve | Reject

  /** `handleCancellationAction`: the request with that id becomes processed or rejected. */
  function ApplyRequestAction(cs: seq<Cancellation>, id: string, action: RequestAction)
    : (r: seq<Cancellation>)
    ensures |r| == |cs|
    ensures forall i :: 0 <= i < |cs| && cs[i].id == id ==>
              r[i] == cs[i].(status := if action == Approve then Processed else RequestRejected)
    ensures forall i :: 0 <= i < |cs| && cs[i].id != id ==> r[i] == cs[i]
  {
    UpdateWhere(cs, (c: Cancellation) => c.id == id,
                (c: Cancellation) => c.(status := if action == Approve then Processed else RequestRejected))
  }

  datatype UserAction = Verify | RejectUser

  /** `handleUserVerification`: only the matching user's verification status changes. */
  function ApplyUserAction(us: seq<UserAccount>, id: string, action: UserAction): (r: seq<UserAccount>)
    ensures |r| == |us|
    ensures forall i :: 0 <= i < |us| && us[i].id == id ==>
              r[i] == us[i].(verificationStatus := if action == Verify then Verified else VerificationRejected)
    ensures forall i :: 0 <= i < |us| && us[i].id != id ==> r[i] == us[i]
  {
    UpdateWhere(us, (u: UserAccount) => u.id == id,
                (u: UserAccount) => u.(verificationStatus := if action == Verify then Verified else VerificationRejected))
  }

  /** Repeating a decision changes nothing more. */
  lemma DecisionsIdempotent(cs: seq<Cancellation>, us: seq<UserAccount>, id: string,
                            a: RequestAction, b: UserAction)
    ensures ApplyRequestAction(ApplyRequestAction(cs, id, a), id, a) == ApplyRequestAction(cs, id, a)
    ensures ApplyUserAction(ApplyUserAction(us, id, b), id, b) == ApplyUserAction(us, id, b)
  {
  }

  /** A decided request no longer shows under the 'pending' filter. */
  lemma DecidedLeavesPending(cs: seq<Cancellation>, id: string, action: RequestAction, term: string)
    ensures forall c :: c in FilterCancellations(ApplyRequestAction(cs, id, action), term, "pending")
              ==> c.id != id
  {
  }
}
