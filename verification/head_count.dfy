/**
 * How the landing form and the booking page keep their `people` count and
 * their head-count breakdown in step with each other and with the selector,
 * plus the start/end date rule both pages share.
 */
module HeadCount {
  import opened Wrappers
  import opened PeopleSelector

  /** A page's party: `people` and the breakdown with its own `total`. */
  datatype Party = Party(people: int, breakdown: Breakdown)

  const InitialParty: Party := Party(1, Breakdown(1, 0, 0, 1))

  /** `people` agrees with the breakdown's total. */
  predicate InSync(p: Party) {
    p.people == p.breakdown.total
  }

  /** The breakdown's total is the sum of its counts. */
  predicate Consistent(b: Breakdown) {
    b.total == b.coWorkers + b.coTutors + b.coStudents
  }

  /** The breakdown after the total is set to `n` from outside: co-workers absorb
      the difference, but never drop below 1. */
  function Retotal(b: Breakdown, n: int): (r: Breakdown)
    ensures r.total == n && r.coTutors == b.coTutors && r.coStudents == b.coStudents
    ensures r.coWorkers >= 1
    ensures n - b.coTutors - b.coStudents >= 1 ==> Consistent(r)
    ensures n - b.coTutors - b.coStudents < 1 ==> r.coWorkers + r.coTutors + r.coStudents > n
  {
    var w := n - b.coTutors - b.coStudents;
    b.(total := n, coWorkers := if w > 1 then w else 1)
  }

  /** The booking page's `handlePeopleChange(n)`. */
  function ClientPeopleChange(p: Party, n: int): (r: Party)
    ensures r.people == n && InSync(r)
    ensures p.breakdown.total == n ==> r.breakdown == p.breakdown
    ensures p.breakdown.total != n ==> r.breakdown == Retotal(p.breakdown, n)
  {
    if p.breakdown.total != n then Party(n, Retotal(p.breakdown, n)) else p.(people := n)
  }

  /** The landing form's `handlePeopleChange(n)`: the same, guarded by `people !== n`. */
  function FormPeopleChange(p: Party, n: int): (r: Party)
    ensures p.people == n ==> r == p
    ensures p.people != n ==> r == ClientPeopleChange(p, n)
    ensures InSync(p) ==> InSync(r)
  {
    if p.people != n then ClientPeopleChange(p, n) else p
  }

  /** The booking page's `handleBreakdownChange(b)`: take `b`, and `people` follows its total. */
  function ClientBreakdownChange(p: Party, b: Breakdown): (r: Party)
    ensures r.breakdown == b && InSync(r)
  {
    Party(b.total, b)
  }

  /** The landing form's `handleBreakdownChange(b)`: nothing happens for a breakdown
      equal field by field to the current one (the `JSON.stringify` comparison, whose
      key order is the same on both sides). */
  function FormBreakdownChange(p: Party, b: Breakdown): (r: Party)
    ensures b == p.breakdown ==> r == p
    ensures b != p.breakdown ==> r == ClientBreakdownChange(p, b)
    ensures InSync(p) ==> InSync(r)
  {
    if b != p.breakdown then ClientBreakdownChange(p, b) else p
  }

  /** Hands a selector report to a page: `onChange` first, then `onBreakdownChange`. */
  function Deliver(p: Party, e: Emitted, form: bool): Party {
    var p1 := match e.onChange
              case Some(n) => if form then FormPeopleChange(p, n) else ClientPeopleChange(p, n)
              case None => p;
    match e.onBreakdownChange
    case Some(b) => if form then FormBreakdownChange(p1, b) else ClientBreakdownChange(p1, b)
    case None => p1
  }

  /** When the selector's effect reports a new breakdown, either page ends up holding
      exactly the selector's counts, with `people` and the total both equal to the
      clamped sum it reported. */
  lemma EffectSyncsPage(p: Party, props: Props, s: Selector, form: bool)
    requires props.showBreakdown && props.controlled == Some(p.people)
    requires BreakdownEffect(props, s).onBreakdownChange.Some?
    ensures var e := BreakdownEffect(props, s);
            var c := e.onChange.value;
            Deliver(p, e, form)
              == Party(c, Breakdown(s.breakdown.coWorkers, s.breakdown.coTutors, s.breakdown.coStudents, c))
  {
    var e := BreakdownEffect(props, s);
    var c := e.onChange.value;
    var b := e.onBreakdownChange.value;
    var p1 := if form then FormPeopleChange(p, c) else ClientPeopleChange(p, c);
    assert p1.people == c;
  }

  /** With a valid selector breakdown and bounds the report carries the exact sum, so
      the page's breakdown is consistent and its total lies in min..max. */
  lemma EffectDeliversConsistentParty(p: Party, props: Props, s: Selector, form: bool)
    requires props.showBreakdown && props.controlled == Some(p.people)
    requires 1 <= props.min <= props.max && ValidCounts(s.breakdown, props.max)
    requires Total(s.breakdown) >= props.min
    requires BreakdownEffect(props, s).onBreakdownChange.Some?
    ensures var r := Deliver(p, BreakdownEffect(props, s), form);
            InSync(r) && Consistent(r.breakdown) && props.min <= r.people <= props.max
  {
    EffectSyncsPage(p, props, s, form);
  }

  /** `handleStartChange(d)`: the start becomes the picked value (possibly none, when the
      picker is cleared); the end is kept only when a start was picked, the end is on the
      same day and strictly after it. `day` stands for the calendar-day function. */
  function StartChange(day: int -> int, end: Option<int>, newStart: Option<int>): (r: (Option<int>, Option<int>))
    ensures r.0 == newStart
    ensures r.1.Some? <==> newStart.Some? && end.Some? && day(end.value) == day(newStart.value) && end.value > newStart.value
    ensures r.1.Some? ==> r.1 == end
  {
    var keep := newStart.Some? && end.Some? && day(end.value) == day(newStart.value) && end.value > newStart.value;
    (newStart, if keep then end else None)
  }

  /** `handleBookNow`: the auth modal opens only when location, start and end are set. */
  function BookNowOpensModal(location: string, start: Option<int>, end: Option<int>): (opens: bool)
    ensures opens ==> location != "" && start.Some? && end.Some?
    ensures location != "" && start.Some? && end.Some? ==> opens
  {
    location != "" && start.Some? && end.Some?
  }
}
