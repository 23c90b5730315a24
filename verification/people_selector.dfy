/**
 * The head-count picker: a clamped counter in simple mode, and in breakdown
 * mode three per-kind counters (co-workers, co-tutors, co-students) whose
 * total stays between 1 and the maximum.
 */
module PeopleSelector {
  import opened Wrappers

  datatype Kind = CoWorkers | CoTutors | CoStudents

  datatype Counts = Counts(coWorkers: int, coTutors: int, coStudents: int)

  /** The breakdown reported to the parent: the counts plus a total. */
  datatype Breakdown = Breakdown(coWorkers: int, coTutors: int, coStudents: int, total: int)

  function Count(b: Counts, k: Kind): int {
    match k
    case CoWorkers => b.coWorkers
    case CoTutors => b.coTutors
    case CoStudents => b.coStudents
  }

  /** `{ ...b, [k]: v }` */
  function With(b: Counts, k: Kind, v: int): (r: Counts)
    ensures Count(r, k) == v
    ensures forall j: Kind :: j != k ==> Count(r, j) == Count(b, j)
    ensures Total(r) == Total(b) - Count(b, k) + v
  {
    match k
    case CoWorkers => b.(coWorkers := v)
    case CoTutors => b.(coTutors := v)
    case CoStudents => b.(coStudents := v)
  }

  function Total(b: Counts): int {
    b.coWorkers + b.coTutors + b.coStudents
  }

  predicate NonNegative(b: Counts) {
    b.coWorkers >= 0 && b.coTutors >= 0 && b.coStudents >= 0
  }

  /** A breakdown the picker can show: no negative count and a total in 1..max. */
  predicate ValidCounts(b: Counts, max: int) {
    NonNegative(b) && 1 <= Total(b) <= max
  }


  /** `Math.max(lo, Math.min(hi, v))`: `lo` wins when the bounds cross. */
  function Clamp(v: int, lo: int, hi: int): (r: int)
    ensures lo <= hi ==> lo <= r <= hi
    ensures lo <= v <= hi ==> r == v
    ensures v < lo || hi < lo ==> r == lo
    ensures lo <= hi < v ==> r == hi
  {
    var m := if hi < v then hi else v;
    if lo < m then m else lo
  }

  datatype Props = Props(min: int, max: int, step: int, controlled: Option<int>, showBreakdown: bool)

  datatype Selector = Selector(uncontrolled: int, breakdown: Counts)

  /** `controlledValue ?? uncontrolled` */
  function Value(p: Props, s: Selector): int {
    p.controlled.GetOr(s.uncontrolled)
  }

  /** A transition's new state and what it reported through the two callbacks. */
  datatype Emitted = Emitted(state: Selector, onChange: Option<int>, onBreakdownChange: Option<Breakdown>)

  /** `update(newVal)`: report the clamped value, and keep it when uncontrolled. */
  function Update(p: Props, s: Selector, newVal: int): (e: Emitted)
    ensures e.onChange.Some? && e.onBreakdownChange.None?
    ensures p.min <= p.max ==> p.min <= e.onChange.value <= p.max
    ensures p.min <= newVal <= p.max ==> e.onChange.value == newVal
    ensures e.state.breakdown == s.breakdown
    ensures p.controlled.None? ==> Value(p, e.state) == e.onChange.value
    ensures p.controlled.Some? ==> e.state == s
  {
    var c := Clamp(newVal, p.min, p.max);
    Emitted(if p.controlled.None? then s.(uncontrolled := c) else s, Some(c), None)
  }

  /** Simple-mode buttons: disabled when a step would leave min..max. */
  function SimpleMinusDisabled(p: Props, s: Selector): (b: bool)
    ensures Value(p, s) - p.step <= p.max ==>
              (b <==> Clamp(Value(p, s) - p.step, p.min, p.max) != Value(p, s) - p.step)
  {
    Value(p, s) - p.step < p.min
  }

  function SimplePlusDisabled(p: Props, s: Selector): (b: bool)
    ensures p.min <= p.max && p.min <= Value(p, s) + p.step ==>
              (b <==> Clamp(Value(p, s) + p.step, p.min, p.max) != Value(p, s) + p.step)
  {
    Value(p, s) + p.step > p.max
  }

  /** An enabled simple-mode button reports exactly one step up or down. */
  lemma SimpleClicksAreExact(p: Props, s: Selector)
    ensures !SimpleMinusDisabled(p, s) && Value(p, s) - p.step <= p.max ==>
              Update(p, s, Value(p, s) - p.step).onChange == Some(Value(p, s) - p.step)
    ensures !SimplePlusDisabled(p, s) && p.min <= Value(p, s) + p.step ==>
              Update(p, s, Value(p, s) + p.step).onChange == Some(Value(p, s) + p.step)
  {
  }

  /** The edited count, floored at 0. */
  function Floored(newVal: int): (v: int)
    ensures v >= 0 && (newVal >= 0 ==> v == newVal)
    ensures newVal < 0 ==> v == 0
  {
    if newVal > 0 then newVal else 0
  }

  /** The total the edit asks for, before the forced co-worker. */
  function EditedTotal(b: Counts, k: Kind, newVal: int): int {
    Total(b) - Count(b, k) + Floored(newVal)
  }

  /** The counts `updateBreakdown(k, newVal)` proposes: the edited count floored at 0,
      with co-workers forced to 1 if everyone would be gone. */
  function Proposed(b: Counts, k: Kind, newVal: int): Counts {
    Forced(With(b, k, Floored(newVal)))
  }

  /** Nobody left: one co-worker is put back. */
  function Forced(nb: Counts): Counts {
    if Total(nb) == 0 then nb.(coWorkers := 1) else nb
  }

  lemma ProposedOfNonNegative(b: Counts, k: Kind, newVal: int)
    requires NonNegative(b)
    ensures NonNegative(Proposed(b, k, newVal))
    ensures Total(Proposed(b, k, newVal)) == CommittedTotal(b, k, newVal)
    ensures Count(Proposed(b, k, newVal), k) == Floored(newVal)
            || (EditedTotal(b, k, newVal) == 0 && k == CoWorkers && Count(Proposed(b, k, newVal), k) == 1)
  {
    var v := Floored(newVal);
    var nb := With(b, k, v);
    WithKeepsNonNegative(b, k, v);
    assert Total(nb) == EditedTotal(b, k, newVal);
    ForcedFacts(nb, k);
  }

  lemma WithKeepsNonNegative(b: Counts, k: Kind, v: int)
    requires NonNegative(b) && v >= 0
    ensures NonNegative(With(b, k, v))
  {
    match k
    case CoWorkers =>
    case CoTutors =>
    case CoStudents =>
  }

  /** Forcing keeps counts non-negative, lifts a zero total to 1, and touches only
      the co-workers. */
  lemma ForcedFacts(nb: Counts, k: Kind)
    requires NonNegative(nb)
    ensures NonNegative(Forced(nb))
    ensures Total(Forced(nb)) == if Total(nb) == 0 then 1 else Total(nb)
    ensures Count(Forced(nb), k) == Count(nb, k) || (Total(nb) == 0 && k == CoWorkers && Count(Forced(nb), k) == 1)
  {
  }

  /** Editing tutors or students changes co-workers only by forcing the first one. */
  lemma ProposedForcesCoWorkers(b: Counts, k: Kind, newVal: int)
    requires NonNegative(b) && k != CoWorkers
    ensures var r := Proposed(b, k, newVal);
            r.coWorkers != b.coWorkers ==> b.coWorkers == 0 && r.coWorkers == 1 && Total(r) == 1
  {
    var nb := With(b, k, Floored(newVal));
    assert nb.coWorkers == b.coWorkers && NonNegative(nb);
    ForcedChangesOnlyEmpty(nb);
  }

  lemma ForcedChangesOnlyEmpty(nb: Counts)
    requires NonNegative(nb)
    ensures Forced(nb).coWorkers != nb.coWorkers ==> nb.coWorkers == 0 && Forced(nb).coWorkers == 1 && Total(Forced(nb)) == 1
  {
  }

  /** The total an edit commits: the edited sum, or 1 when that sum is 0. */
  function CommittedTotal(b: Counts, k: Kind, newVal: int): int {
    if EditedTotal(b, k, newVal) == 0 then 1 else EditedTotal(b, k, newVal)
  }

  /** What a proposal keeps: its counts stay non-negative, its total is the edited
      sum (1 when that sum is 0), and only the edited count changes, apart from the
      forced co-worker. */
  lemma ProposedFacts(b: Counts, k: Kind, newVal: int)
    ensures NonNegative(b) ==> NonNegative(Proposed(b, k, newVal))
    ensures NonNegative(b) ==> Total(Proposed(b, k, newVal)) == CommittedTotal(b, k, newVal)
    ensures NonNegative(b) ==>
              Count(Proposed(b, k, newVal), k) == Floored(newVal)
              || (EditedTotal(b, k, newVal) == 0 && k == CoWorkers && Count(Proposed(b, k, newVal), k) == 1)
    ensures forall j: Kind :: j != k && j != CoWorkers ==> Count(Proposed(b, k, newVal), j) == Count(b, j)
    ensures NonNegative(b) && k != CoWorkers && Proposed(b, k, newVal).coWorkers != b.coWorkers ==>
              b.coWorkers == 0 && Proposed(b, k, newVal).coWorkers == 1 && Total(Proposed(b, k, newVal)) == 1
  {
    if NonNegative(b) {
      ProposedOfNonNegative(b, k, newVal);
      if k != CoWorkers {
        ProposedForcesCoWorkers(b, k, newVal);
      }
    }
  }

  /** `updateBreakdown(k, newVal)`: the proposal is committed only when its total
      does not exceed max; otherwise the breakdown stays as it was. */
  function UpdateBreakdown(b: Counts, k: Kind, newVal: int, max: int): (r: Counts)
    ensures NonNegative(b) && CommittedTotal(b, k, newVal) > max ==> r == b
    ensures NonNegative(b) && CommittedTotal(b, k, newVal) <= max ==> Total(r) == CommittedTotal(b, k, newVal)
    ensures NonNegative(b) && CommittedTotal(b, k, newVal) <= max ==>
              Count(r, k) == Floored(newVal)
              || (EditedTotal(b, k, newVal) == 0 && k == CoWorkers && Count(r, k) == 1)
    ensures NonNegative(b) ==> NonNegative(r)
    ensures NonNegative(b) && r != b ==> 1 <= Total(r) <= max
    ensures forall j: Kind :: j != k && j != CoWorkers ==> Count(r, j) == Count(b, j)
    ensures NonNegative(b) && k != CoWorkers && r.coWorkers != b.coWorkers ==>
              b.coWorkers == 0 && r.coWorkers == 1 && Total(r) == 1
  {
    var nb := Proposed(b, k, newVal);
    ProposedFacts(b, k, newVal);
    if Total(nb) <= max then nb else b
  }

  /** Updating a valid breakdown yields a valid breakdown. */
  lemma UpdateBreakdownKeepsValid(b: Counts, k: Kind, newVal: int, max: int)
    requires ValidCounts(b, max)
    ensures ValidCounts(UpdateBreakdown(b, k, newVal, max), max)
  {
  }

  /** Breakdown-mode buttons. Minus: disabled at 0 and for the last person. Plus:
      disabled once the total reaches max. */
  function MinusDisabled(b: Counts, k: Kind): (r: bool)
    ensures NonNegative(b) ==> (!r <==> Count(b, k) >= 1 && Total(With(b, k, Count(b, k) - 1)) >= 1)
  {
    Count(b, k) == 0 || (Total(b) == 1 && Count(b, k) == 1)
  }

  function PlusDisabled(b: Counts, max: int): (r: bool)
    ensures !r <==> forall k: Kind :: Total(With(b, k, Count(b, k) + 1)) <= max
  {
    // One more co-worker is the witness that a disabled button is full.
    var one := With(b, CoWorkers, Count(b, CoWorkers) + 1);
    Total(b) >= max
  }

  /** An enabled minus button removes exactly one person of that kind. */
  lemma MinusClickCommits(b: Counts, k: Kind, max: int)
    requires ValidCounts(b, max) && !MinusDisabled(b, k)
    ensures UpdateBreakdown(b, k, Count(b, k) - 1, max) == With(b, k, Count(b, k) - 1)
    ensures Total(UpdateBreakdown(b, k, Count(b, k) - 1, max)) == Total(b) - 1
  {
  }

  /** An enabled plus button adds exactly one person of that kind. */
  lemma PlusClickCommits(b: Counts, k: Kind, max: int)
    requires ValidCounts(b, max) && !PlusDisabled(b, max)
    ensures UpdateBreakdown(b, k, Count(b, k) + 1, max) == With(b, k, Count(b, k) + 1)
    ensures Total(UpdateBreakdown(b, k, Count(b, k) + 1, max)) == Total(b) + 1
  {
  }

  /** The breakdown effect: in breakdown mode, report the clamped total, and report
      the breakdown with that total when the raw sum differs from the current value. */
  function BreakdownEffect(p: Props, s: Selector): (e: Emitted)
    ensures !p.showBreakdown ==> e == Emitted(s, None, None)
    ensures p.showBreakdown ==> e.onChange.Some?
    ensures p.showBreakdown && p.min <= p.max ==> p.min <= e.onChange.value <= p.max
    ensures p.showBreakdown && p.min <= Total(s.breakdown) <= p.max ==> e.onChange.value == Total(s.breakdown)
    ensures p.showBreakdown && p.min <= p.max && Total(s.breakdown) < p.min ==> e.onChange.value == p.min
    ensures p.showBreakdown && p.min <= p.max && Total(s.breakdown) > p.max ==> e.onChange.value == p.max
    ensures p.showBreakdown ==> e.onChange == Some(Clamp(Total(s.breakdown), p.min, p.max))
    ensures p.showBreakdown && p.controlled.None? ==> e.state == s.(uncontrolled := e.onChange.value)
    ensures p.showBreakdown ==> (e.onBreakdownChange.Some? <==> Total(s.breakdown) != Value(p, s))
    ensures e.onBreakdownChange.Some? ==>
              var r := e.onBreakdownChange.value;
              r.coWorkers == s.breakdown.coWorkers && r.coTutors == s.breakdown.coTutors
              && r.coStudents == s.breakdown.coStudents && r.total == e.onChange.value
    ensures e.state.breakdown == s.breakdown
    ensures p.controlled.Some? ==> e.state == s
  {
    if !p.showBreakdown then Emitted(s, None, None)
    else
      var b := s.breakdown;
      var newTotal := Total(b);
      var clamped := Clamp(newTotal, p.min, p.max);
      var s' := if p.controlled.None? then s.(uncontrolled := clamped) else s;
      var report := if newTotal != Value(p, s) then Some(Breakdown(b.coWorkers, b.coTutors, b.coStudents, clamped))
                    else None;
      Emitted(s', Some(clamped), report)
  }
}
