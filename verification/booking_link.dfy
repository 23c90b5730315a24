/**
 * The hand-off from the landing form to the booking page: the query
 * parameters "Continue" writes and the prefill the booking page reads back.
 * Instants travel as decimal millisecond timestamps; the ISO-8601 text the
 * pages actually exchange is replaced by that integer encoding.
 */
module BookingLink {
  import opened Wrappers
  import opened Lists
  import opened Text
  import opened Query
  import opened PeopleSelector
  import opened HeadCount

  /** The seven keys Continue writes, in order. */
  const ContinueKeys: seq<string> :=
    ["location", "people", "start", "end", "coWorkers", "coTutors", "coStudents"]


  /** `handleContinueToBooking`: the form's fields as query parameters. It is reached
      only from the modal, which opens only with a start and an end. */
  function ContinueParams(location: string, p: Party, start: Option<int>, end: Option<int>): (ps: Params)
    requires start.Some? && end.Some?
    ensures Get(ps, "location") == Some(location)
    ensures Get(ps, "people") == Some(IntToString(p.people))
    ensures Get(ps, "start") == Some(IntToString(start.value))
    ensures Get(ps, "end") == Some(IntToString(end.value))
    ensures Get(ps, "coWorkers") == Some(IntToString(p.breakdown.coWorkers))
    ensures Get(ps, "coTutors") == Some(IntToString(p.breakdown.coTutors))
    ensures Get(ps, "coStudents") == Some(IntToString(p.breakdown.coStudents))
    ensures Keys(ps) == ContinueKeys
  {
    var b := p.breakdown;
    var pe, st, en := IntToString(p.people), IntToString(start.value), IntToString(end.value);
    var cw, ct, cs := IntToString(b.coWorkers), IntToString(b.coTutors), IntToString(b.coStudents);
    LookupLocation(location, pe, st, en, cw, ct, cs);
    LookupPeople(location, pe, st, en, cw, ct, cs);
    LookupStart(location, pe, st, en, cw, ct, cs);
    LookupEnd(location, pe, st, en, cw, ct, cs);
    LookupCoWorkers(location, pe, st, en, cw, ct, cs);
    LookupCoTutors(location, pe, st, en, cw, ct, cs);
    LookupCoStudents(location, pe, st, en, cw, ct, cs);
    ContinueList(location, pe, st, en, cw, ct, cs)
  }

  /** The Continue list with the seven values in place. */
  function ContinueList(location: string, people: string, start: string, end: string,
                        coWorkers: string, coTutors: string, coStudents: string): Params {
    [("location", location), ("people", people), ("start", start), ("end", end),
     ("coWorkers", coWorkers), ("coTutors", coTutors), ("coStudents", coStudents)]
  }

  // The seven Continue keys are distinct, so each finds its own value.

  lemma LookupLocation(a: string, b: string, c: string, d: string, e: string, f: string, g: string)
    ensures Get(ContinueList(a, b, c, d, e, f, g), "location") == Some(a)
  {
  }

  lemma LookupPeople(a: string, b: string, c: string, d: string, e: string, f: string, g: string)
    ensures Get(ContinueList(a, b, c, d, e, f, g), "people") == Some(b)
  {
    GetSkipsPrefix(ContinueList(a, b, c, d, e, f, g), "people", 1);
  }

  lemma LookupStart(a: string, b: string, c: string, d: string, e: string, f: string, g: string)
    ensures Get(ContinueList(a, b, c, d, e, f, g), "start") == Some(c)
  {
    GetSkipsPrefix(ContinueList(a, b, c, d, e, f, g), "start", 2);
  }

  lemma LookupEnd(a: string, b: string, c: string, d: string, e: string, f: string, g: string)
    ensures Get(ContinueList(a, b, c, d, e, f, g), "end") == Some(d)
  {
    GetSkipsPrefix(ContinueList(a, b, c, d, e, f, g), "end", 3);
  }

  lemma LookupCoWorkers(a: string, b: string, c: string, d: string, e: string, f: string, g: string)
    ensures Get(ContinueList(a, b, c, d, e, f, g), "coWorkers") == Some(e)
  {
    GetSkipsPrefix(ContinueList(a, b, c, d, e, f, g), "coWorkers", 4);
  }

  lemma LookupCoTutors(a: string, b: string, c: string, d: string, e: string, f: string, g: string)
    ensures Get(ContinueList(a, b, c, d, e, f, g), "coTutors") == Some(f)
  {
    GetSkipsPrefix(ContinueList(a, b, c, d, e, f, g), "coTutors", 5);
  }

  lemma LookupCoStudents(a: string, b: string, c: string, d: string, e: string, f: string, g: string)
    ensures Get(ContinueList(a, b, c, d, e, f, g), "coStudents") == Some(g)
  {
    GetSkipsPrefix(ContinueList(a, b, c, d, e, f, g), "coStudents", 6);
  }
}
