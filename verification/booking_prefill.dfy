/**
 * What the booking page reads back from its query string: location, start,
 * end and the three counts, with `people` recomputed from the counts.
 */
module BookingPrefill {
  import opened Wrappers
  import opened Text
  import opened Query
  import opened PeopleSelector
  import opened HeadCount
  import opened BookingLink

  /** What the booking page takes from its URL. `party` is None when a count is not
      a number (the page would hold NaN). */
  datatype Prefill = Prefill(
    location: Option<string>,
    start: Option<int>,
    end: Option<int>,
    party: Option<Party>)

  /** `parseInt(params.get(key) ?? fallback, 10)`, where the fallback is the decimal
      text of `default`; parsing that text gives `default` back (`Text.IntRoundTrip`),
      so the default is used directly. */
  function CountParam(ps: Params, key: string, default: int): (r: Option<int>)
    ensures Get(ps, key).None? ==> r == Some(default)
    ensures Get(ps, key).Some? ==> r == ParseInt(Get(ps, key).value)
  {
    match Get(ps, key)
    case None => Some(default)
    case Some(v) => ParseInt(v)
  }

  /** A non-empty parameter value, the truthiness test the page applies. */
  function NonEmpty(v: Option<string>): (r: Option<string>)
    ensures r.Some? <==> v.Some? && v.value != ""
    ensures r.Some? ==> r == v
  {
    if v.Some? && v.value != "" then v else None
  }

  /** `if (str) setX(parseISO(str))`, with the timestamp encoding standing in for ISO text. */
  function InstantParam(ps: Params, key: string): (r: Option<int>)
    ensures NonEmpty(Get(ps, key)).None? ==> r.None?
    ensures NonEmpty(Get(ps, key)).Some? ==> r == ParseInt(Get(ps, key).value)
  {
    match NonEmpty(Get(ps, key))
    case Some(s) => ParseInt(s)
    case None => None
  }

  /** The party three counts describe: `people` and the total are their sum. */
  function Counted(cw: int, ct: int, cs: int): (p: Party)
    ensures InSync(p) && Consistent(p.breakdown)
    ensures p.breakdown.coWorkers == cw && p.breakdown.coTutors == ct && p.breakdown.coStudents == cs
  {
    var total := cw + ct + cs;
    Party(total, Breakdown(cw, ct, cs, total))
  }

  /** The party three parsed counts describe, when all three are numbers. */
  function PartyOf(cw: Option<int>, ct: Option<int>, cs: Option<int>): (r: Option<Party>)
    ensures r.Some? <==> cw.Some? && ct.Some? && cs.Some?
    ensures r.Some? ==> r.value == Counted(cw.value, ct.value, cs.value)
  {
    if cw.Some? && ct.Some? && cs.Some? then Some(Counted(cw.value, ct.value, cs.value)) else None
  }

  /** The three counts with their defaults, and `people` set to their sum. */
  function PrefillParty(ps: Params): (r: Option<Party>)
    ensures r.Some? ==>
              var b := r.value.breakdown;
              InSync(r.value) && Consistent(b)
              && Some(b.coWorkers) == CountParam(ps, "coWorkers", 1)
              && Some(b.coTutors) == CountParam(ps, "coTutors", 0)
              && Some(b.coStudents) == CountParam(ps, "coStudents", 0)
    ensures r.None? <==>
              CountParam(ps, "coWorkers", 1).None? || CountParam(ps, "coTutors", 0).None?
              || CountParam(ps, "coStudents", 0).None?
  {
    PartyOf(CountParam(ps, "coWorkers", 1), CountParam(ps, "coTutors", 0), CountParam(ps, "coStudents", 0))
  }

  /** The booking page's prefill effect: location, start and end are taken when
      present; the counts default to 1/0/0; `people` is the counts' sum, whatever
      the `people` parameter says. */
  function ClientPrefill(ps: Params): (r: Prefill)
    ensures r.location.Some? <==> Get(ps, "location").Some? && Get(ps, "location").value != ""
    ensures r.location.Some? ==> r.location == Get(ps, "location")
    ensures r.start.Some? ==> Get(ps, "start").Some? && r.start == ParseInt(Get(ps, "start").value)
    ensures r.end.Some? ==> Get(ps, "end").Some? && r.end == ParseInt(Get(ps, "end").value)
    ensures r.party.Some? ==>
              var p := r.party.value;
              p.people == p.breakdown.coWorkers + p.breakdown.coTutors + p.breakdown.coStudents
              && p.breakdown.total == p.people
  {
    Prefill(NonEmpty(Get(ps, "location")), InstantParam(ps, "start"), InstantParam(ps, "end"),
            PrefillParty(ps))
  }
}

/** What the booking page recovers from the links the landing form writes. */
module BookingRoundTrip {
  import opened Wrappers
  import opened Text
  import opened Query
  import opened PeopleSelector
  import opened HeadCount
  import opened BookingLink
  import opened BookingPrefill

  /** The party is fixed by the three parsed counts alone. */
  lemma PartyOfCounts(ps: Params, cw: int, ct: int, cs: int)
    requires CountParam(ps, "coWorkers", 1) == Some(cw)
    requires CountParam(ps, "coTutors", 0) == Some(ct)
    requires CountParam(ps, "coStudents", 0) == Some(cs)
    ensures PrefillParty(ps) == Some(Counted(cw, ct, cs))
  {
  }

  /** A query without any of the six prefill keys (an empty one, say) leaves the page
      at its defaults: no location, start or end, and one co-worker. */
  lemma MissingParamsPrefill(ps: Params)
    requires Get(ps, "location") == None && Get(ps, "start") == None && Get(ps, "end") == None
    requires Get(ps, "coWorkers") == None && Get(ps, "coTutors") == None
    requires Get(ps, "coStudents") == None
    ensures ClientPrefill(ps) == Prefill(None, None, None, Some(InitialParty))
  {
    DefaultCount(ps, "coWorkers", 1);
    DefaultCount(ps, "coTutors", 0);
    DefaultCount(ps, "coStudents", 0);
    PartyOfCounts(ps, 1, 0, 0);
    InitialPartyCounted();
    NoInstant(ps, "start");
    NoInstant(ps, "end");
    var r := ClientPrefill(ps);
    assert r.location == None;
    assert r.party == Some(InitialParty);
  }

  lemma DefaultCount(ps: Params, key: string, default: int)
    requires Get(ps, key) == None
    ensures CountParam(ps, key, default) == Some(default)
  {
  }

  lemma NoInstant(ps: Params, key: string)
    requires Get(ps, key) == None
    ensures InstantParam(ps, key) == None
  {
  }

  lemma InitialPartyCounted()
    ensures Counted(1, 0, 0) == InitialParty
  {
  }

  /** Counts written as decimal text are read back as the same counts. */
  lemma PrefillOfWrittenCounts(ps: Params, cw: int, ct: int, cs: int)
    requires Get(ps, "coWorkers") == Some(IntToString(cw))
    requires Get(ps, "coTutors") == Some(IntToString(ct))
    requires Get(ps, "coStudents") == Some(IntToString(cs))
    ensures PrefillParty(ps) == Some(Counted(cw, ct, cs))
  {
    CountReadBack(ps, "coWorkers", 1, cw);
    CountReadBack(ps, "coTutors", 0, ct);
    CountReadBack(ps, "coStudents", 0, cs);
    PartyOfCounts(ps, cw, ct, cs);
  }

  lemma CountReadBack(ps: Params, key: string, default: int, n: int)
    requires Get(ps, key) == Some(IntToString(n))
    ensures CountParam(ps, key, default) == Some(n)
  {
    IntRoundTrip(n);
  }

  /** The booking page recovers the form's counts, and `people` becomes their sum
      whatever the form's `people` was. */
  lemma ContinueRoundTripParty(location: string, p: Party, start: int, end: int)
    ensures PrefillParty(ContinueParams(location, p, Some(start), Some(end)))
              == Some(Counted(p.breakdown.coWorkers, p.breakdown.coTutors, p.breakdown.coStudents))
  {
    var b := p.breakdown;
    var ps := ContinueParams(location, p, Some(start), Some(end));
    PrefillOfWrittenCounts(ps, b.coWorkers, b.coTutors, b.coStudents);
  }

  /** The round trip: the booking page recovers the form's location, start, end and
      counts. */
  lemma ContinueRoundTrip(location: string, p: Party, start: int, end: int)
    ensures var r := ClientPrefill(ContinueParams(location, p, Some(start), Some(end)));
            r.location == (if location == "" then None else Some(location))
            && r.start == Some(start) && r.end == Some(end)
            && r.party == Some(Counted(p.breakdown.coWorkers, p.breakdown.coTutors, p.breakdown.coStudents))
  {
    IntRoundTrip(start);
    IntRoundTrip(end);
    ContinueRoundTripParty(location, p, start, end);
  }

  /** A synchronised, consistent party arrives unchanged. */
  lemma ContinuePreservesSyncedParty(location: string, p: Party, start: int, end: int)
    requires InSync(p) && Consistent(p.breakdown)
    ensures ClientPrefill(ContinueParams(location, p, Some(start), Some(end))).party == Some(p)
  {
    var ps := ContinueParams(location, p, Some(start), Some(end));
    ContinueRoundTripParty(location, p, start, end);
    assert ClientPrefill(ps).party == PrefillParty(ps);
    assert Counted(p.breakdown.coWorkers, p.breakdown.coTutors, p.breakdown.coStudents) == p;
  }

  /** The prefill reads nothing but the six fields: two query strings that agree on
      them prefill the page alike, whatever else they carry. */
  lemma PrefillReadsSixKeys(ps: Params, qs: Params)
    requires Get(ps, "location") == Get(qs, "location")
    requires Get(ps, "start") == Get(qs, "start") && Get(ps, "end") == Get(qs, "end")
    requires Get(ps, "coWorkers") == Get(qs, "coWorkers")
    requires Get(ps, "coTutors") == Get(qs, "coTutors")
    requires Get(ps, "coStudents") == Get(qs, "coStudents")
    ensures ClientPrefill(ps) == ClientPrefill(qs)
  {
  }

  /** The `people` parameter plays no part: the head count is recomputed from the
      three counts, so removing the parameter changes nothing. */
  lemma PeopleParamIgnored(ps: Params)
    ensures ClientPrefill(Delete(ps, "people")) == ClientPrefill(ps)
  {
    var qs := Delete(ps, "people");
    GetAfterDelete(ps, "people", "location");
    GetAfterDelete(ps, "people", "start");
    GetAfterDelete(ps, "people", "end");
    GetAfterDelete(ps, "people", "coWorkers");
    GetAfterDelete(ps, "people", "coTutors");
    GetAfterDelete(ps, "people", "coStudents");
    PrefillReadsSixKeys(qs, ps);
  }

  /** Whenever Book Now opens the modal, Continue can run, and the link it writes
      gives the booking page the form's location, start and end. */
  lemma ModalLinkPrefillsBooking(location: string, p: Party, start: Option<int>, end: Option<int>)
    requires BookNowOpensModal(location, start, end)
    ensures start.Some? && end.Some?
    ensures var r := ClientPrefill(ContinueParams(location, p, start, end));
            r.location == Some(location) && r.start == start && r.end == end
  {
    ContinueRoundTrip(location, p, start.value, end.value);
  }
}
