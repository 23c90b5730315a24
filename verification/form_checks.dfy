/**
 * Ordered validation chains: a form handler runs its checks in order and
 * reports the message of the first one that fails. Also the member types a
 * sign-up form offers and JavaScript truthiness of an optional token.
 */
module FormChecks {
  import opened Wrappers
  import opened Lists

  datatype MemberType = Student | Professional | Freelancer

  /** One validation step: whether it fails, and the message it reports if so. */
  datatype Check = Check(fails: bool, message: string)

  function Fails(c: Check): bool {
    c.fails
  }

  /** The message of the first failing check, or `None` when every check passes. */
  function FirstFailure(cs: seq<Check>): (r: Option<string>)
    ensures r.None? <==> forall i :: 0 <= i < |cs| ==> !cs[i].fails
  {
    match FirstIndex(cs, Fails)
    case None => None
    case Some(k) => Some(cs[k].message)
  }

  /** The check that decides: the first failing one, whatever follows it. */
  lemma FirstFailureAt(cs: seq<Check>, k: nat)
    requires k < |cs| && cs[k].fails
    requires forall j :: 0 <= j < k ==> !cs[j].fails
    ensures FirstFailure(cs) == Some(cs[k].message)
  {
    assert Fails(cs[k]);
  }

  /** Two chains that open with a passing check and continue with the same checks
      report the same message. */
  lemma SameAfterPassingHead(cs: seq<Check>, ms: seq<Check>)
    requires |cs| > 0 && |ms| > 0 && !cs[0].fails && !ms[0].fails && cs[1..] == ms[1..]
    ensures FirstFailure(cs) == FirstFailure(ms)
  {
    assert FirstIndex(cs, Fails) == FirstIndex(ms, Fails);
    match FirstIndex(cs, Fails)
    case None =>
    case Some(k) =>
      assert cs[k] == cs[1..][k - 1] == ms[k];
  }

  /** A captcha token is present and non-empty. */
  predicate HasToken(token: Option<string>) {
    token.Some? && token.value != ""
  }

  /** `message || fallback` */
  function MessageOr(message: string, fallback: string): (r: string)
    ensures message != "" ==> r == message
    ensures message == "" ==> r == fallback
  {
    if message != "" then message else fallback
  }
}
