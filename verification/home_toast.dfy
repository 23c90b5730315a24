/**
 * The home-page toast: a recognised `toastType` query parameter shows its
 * toast once, and the parameter is then removed from the address.
 */
module HomeToast {
  import opened Wrappers
  import opened Lists
  import opened Query

  datatype Variant = DefaultVariant | Destructive
  datatype ToastConfig = ToastConfig(title: string, description: string, variant: Variant)

  const ToastKey: string := "toastType"

  /** The toast table. */
  function Config(t: string): Option<ToastConfig> {
    if t == "login" then Some(ToastConfig("Logged in", "You have been successfully logged in", DefaultVariant))
    else if t == "signUp" then Some(ToastConfig("Account Created", "Please check your email to confirm your account", DefaultVariant))
    else if t == "logOut" then Some(ToastConfig("Logged out", "You have been successfully logged out", DefaultVariant))
    else None
  }

  /** `isToastType`: a present value that names an entry of the table. */
  function IsToastType(value: Option<string>): (b: bool)
    ensures value.None? ==> !b
    ensures b <==> value.Some? && value.value in {"login", "signUp", "logOut"}
    ensures b ==> Config(value.value).Some?
  {
    value.Some? && Config(value.value).Some?
  }

  /** `removeUrlParam`: every `toastType` pair is dropped and the address rebuilt,
      with no `?` when nothing remains. */
  function RemoveUrlParam(pathname: string, ps: Params): (url: string)
    ensures var rest := Delete(ps, ToastKey);
            (|rest| == 0 ==> url == pathname)
            && (|rest| > 0 ==> url == pathname + "?" + Serialize(rest))
  {
    var rest := Delete(ps, ToastKey);
    var s := Serialize(rest);
    if s != "" then pathname + "?" + s else pathname
  }

  /** After removal the parameter is gone, every other pair is kept in order and as
      often as it occurred, and removing again changes nothing. */
  lemma RemovalIsClean(ps: Params)
    ensures Get(Delete(ps, ToastKey), ToastKey).None?
    ensures forall i :: 0 <= i < |ps| && ps[i].0 != ToastKey ==> ps[i] in Delete(ps, ToastKey)
    ensures IsSubsequence(Delete(ps, ToastKey), ps)
    ensures forall q :: multiset(Delete(ps, ToastKey))[q] == if q.0 == ToastKey then 0 else multiset(ps)[q]
    ensures Delete(Delete(ps, ToastKey), ToastKey) == Delete(ps, ToastKey)
  {
    FilterIdempotent(ps, KeyIsNot(ToastKey));
    GetFindsFirst(Delete(ps, ToastKey), ToastKey);
  }

  /** A page without other parameters returns to its bare path. */
  lemma OnlyToastParamLeavesBarePath(pathname: string, value: string)
    ensures RemoveUrlParam(pathname, [(ToastKey, value)]) == pathname
  {
    assert Delete([(ToastKey, value)], ToastKey) == [];
  }

  /** The effect: the toast shown (if any) and the address written back (if any). */
  datatype EffectResult = EffectResult(shown: Option<ToastConfig>, replacedUrl: Option<string>)

  function ToastEffect(pathname: string, ps: Params): (e: EffectResult)
    ensures e.shown.Some? <==> IsToastType(Get(ps, ToastKey))
    ensures e.shown.Some? ==> e.shown == Config(Get(ps, ToastKey).value)
    ensures e.replacedUrl.Some? <==> e.shown.Some?
    ensures e.replacedUrl.Some? ==> e.replacedUrl.value == RemoveUrlParam(pathname, ps)
  {
    var t := Get(ps, ToastKey);
    if IsToastType(t) then EffectResult(Config(t.value), Some(RemoveUrlParam(pathname, ps)))
    else EffectResult(None, None)
  }

  /** Once the parameter is removed, the effect does not fire again. */
  lemma ToastShownOnce(pathname: string, ps: Params)
    ensures ToastEffect(pathname, Delete(ps, ToastKey)) == EffectResult(None, None)
  {
    RemovalIsClean(ps);
  }
}
