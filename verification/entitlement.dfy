/**
 * Entitlement selection on the booking page: the package/promo tabs, promo
 * validation against the voucher catalogue, and the page state the tabs'
 * `onChange` maintains.
 */
module Entitlement {
  import opened Wrappers
  import opened Lists
  import opened Text
  import opened Pricing

  datatype Mode = PackageMode | PromoMode

  /** The page's entitlement state: mode, selected package id, promo code,
      promo validity flag and the voucher the quote applies. */
  datatype Selection = Selection(
    mode: Mode,
    selectedPackage: string,
    promoCode: string,
    promoValid: bool,
    appliedVoucher: Option<Voucher>)

  /** A package and a voucher are never in force together. */
  predicate AtMostOneEntitlement(s: Selection) {
    s.selectedPackage == "" || s.appliedVoucher.None?
  }

  /** Distinct, non-empty codes. */
  predicate WellKeyed(cat: seq<Voucher>) {
    (forall i :: 0 <= i < |cat| ==> cat[i].code != "")
    && (forall i, j :: 0 <= i < j < |cat| ==> cat[i].code != cat[j].code)
  }

  /** The page's `onChange(mode, val)`: package mode takes `val` as the package and
      clears the promo; promo mode takes `val` as the code, clears the package, and
      applies the catalogue voucher with exactly that code, active or not. */
  function OnChange(mode: Mode, val: string, cat: seq<Voucher>): (r: Selection)
    ensures r.mode == mode
    ensures AtMostOneEntitlement(r)
    ensures mode == PackageMode ==>
              r.selectedPackage == val && r.promoCode == "" && !r.promoValid && r.appliedVoucher.None?
    ensures mode == PromoMode ==>
              r.promoCode == val && (r.promoValid <==> val != "") && r.selectedPackage == ""
    ensures mode == PromoMode && r.appliedVoucher.Some? ==>
              r.appliedVoucher.value in cat && r.appliedVoucher.value.code == val
    ensures mode == PromoMode ==>
              (r.appliedVoucher.None? <==> forall i :: 0 <= i < |cat| ==> cat[i].code != val)
  {
    match mode
    case PackageMode => Selection(PackageMode, val, "", false, None)
    case PromoMode =>
      Selection(PromoMode, "", val, val != "", Find(cat, (v: Voucher) => v.code == val))
  }

  /** Switching tabs reports the new mode with an empty value. */
  function TabSwitch(mode: Mode, cat: seq<Voucher>): (r: Selection)
    requires WellKeyed(cat)
    ensures r.mode == mode
    ensures r.selectedPackage == "" && r.promoCode == "" && !r.promoValid && r.appliedVoucher.None?
  {
    OnChange(mode, "", cat)
  }

  /** Validate: the first catalogue voucher whose code equals the upper-cased input
      and which is active. Expiry is not consulted. */
  function ValidatePromo(input: string, cat: seq<Voucher>): (r: Option<Voucher>)
    ensures r.Some? ==> r.value in cat && r.value.code == ToUpper(input) && r.value.isActive
    ensures r.None? <==>
              forall i :: 0 <= i < |cat| ==> !(cat[i].code == ToUpper(input) && cat[i].isActive)
  {
    Find(cat, (v: Voucher) => v.code == ToUpper(input) && v.isActive)
  }

  /** The value Validate passes to `onChange('promo', ...)`: the voucher's code, or ''. */
  function ReportedCode(found: Option<Voucher>): (code: string)
    ensures found.None? ==> code == ""
    ensures found.Some? ==> code == found.value.code
  {
    match found
    case Some(v) => v.code
    case None => ""
  }

  /** Validating then reporting applies an active voucher matching the upper-cased
      input, or nothing at all. */
  lemma ValidatedPromoIsActive(input: string, cat: seq<Voucher>)
    requires WellKeyed(cat)
    ensures var r := OnChange(PromoMode, ReportedCode(ValidatePromo(input, cat)), cat);
            AtMostOneEntitlement(r)
            && (r.appliedVoucher.Some? ==>
                  r.appliedVoucher.value.isActive && r.appliedVoucher.value.code == ToUpper(input))
            && (r.appliedVoucher.Some? <==> ValidatePromo(input, cat).Some?)
            && (r.promoValid <==> ValidatePromo(input, cat).Some?)
  {
    var found := ValidatePromo(input, cat);
    var r := OnChange(PromoMode, ReportedCode(found), cat);
    if found.Some? {
      var k :| 0 <= k < |cat| && cat[k] == found.value;
      if r.appliedVoucher.Some? {
        var j :| 0 <= j < |cat| && cat[j] == r.appliedVoucher.value;
        assert cat[j].code == cat[k].code;
        assert j == k;
      }
    }
  }

  /** The promo input is upper-cased on every keystroke. */
  function PromoInputEdit(typed: string): (r: string)
    ensures |r| == |typed|
    ensures forall i :: 0 <= i < |typed| ==> r[i] == UpperChar(typed[i])
    ensures ToUpper(r) == r
    ensures ToLower(r) == ToLower(typed)
  {
    ToUpperIdempotent(typed);
    LowerOfUpper(typed);
    ToUpper(typed)
  }

  /** Validate is disabled while the input is blank once trimmed. */
  function ValidateDisabled(localPromo: string): (disabled: bool)
    ensures disabled <==> forall i :: 0 <= i < |localPromo| ==> IsSpace(localPromo[i])
  {
    TrimEmptyIff(localPromo);
    Trim(localPromo) == ""
  }

  /** Submit is disabled when the form is invalid, the current tab holds nothing, or
      a submission is in flight. */
  function SubmitDisabled(formValid: bool, s: Selection, isLoading: bool): (disabled: bool)
    ensures !disabled ==> formValid && !isLoading
    ensures !disabled && s.mode == PackageMode ==> s.selectedPackage != ""
    ensures !disabled && s.mode == PromoMode ==> s.promoValid
  {
    !formValid || (s.mode == PackageMode && s.selectedPackage == "")
    || (s.mode == PromoMode && !s.promoValid) || isLoading
  }

  /** Once a validated code enables submit in promo mode, a voucher is applied. */
  lemma SubmitEnabledAfterValidateHasVoucher(input: string, cat: seq<Voucher>, formValid: bool)
    requires WellKeyed(cat)
    requires !SubmitDisabled(formValid, OnChange(PromoMode, ReportedCode(ValidatePromo(input, cat)), cat), false)
    ensures OnChange(PromoMode, ReportedCode(ValidatePromo(input, cat)), cat).appliedVoucher.Some?
  {
    ValidatedPromoIsActive(input, cat);
  }

  /** The shipped catalogue is well keyed, well formed and entirely active. */
  lemma TestVouchersWellKeyed()
    ensures WellKeyed(TestVouchers)
    ensures forall i :: 0 <= i < |TestVouchers| ==>
              WellFormedVoucher(TestVouchers[i]) && TestVouchers[i].isActive
  {
  }

  datatype PackageType = FullDay | HalfDay | StudyHour

  datatype UserPackage = UserPackage(
    id: string,
    name: string,
    totalPasses: int,
    passesUsed: int,
    purchasedAt: string,
    expiresAt: string,
    packageType: PackageType,
    isExpired: bool)

  /** Passes left on a package: `total_passes - passes_used`. */
  function Remaining(p: UserPackage): (n: int)
    ensures n + p.passesUsed == p.totalPasses
  {
    p.totalPasses - p.passesUsed
  }

  /** A package the user can still draw on. */
  predicate Usable(p: UserPackage) {
    !p.isExpired && Remaining(p) > 0
  }

  /** `hasValidPackages`: some package is not expired and has passes left. */
  method HasValidPackages(pkgs: seq<UserPackage>) returns (b: bool)
    ensures b <==> exists i :: 0 <= i < |pkgs| && Usable(pkgs[i])
  {
    b := false;
    var k := 0;
    while k < |pkgs|
      invariant 0 <= k <= |pkgs|
      invariant b <==> exists i :: 0 <= i < k && Usable(pkgs[i])
    {
      if Usable(pkgs[k]) {
        b := true;
      }
      k := k + 1;
    }
  }

  /** A package offered in the select is disabled when no passes remain. */
  function OptionDisabled(p: UserPackage): (disabled: bool)
    ensures disabled <==> p.passesUsed == p.totalPasses
    ensures Usable(p) ==> !disabled
  {
    Remaining(p) == 0
  }
}
