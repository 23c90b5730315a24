/**
 * The pass-purchase page: the pass catalogue, the order total with add-on and
 * 9% tax, the URL prefill, the type filter, the shown savings and the
 * submit gate.
 */
module BuyPass {
  import opened Wrappers
  import opened Lists
  import opened Text
  import opened Money

  datatype PassPackage = PassPackage(
    name: string,
    price: int,
    originalPrice: int,
    description: string,
    bonus: string,
    validity: string,
    addon: int,
    passType: string)

  /** The catalogue, in display order. */
  const Catalogue: seq<PassPackage> := [
    PassPackage("Half-Day Productivity Boost", 109, 150, "6 Half-Day Pass (6 hrs/pass)",
                "4 Complimentary Hours", "30 days from activation", 5, "cowork"),
    PassPackage("Flexible Full-Day Focus", 209, 280, "6 Full-Day Pass (12 hrs/pass)",
                "2 Half-Day Passes (6 hrs/pass)", "30 days from activation", 5, "cowork"),
    PassPackage("Student Semester Bundle", 129, 180, "20 Study-Hour Pass",
                "Includes 5 Project-Room Credits", "60 days from activation", 0, "costudy"),
    PassPackage("Half-Day Productivity Boost (Colearn)", 109, 150, "6 Half-Day Pass (6 hrs/pass)",
                "4 Complimentary Hours", "30 days from activation", 5, "colearn"),
    PassPackage("Flexible Full-Day Focus (Colearn)", 209, 280, "6 Full-Day Pass (12 hrs/pass)",
                "2 Half-Day Passes (6 hrs/pass)", "30 days from activation", 5, "colearn")
  ]

  /** `packageDetails[name]` */
  function LookupPackage(name: string): Option<PassPackage> {
    Find(Catalogue, Named(name))
  }

  function Named(name: string): PassPackage -> bool {
    (p: PassPackage) => p.name == name
  }

  /** A lookup finds a catalogue package of that name, and finds nothing exactly when
      no package has it. */
  lemma LookupFinds(name: string)
    ensures LookupPackage(name).Some? ==>
              LookupPackage(name).value in Catalogue && LookupPackage(name).value.name == name
    ensures LookupPackage(name).None? <==> forall i :: 0 <= i < |Catalogue| ==> Catalogue[i].name != name
  {
    assert forall i :: 0 <= i < |Catalogue| ==> (Named(name)(Catalogue[i]) <==> Catalogue[i].name == name);
  }

  /** A package sells for a positive price below its original price, with a non-negative add-on. */
  predicate Discounted(p: PassPackage) {
    0 < p.price < p.originalPrice && p.addon >= 0
  }

  lemma CatalogueDiscounted()
    ensures forall i :: 0 <= i < |Catalogue| ==> Discounted(Catalogue[i])
  {
  }

  /** One line of the order: a package's price with its add-on, times the quantity. */
  function LineTotal(p: PassPackage, quantity: int): (s: int)
    ensures Discounted(p) && quantity >= 0 ==> s >= 0
  {
    MulNonNegative(p.price + p.addon, quantity);
    (p.price + p.addon) * quantity
  }

  /** `(price + addon) * quantity` for a catalogue package, and 0 otherwise. */
  function Subtotal(selected: string, quantity: int): (s: int)
    ensures LookupPackage(selected).None? ==> s == 0
    ensures LookupPackage(selected).Some? ==> s == LineTotal(LookupPackage(selected).value, quantity)
    ensures quantity >= 0 ==> s >= 0
  {
    LookedUpIsDiscounted(selected);
    match LookupPackage(selected)
    case Some(p) => LineTotal(p, quantity)
    case None => 0
  }

  lemma LookedUpIsDiscounted(name: string)
    ensures LookupPackage(name).Some? ==> Discounted(LookupPackage(name).value)
  {
    LookupFinds(name);
    if LookupPackage(name).Some? {
      ListedIsDiscounted(LookupPackage(name).value);
    }
  }

  lemma ListedIsDiscounted(p: PassPackage)
    ensures p in Catalogue ==> Discounted(p)
  {
    CatalogueDiscounted();
  }

  lemma MulNonNegative(a: int, b: int)
    ensures a >= 0 && b >= 0 ==> a * b >= 0
  {
  }

  /** The order's charge: 9% tax on the subtotal, unrounded. */
  function OrderCharge(selected: string, quantity: int): (c: Charge)
    ensures c.subtotal == Subtotal(selected, quantity) as real
    ensures c.total * 100.0 == c.subtotal * 109.0
    ensures quantity >= 0 ==> 0.0 <= c.subtotal <= c.total
  {
    ChargeFor(Subtotal(selected, quantity) as real)
  }

  /** The quantities on offer. */
  const Quantities: seq<int> := [1, 2, 3, 4, 5]

  /** Within the offered quantities a purchase costs at most five times the package. */
  lemma SubtotalBounds(selected: string, quantity: int)
    requires quantity in Quantities && LookupPackage(selected).Some?
    ensures var p := LookupPackage(selected).value;
            p.price + p.addon <= Subtotal(selected, quantity) <= 5 * (p.price + p.addon)
  {
    var p := LookupPackage(selected).value;
    LookedUpIsDiscounted(selected);
    var a := p.price + p.addon;
    assert Subtotal(selected, quantity) == a * quantity;
    if quantity == 1 {
    } else if quantity == 2 {
    } else if quantity == 3 {
    } else if quantity == 4 {
    } else {
      assert quantity == 5;
    }
  }

  /** The URL `package` parameter is taken only when it names a catalogue entry. */
  function AcceptPackageParam(current: string, param: Option<string>): (r: string)
    ensures param.Some? && param.value != "" && LookupPackage(param.value).Some? ==> r == param.value
    ensures !(param.Some? && LookupPackage(param.value).Some?) ==> r == current
    ensures r == current || LookupPackage(r).Some?
  {
    if param.Some? && param.value != "" && LookupPackage(param.value).Some? then param.value else current
  }

  /** The URL `type` parameter is taken when non-empty. */
  function AcceptTypeParam(current: string, param: Option<string>): (r: string)
    ensures param.Some? && param.value != "" ==> r == param.value
    ensures param.None? || param.value == "" ==> r == current
  {
    if param.Some? && param.value != "" then param.value else current
  }

  /** The packages offered: all of them with no type, otherwise those of that type,
      in catalogue order. */
  function PackagesOfType(passType: string): (r: seq<PassPackage>)
    ensures passType == "" ==> r == Catalogue
    ensures forall i :: 0 <= i < |r| ==> r[i] in Catalogue && (passType == "" || r[i].passType == passType)
    ensures forall i :: 0 <= i < |Catalogue| && Catalogue[i].passType == passType ==> Catalogue[i] in r
    ensures IsSubsequence(r, Catalogue)
  {
    OfTypeFacts(Catalogue, passType);
    Filter(Catalogue, OfType(passType))
  }

  /** The filter's test: every package when no type is chosen, else those of that type. */
  function OfType(passType: string): PassPackage -> bool {
    (p: PassPackage) => passType == "" || p.passType == passType
  }

  lemma OfTypeFacts(cat: seq<PassPackage>, passType: string)
    ensures passType == "" ==> Filter(cat, OfType(passType)) == cat
    ensures forall i :: 0 <= i < |cat| && cat[i].passType == passType ==> cat[i] in Filter(cat, OfType(passType))
  {
    FilterKeepsAll(cat, OfType(passType));
    assert forall i :: 0 <= i < |cat| && cat[i].passType == passType ==> OfType(passType)(cat[i]);
  }

  /** The struck-through original and the saving shown under the total. */
  function ShownSavings(p: PassPackage, quantity: int): (r: (int, int))
    ensures r.0 == p.originalPrice * quantity
    ensures r.0 - r.1 == p.price * quantity
    ensures Discounted(p) && quantity > 0 ==> 0 < r.1 < r.0
  {
    SavingsPositive(p, quantity);
    (p.originalPrice * quantity, (p.originalPrice - p.price) * quantity)
  }

  lemma SavingsPositive(p: PassPackage, quantity: int)
    ensures Discounted(p) && quantity > 0 ==>
              0 < (p.originalPrice - p.price) * quantity < p.originalPrice * quantity
  {
    if Discounted(p) && quantity > 0 {
      var a, b := p.originalPrice - p.price, p.price;
      MulPositive(a, quantity);
      MulPositive(b, quantity);
      assert p.originalPrice * quantity == a * quantity + b * quantity;
    }
  }

  lemma MulPositive(a: int, b: int)
    requires a > 0 && b > 0
    ensures a * b > 0
  {
  }

  /** `isFormValid`: a package, a name, an e-mail, a phone number, accepted terms, a user. */
  function IsFormValid(selected: string, name: string, email: string, phone: string,
                       agreedToTerms: bool, signedIn: bool): (ok: bool)
    ensures ok <==> signedIn && agreedToTerms && selected != "" && name != "" && email != "" && phone != ""
  {
    selected != "" && name != "" && email != "" && phone != "" && agreedToTerms && signedIn
  }

  /** The Continue button: disabled while the form is invalid, a purchase is
      loading, or nobody is signed in. */
  function SubmitDisabled(formValid: bool, isLoading: bool, signedIn: bool): (d: bool)
    ensures !d ==> formValid && signedIn && !isLoading
    ensures formValid && signedIn && !isLoading ==> !d
    ensures isLoading ==> d
  {
    !formValid || isLoading || !signedIn
  }

  /** An enabled Continue button means a complete form and a signed-in user; the
      button's own `!user` test adds nothing to `isFormValid`'s. */
  lemma SubmitNeedsCompleteForm(selected: string, name: string, email: string, phone: string,
                                terms: bool, signedIn: bool, isLoading: bool)
    ensures !SubmitDisabled(IsFormValid(selected, name, email, phone, terms, signedIn), isLoading, signedIn) <==>
              signedIn && terms && !isLoading && selected != "" && name != "" && email != "" && phone != ""
    ensures SubmitDisabled(IsFormValid(selected, name, email, phone, terms, signedIn), isLoading, signedIn)
            == SubmitDisabled(IsFormValid(selected, name, email, phone, terms, signedIn), isLoading, true)
  {
  }

  datatype PurchasePage = PurchasePage(showAuthModal: bool, isLoading: bool, step: int)

  /** `handlePurchaseSubmit`: without a user only the sign-in modal opens; with one,
      the page starts loading (the step advances when the simulated call completes). */
  function HandlePurchaseSubmit(page: PurchasePage, signedIn: bool): (r: PurchasePage)
    ensures !signedIn ==> r == page.(showAuthModal := true)
    ensures signedIn ==> r == page.(isLoading := true)
    ensures r.step == page.step
  {
    if !signedIn then page.(showAuthModal := true) else page.(isLoading := true)
  }

  /** The simulated call completing: loading stops and the confirmation step shows. */
  function PurchaseCompletes(page: PurchasePage): (r: PurchasePage)
    ensures !r.isLoading && r.step == 3 && r.showAuthModal == page.showAuthModal
  {
    page.(isLoading := false, step := 3)
  }

  /** A submit the button allows never falls back to the sign-in modal. */
  lemma EnabledSubmitStartsPurchase(page: PurchasePage, selected: string, name: string, email: string,
                                    phone: string, terms: bool, signedIn: bool)
    requires !SubmitDisabled(IsFormValid(selected, name, email, phone, terms, signedIn), page.isLoading, signedIn)
    ensures HandlePurchaseSubmit(page, signedIn) == page.(isLoading := true)
    ensures PurchaseCompletes(HandlePurchaseSubmit(page, signedIn)).step == 3
  {
  }

  /** The name prefilled from the account: `first + ' ' + last`, missing parts as '',
      trimmed. */
  function PrefillName(first: Option<string>, last: Option<string>): (r: string)
    ensures IsTrimmed(first.GetOr("")) && IsTrimmed(last.GetOr("")) ==>
              (first.GetOr("") == "" ==> r == last.GetOr(""))
              && (last.GetOr("") == "" ==> r == first.GetOr(""))
              && (first.GetOr("") != "" && last.GetOr("") != "" ==> r == first.value + " " + last.value)
    ensures Blank(first.GetOr("")) ==> r == Trim(last.GetOr(""))
    ensures !Blank(first.GetOr("")) && Blank(last.GetOr("")) ==> r == Trim(first.GetOr(""))
    ensures !Blank(first.GetOr("")) && !Blank(last.GetOr("")) ==>
              r == TrimStart(first.value) + " " + TrimEnd(last.value)
  {
    var f := first.GetOr("");
    var l := last.GetOr("");
    NameTrimming(f, l);
    JoinTrim(f, l);
    Trim(f + " " + l)
  }

  lemma NameTrimming(f: string, l: string)
    ensures IsTrimmed(f) && IsTrimmed(l) ==>
              (f == "" ==> Trim(f + " " + l) == l)
              && (l == "" ==> Trim(f + " " + l) == f)
              && (f != "" && l != "" ==> Trim(f + " " + l) == f + " " + l)
  {
    if IsTrimmed(f) && IsTrimmed(l) {
      if f == "" {
        assert f + " " + l == " " + l;
        TrimLeadingBlank(l);
      }
      if l == "" {
        assert f + " " + l == f + " ";
        TrimTrailingBlank(f);
      }
      if f != "" && l != "" {
        var s := f + " " + l;
        assert s[0] == f[0] && s[|s| - 1] == l[|l| - 1];
        TrimOfTrimmed(s);
      }
    }
  }
}
