/** The checkout page: a three-step wizard (shipping, payment, review) whose forward
    moves are gated by two validators, the shipping-cost rule, the field handlers,
    the empty-cart guard and the place-order action. */
module Checkout {
  import opened Wrappers
  import opened EmailRule
  import CartStore

  datatype ShippingInfo = ShippingInfo(
    firstName: string, lastName: string, email: string, phone: string,
    address: string, city: string, state: string, zipCode: string, country: string)

  datatype PaymentInfo = PaymentInfo(
    cardNumber: string, nameOnCard: string, expiryDate: string, cvv: string)

  /** The two radio choices, `'standard'` and `'express'`. */
  datatype ShippingMethod = Standard | Express

  /** The `name` attribute of a shipping input. */
  datatype ShippingField = FirstName | LastName | Email | Phone | Address | City | State | ZipCode | Country

  /** The `name` attribute of a payment input. */
  datatype PaymentField = CardNumber | NameOnCard | ExpiryDate | Cvv

  /** A validator's verdict; a failure carries the message shown to the user. */
  datatype Check = Pass | Fail(message: string)

  /** A signed-in user with a display name, as the form's initial values need it. */
  datatype CheckoutUser = CheckoutUser(name: string, email: string)

  /** The user object the auth context actually supplies, as plain JavaScript sees it:
      a property that is not there reads as `None` (`undefined`). */
  datatype SessionUser = SessionUser(email: string, name: Option<string>)

  /** Where the page sends the user, or the wizard step it renders. */
  datatype CheckoutView = RedirectTo(path: string) | ShowStep(step: int)

  // Money in cents.
  const FreeShippingThreshold := 10000
  const StandardFee := 799
  const ExpressFee := 1499

  const MissingShippingMessage := "Please fill in all required fields"
  const InvalidEmailMessage := "Please enter a valid email address"
  const MissingPaymentMessage := "Please fill in all payment details"
  const InvalidCardMessage := "Please enter a valid 16-digit card number"
  const InvalidCvvMessage := "Please enter a valid CVV code"

  // ---------------------------------------------------------------------------
  // Shipping cost and total

  /** Express always costs its fee; any other method is free from the threshold on
      and costs the standard fee below it. */
  function ShippingCost(choice: ShippingMethod, subtotal: int): (r: int)
    ensures choice == Express ==> r == ExpressFee
    ensures choice == Standard ==> (r == 0 <==> subtotal >= FreeShippingThreshold)
    ensures choice == Standard ==> (r == StandardFee <==> subtotal < FreeShippingThreshold)
  {
    if choice == Express then ExpressFee
    else if subtotal >= FreeShippingThreshold then 0
    else StandardFee
  }

  function Total(choice: ShippingMethod, subtotal: int): (r: int)
    ensures r - subtotal == ShippingCost(choice, subtotal)
  {
    subtotal + ShippingCost(choice, subtotal)
  }

  // ---------------------------------------------------------------------------
  // Field handlers

  function ShippingValue(info: ShippingInfo, field: ShippingField): string {
    match field
    case FirstName => info.firstName
    case LastName => info.lastName
    case Email => info.email
    case Phone => info.phone
    case Address => info.address
    case City => info.city
    case State => info.state
    case ZipCode => info.zipCode
    case Country => info.country
  }

  /** `{ ...prev, [name]: value }` on the shipping record: the named field takes the
      value, every other field keeps its own. */
  function SetShippingField(info: ShippingInfo, field: ShippingField, value: string): (r: ShippingInfo)
    ensures ShippingValue(r, field) == value
    ensures forall g :: g != field ==> ShippingValue(r, g) == ShippingValue(info, g)
  {
    match field
    case FirstName => info.(firstName := value)
    case LastName => info.(lastName := value)
    case Email => info.(email := value)
    case Phone => info.(phone := value)
    case Address => info.(address := value)
    case City => info.(city := value)
    case State => info.(state := value)
    case ZipCode => info.(zipCode := value)
    case Country => info.(country := value)
  }

  function PaymentValue(info: PaymentInfo, field: PaymentField): string {
    match field
    case CardNumber => info.cardNumber
    case NameOnCard => info.nameOnCard
    case ExpiryDate => info.expiryDate
    case Cvv => info.cvv
  }

  /** `{ ...prev, [name]: value }` on the payment record. */
  function SetPaymentField(info: PaymentInfo, field: PaymentField, value: string): (r: PaymentInfo)
    ensures PaymentValue(r, field) == value
    ensures forall g :: g != field ==> PaymentValue(r, g) == PaymentValue(info, g)
  {
    match field
    case CardNumber => info.(cardNumber := value)
    case NameOnCard => info.(nameOnCard := value)
    case ExpiryDate => info.(expiryDate := value)
    case Cvv => info.(cvv := value)
  }

  // ---------------------------------------------------------------------------
  // Validators

  /** The shipping fields that must be filled in; `country` is not among them. */
  const RequiredShippingFields: seq<ShippingField> :=
    [FirstName, LastName, Email, Phone, Address, City, State, ZipCode]

  const RequiredPaymentFields: seq<PaymentField> := [CardNumber, NameOnCard, ExpiryDate, Cvv]

  /** `requiredFields.filter(field => !shippingInfo[field])` */
  function MissingShippingFields(info: ShippingInfo, fields: seq<ShippingField>): (r: seq<ShippingField>)
    ensures forall f :: f in r <==> f in fields && ShippingValue(info, f) == ""
  {
    if fields == [] then []
    else
      var rest := MissingShippingFields(info, fields[1..]);
      assert forall f :: f in fields <==> f == fields[0] || f in fields[1..];
      if ShippingValue(info, fields[0]) == "" then [fields[0]] + rest else rest
  }

  /** `requiredFields.filter(field => !paymentInfo[field])` */
  function MissingPaymentFields(info: PaymentInfo, fields: seq<PaymentField>): (r: seq<PaymentField>)
    ensures forall f :: f in r <==> f in fields && PaymentValue(info, f) == ""
  {
    if fields == [] then []
    else
      var rest := MissingPaymentFields(info, fields[1..]);
      assert forall f :: f in fields <==> f == fields[0] || f in fields[1..];
      if PaymentValue(info, fields[0]) == "" then [fields[0]] + rest else rest
  }

  ghost predicate ShippingFieldsFilled(info: ShippingInfo) {
    forall f | f in RequiredShippingFields :: ShippingValue(info, f) != ""
  }

  ghost predicate PaymentFieldsFilled(info: PaymentInfo) {
    forall f | f in RequiredPaymentFields :: PaymentValue(info, f) != ""
  }

  /** Passes exactly when the eight required fields are non-empty and the e-mail is
      valid; otherwise reports the first failing check. */
  function ValidateShippingInfo(info: ShippingInfo): (r: Check)
    ensures r == Pass <==> ShippingFieldsFilled(info) && IsValidEmail(info.email)
    ensures !ShippingFieldsFilled(info) ==> r == Fail(MissingShippingMessage)
    ensures ShippingFieldsFilled(info) && !IsValidEmail(info.email) ==> r == Fail(InvalidEmailMessage)
  {
    var missing := MissingShippingFields(info, RequiredShippingFields);
    if |missing| > 0 then
      assert missing[0] in missing;
      Fail(MissingShippingMessage)
    else if !IsValidEmail(info.email) then Fail(InvalidEmailMessage)
    else Pass
  }

  /** The country is never checked: changing it cannot change the verdict. */
  lemma CountryIsNotValidated(info: ShippingInfo, country: string)
    ensures ValidateShippingInfo(SetShippingField(info, Country, country)) == ValidateShippingInfo(info)
  {
    var info' := SetShippingField(info, Country, country);
    assert forall f | f in RequiredShippingFields :: ShippingValue(info', f) == ShippingValue(info, f);
  }

  /** `s.replace(/\s/g, '')`: every non-whitespace character is kept as often as it
      occurs, and no whitespace is; `StripWhitespaceAppend` fixes the order. */
  function StripWhitespace(s: string): (r: string)
    ensures NoWhitespace(r)
    ensures |r| <= |s|
    ensures NoWhitespace(s) ==> r == s
    ensures forall c :: c in r <==> c in s && !IsJsWhitespace(c)
    ensures forall c :: multiset(r)[c] == if IsJsWhitespace(c) then 0 else multiset(s)[c]
  {
    if s == [] then []
    else
      var rest := StripWhitespace(s[1..]);
      assert s == [s[0]] + s[1..];
      assert forall c :: c in s <==> c == s[0] || c in s[1..];
      if IsJsWhitespace(s[0]) then rest else [s[0]] + rest
  }

  /** Removing whitespace works piece by piece: the kept characters stay in the order
      they had in `s`. */
  lemma {:induction false} StripWhitespaceAppend(a: string, b: string)
    ensures StripWhitespace(a + b) == StripWhitespace(a) + StripWhitespace(b)
  {
    if a != [] {
      assert (a + b)[1..] == a[1..] + b;
      StripWhitespaceAppend(a[1..], b);
    } else {
      assert a + b == b;
    }
  }

  /** Passes exactly when the four fields are non-empty, the card number has sixteen
      characters once whitespace is removed (its length only is checked), and the CVV
      has at least three; otherwise reports the first failing check. */
  function ValidatePaymentInfo(info: PaymentInfo): (r: Check)
    ensures r == Pass <==>
      PaymentFieldsFilled(info) && |StripWhitespace(info.cardNumber)| == 16 && |info.cvv| >= 3
    ensures !PaymentFieldsFilled(info) ==> r == Fail(MissingPaymentMessage)
    ensures PaymentFieldsFilled(info) && |StripWhitespace(info.cardNumber)| != 16 ==> r == Fail(InvalidCardMessage)
    ensures PaymentFieldsFilled(info) && |StripWhitespace(info.cardNumber)| == 16 && |info.cvv| < 3 ==>
      r == Fail(InvalidCvvMessage)
  {
    var missing := MissingPaymentFields(info, RequiredPaymentFields);
    if |missing| > 0 then
      assert missing[0] in missing;
      Fail(MissingPaymentMessage)
    else if |StripWhitespace(info.cardNumber)| != 16 then Fail(InvalidCardMessage)
    else if |info.cvv| < 3 then Fail(InvalidCvvMessage)
    else Pass
  }

  // ---------------------------------------------------------------------------
  // Initial values

  /** `name.split(' ')[0]`: the longest prefix without a space. */
  function FirstWord(s: string): (r: string)
    ensures r <= s && ' ' !in r
    ensures |r| < |s| ==> s[|r|] == ' '
  {
    var k := IndexOf(s, ' ');
    if k == -1 then s else s[..k]
  }

  /** `name.split(' ')[1] || ''`: the text between the first and the second space, or
      '' when there is no space. */
  function SecondWord(s: string): (r: string)
    ensures ' ' !in r
    ensures IndexOf(s, ' ') == -1 ==> r == ""
    ensures IndexOf(s, ' ') != -1 ==> r == FirstWord(s[IndexOf(s, ' ') + 1..])
  {
    var k := IndexOf(s, ' ');
    if k == -1 then "" else FirstWord(s[k + 1..])
  }

  /** The shipping form's first state: the user's name split into first and last
      name and the user's email, every address field empty and the country preset. */
  function InitialShippingInfo(user: Option<CheckoutUser>): (r: ShippingInfo)
    ensures r.phone == "" && r.address == "" && r.city == "" && r.state == "" && r.zipCode == ""
    ensures r.country == "United States"
    ensures user.None? ==> r.firstName == "" && r.lastName == "" && r.email == ""
    ensures user.Some? ==> r.firstName + (if r.lastName == "" then "" else " " + r.lastName) <= user.value.name
    ensures user.Some? ==> ' ' !in r.firstName && ' ' !in r.lastName && r.email == user.value.email
  {
    match user
    case None => ShippingInfo("", "", "", "", "", "", "", "", "United States")
    case Some(u) => ShippingInfo(FirstWord(u.name), SecondWord(u.name), u.email, "", "", "", "", "", "United States")
  }

  /** A Supabase `User`: it has an email, and no `name` property at all. */
  function SupabaseUser(email: string): SessionUser {
    SessionUser(email, None)
  }

  /** The thrown `TypeError`, as the message the page never gets to show. */
  const NameIsUndefined := "Cannot read properties of undefined (reading 'split')"

  /** The form's first state as the page computes it on every render: signed out, the
      empty form; signed in, `user.name.split(' ')` runs, and throws when the user
      object has no `name`. */
  function InitialShippingAsWritten(user: Option<SessionUser>): (r: Result<ShippingInfo>)
    ensures r.Err? <==> user.Some? && user.value.name.None?
    ensures r.Ok? && user.None? ==> r.value == InitialShippingInfo(None)
    ensures r.Ok? && user.Some? ==>
      r.value == InitialShippingInfo(Some(CheckoutUser(user.value.name.value, user.value.email)))
  {
    match user
    case None => Ok(InitialShippingInfo(None))
    case Some(u) =>
      if u.name.None? then Err(NameIsUndefined)
      else Ok(InitialShippingInfo(Some(CheckoutUser(u.name.value, u.email))))
  }

  /** As written, checkout throws for every signed-in user, since the user the auth
      context supplies never carries a `name`. */
  lemma SignedInCheckoutThrows(email: string)
    ensures InitialShippingAsWritten(Some(SupabaseUser(email))).Err?
    ensures InitialShippingAsWritten(None).Ok?
  {
  }

  // ---------------------------------------------------------------------------
  // The wizard

  class CheckoutWizard {
    var step: int
    var shippingInfo: ShippingInfo
    var paymentInfo: PaymentInfo
    var shippingMethod: ShippingMethod

    /** The step is 1, 2 or 3, and every step past the first was entered through the
        validators of the steps before it. */
    ghost predicate Valid()
      reads this
    {
      && 1 <= step <= 3
      && (step >= 2 ==> ValidateShippingInfo(shippingInfo) == Pass)
      && (step == 3 ==> ValidatePaymentInfo(paymentInfo) == Pass)
    }

    constructor (user: Option<CheckoutUser>)
      ensures Valid() && step == 1
      ensures shippingInfo == InitialShippingInfo(user)
      ensures paymentInfo == PaymentInfo("", "", "", "") && shippingMethod == Standard
    {
      step := 1;
      shippingInfo := InitialShippingInfo(user);
      paymentInfo := PaymentInfo("", "", "", "");
      shippingMethod := Standard;
    }

    /** What the page renders for the current cart: with no lines it redirects to the
        cart page and shows no step. */
    function Render(cart: seq<CartStore.CartLine>): (v: CheckoutView)
      reads this
      ensures v.RedirectTo? <==> cart == []
      ensures v.RedirectTo? ==> v.path == "/cart"
      ensures v.ShowStep? ==> v.step == step
    {
      if |cart| == 0 then RedirectTo("/cart") else ShowStep(step)
    }

    /** The shipping cost and total the summary shows for `subtotal`. */
    function OrderTotal(subtotal: int): int
      reads this
    {
      Total(shippingMethod, subtotal)
    }

    /** A shipping input changes; these inputs are rendered on step 1 only. */
    method ChangeShippingInfo(field: ShippingField, value: string)
      requires Valid() && step == 1
      modifies this
      ensures Valid()
      ensures shippingInfo == SetShippingField(old(shippingInfo), field, value)
      ensures step == old(step) && paymentInfo == old(paymentInfo) && shippingMethod == old(shippingMethod)
    {
      shippingInfo := SetShippingField(shippingInfo, field, value);
    }

    /** A shipping-method radio is chosen; the radios are rendered on step 1 only. */
    method SelectShippingMethod(choice: ShippingMethod)
      requires Valid() && step == 1
      modifies this
      ensures Valid() && shippingMethod == choice
      ensures step == old(step) && shippingInfo == old(shippingInfo) && paymentInfo == old(paymentInfo)
    {
      shippingMethod := choice;
    }

    /** A payment input changes; these inputs are rendered on step 2 only. */
    method ChangePaymentInfo(field: PaymentField, value: string)
      requires Valid() && step == 2
      modifies this
      ensures Valid()
      ensures paymentInfo == SetPaymentField(old(paymentInfo), field, value)
      ensures step == old(step) && shippingInfo == old(shippingInfo) && shippingMethod == old(shippingMethod)
    {
      paymentInfo := SetPaymentField(paymentInfo, field, value);
    }

    /** Step 1 moves on only when shipping validates, step 2 only when payment does;
        otherwise, and on step 3, the step stays and the failure message is returned. */
    method NextStep() returns (error: Option<string>)
      requires Valid()
      modifies this
      ensures Valid()
      ensures shippingInfo == old(shippingInfo) && paymentInfo == old(paymentInfo)
      ensures shippingMethod == old(shippingMethod)
      ensures old(step) == 1 ==>
        if ValidateShippingInfo(shippingInfo) == Pass then step == 2 && error == None
        else step == 1 && error == Some(ValidateShippingInfo(shippingInfo).message)
      ensures old(step) == 2 ==>
        if ValidatePaymentInfo(paymentInfo) == Pass then step == 3 && error == None
        else step == 2 && error == Some(ValidatePaymentInfo(paymentInfo).message)
      ensures old(step) == 3 ==> step == 3 && error == None
    {
      error := None;
      if step == 1 {
        var check := ValidateShippingInfo(shippingInfo);
        if check == Pass {
          step := 2;
        } else {
          error := Some(check.message);
        }
      } else if step == 2 {
        var check := ValidatePaymentInfo(paymentInfo);
        if check == Pass {
          step := 3;
        } else {
          error := Some(check.message);
        }
      }
    }

    /** Back one step; the Back buttons are rendered on steps 2 and 3 only. Entered
        values are kept. */
    method PrevStep()
      requires Valid() && step >= 2
      modifies this
      ensures Valid() && step == old(step) - 1
      ensures shippingInfo == old(shippingInfo) && paymentInfo == old(paymentInfo)
      ensures shippingMethod == old(shippingMethod)
    {
      step := step - 1;
    }

    /** The Place Order button of step 3: clears the cart and navigates to the
        confirmation page. No order record is written and the wizard is untouched. */
    method PlaceOrder(store: CartStore.CartProvider) returns (target: string)
      requires Valid() && step == 3
      modifies store
      ensures store.Valid() && store.cart == [] && store.totalItems == 0 && store.subtotal == 0
      ensures target == "/order-confirmation"
    {
      store.ClearCart();
      target := "/order-confirmation";
    }
  }

  /** Going back from payment to shipping and forward again keeps the typed payment
      details, and lands on payment again because shipping still validates. */
  method BackAndForth(w: CheckoutWizard)
    requires w.Valid() && w.step == 2
    modifies w
    ensures w.Valid() && w.step == 2
    ensures w.paymentInfo == old(w.paymentInfo) && w.shippingInfo == old(w.shippingInfo)
  {
    w.PrevStep();
    var error := w.NextStep();
    assert error == None;
  }
}
