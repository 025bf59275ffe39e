/** The checkout wizard (pages/Cart.tsx): cart, delivery address and payment
    steps, the address validator, and the order record the final button submits.
    The cart lines and `totalAmount` come from the cart store and are inputs here. */
module CartPage {
  import opened Base
  import opened Types
  import opened Strings
  import opened Seqs
  import opened Api
  import OrderTrackingPage

  datatype Step = CartStep | AddressStep | PaymentStep

  datatype PaymentMethod = GPay | COD

  /** The fixed handling charge added to every order. */
  const HandlingFee := 99
  const OrderIdPrefix := "ORD"
  const MinMobileLength := 10
  const OrderedStatus := "ordered"

  const MissingFieldsPrefix := "Please fill in all mandatory fields: "
  const ShortMobileAlert := "Please enter a valid 10-digit mobile number."
  const NoPaymentAlert := "Please select a payment method to continue."

  /** The fields of the address record, by the key the form's inputs carry as
      their `name`. Only the required fields have an input; landmark and
      alternate mobile keep their starting value. */
  datatype AddressField =
    | NameField | MobileField | PincodeField | LocalityField | AddressLineField
    | CityField | StateField | LandmarkField | AltMobileField

  /** The fields the validator insists on, in the order it reports them. */
  const RequiredFields := [NameField, MobileField, PincodeField, LocalityField, AddressLineField, CityField, StateField]

  /** The key of a field in the address record, as the alert prints it. */
  function FieldKey(f: AddressField): string {
    match f
    case NameField => "name"
    case MobileField => "mobile"
    case PincodeField => "pincode"
    case LocalityField => "locality"
    case AddressLineField => "address"
    case CityField => "city"
    case StateField => "state"
    case LandmarkField => "landmark"
    case AltMobileField => "altMobile"
  }

  /** `address[f]`, with an absent optional field read as the empty string
      (both are falsy). */
  function FieldValue(a: ShippingAddress, f: AddressField): string {
    match f
    case NameField => a.name
    case MobileField => a.mobile
    case PincodeField => a.pincode
    case LocalityField => a.locality
    case AddressLineField => a.address
    case CityField => a.city
    case StateField => a.state
    case LandmarkField => a.landmark.GetOr("")
    case AltMobileField => a.altMobile.GetOr("")
  }

  /** `handleInputChange`: `{ ...prev, [name]: value }`. */
  function SetAddressField(a: ShippingAddress, f: AddressField, v: string): (r: ShippingAddress)
    ensures FieldValue(r, f) == v
    ensures forall g :: g != f ==> FieldValue(r, g) == FieldValue(a, g)
    ensures r.addressType == a.addressType
  {
    match f
    case NameField => a.(name := v)
    case MobileField => a.(mobile := v)
    case PincodeField => a.(pincode := v)
    case LocalityField => a.(locality := v)
    case AddressLineField => a.(address := v)
    case CityField => a.(city := v)
    case StateField => a.(state := v)
    case LandmarkField => a.(landmark := Some(v))
    case AltMobileField => a.(altMobile := Some(v))
  }

  /** The form's starting value: every text field empty, a home address. */
  const BlankAddress := ShippingAddress("", "", "", "", "", "", "", Some(""), Some(""), HomeAddress)

  /** A required field is filled when it is truthy, i.e. non-empty: a field of
      spaces counts as filled, since nothing trims it. */
  predicate Filled(a: ShippingAddress, f: AddressField) {
    FieldValue(a, f) != ""
  }

  /** The position of a field in the validator's list; the optional fields come
      after every required one. */
  function RequiredRank(f: AddressField): (n: nat)
    ensures f in RequiredFields ==> n < |RequiredFields| && RequiredFields[n] == f
    ensures f !in RequiredFields ==> n >= |RequiredFields|
  {
    match f
    case NameField => 0
    case MobileField => 1
    case PincodeField => 2
    case LocalityField => 3
    case AddressLineField => 4
    case CityField => 5
    case StateField => 6
    case LandmarkField => 7
    case AltMobileField => 8
  }

  function RankOf(f: AddressField): int {
    RequiredRank(f)
  }

  lemma RequiredFieldsRanked()
    ensures forall i, j :: 0 <= i < j < |RequiredFields| ==> RankOf(RequiredFields[i]) < RankOf(RequiredFields[j])
  {
    forall i, j | 0 <= i < j < |RequiredFields| ensures RankOf(RequiredFields[i]) < RankOf(RequiredFields[j]) {
      assert RequiredRank(RequiredFields[i]) == i && RequiredRank(RequiredFields[j]) == j;
    }
  }

  /** `requiredFields.filter(f => !address[f])`: the empty required fields, each
      once, in the validator's order. */
  function MissingFields(a: ShippingAddress): (r: seq<AddressField>)
    ensures forall f :: f in r <==> f in RequiredFields && !Filled(a, f)
    ensures forall i, j :: 0 <= i < j < |r| ==> RequiredRank(r[i]) < RequiredRank(r[j])
  {
    RequiredFieldsRanked();
    FilterKeepsAscending(RequiredFields, (f: AddressField) => !Filled(a, f), RankOf);
    Filter(RequiredFields, (f: AddressField) => !Filled(a, f))
  }

  /** What the address validator decides. */
  datatype AddressCheck = AddressOk | MissingRequired(fields: seq<AddressField>) | MobileTooShort

  /** `handleAddressConfirm`'s two checks in order: presence of every required
      field, then a mobile of at least ten characters (length only). */
  function CheckAddress(a: ShippingAddress): (r: AddressCheck)
    ensures r.AddressOk? <==> (forall f :: f in RequiredFields ==> Filled(a, f)) && |a.mobile| >= MinMobileLength
    ensures r.MissingRequired? <==> exists f :: f in RequiredFields && !Filled(a, f)
    ensures r.MissingRequired? ==> r.fields != [] && r.fields == MissingFields(a)
    ensures r.MobileTooShort? <==> (forall f :: f in RequiredFields ==> Filled(a, f)) && |a.mobile| < MinMobileLength
  {
    var missing := MissingFields(a);
    if |missing| > 0 then
      assert missing[0] in missing;
      MissingRequired(missing)
    else if |a.mobile| < MinMobileLength then
      MobileTooShort
    else
      AddressOk
  }

  /** The alert a rejected address raises. */
  function AddressAlert(c: AddressCheck): (r: Option<string>)
    ensures r.None? <==> c.AddressOk?
    ensures c.MobileTooShort? ==> r == Some(ShortMobileAlert)
    ensures c.MissingRequired? ==>
              (r.Some? && |MissingFieldsPrefix| <= |r.value|
               && r.value[..|MissingFieldsPrefix|] == MissingFieldsPrefix
               && r.value[|MissingFieldsPrefix|..] == Join(Map(c.fields, FieldKey), ", "))
  {
    match c
    case AddressOk => None
    case MissingRequired(fields) => Some(MissingFieldsPrefix + Join(Map(fields, FieldKey), ", "))
    case MobileTooShort => Some(ShortMobileAlert)
  }

  /** The wizard's state. */
  datatype Checkout = Checkout(step: Step, address: ShippingAddress, payment: Option<PaymentMethod>, submitting: bool)

  const Initial := Checkout(CartStep, BlankAddress, None, false)

  /** A state change together with the alert it raised, if any. */
  datatype Outcome = Outcome(state: Checkout, alert: Option<string>)

  /** `handleAddressConfirm`: on success the step becomes payment, otherwise the
      alert is raised and nothing changes. The address is never altered. */
  function ConfirmAddress(s: Checkout): (r: Outcome)
    ensures r.state.address == s.address && r.state.payment == s.payment && r.state.submitting == s.submitting
    ensures CheckAddress(s.address).AddressOk? ==> r.state.step == PaymentStep && r.alert.None?
    ensures !CheckAddress(s.address).AddressOk? ==> r.state == s && r.alert.Some?
    ensures !CheckAddress(s.address).AddressOk? ==> r.alert == AddressAlert(CheckAddress(s.address))
  {
    var c := CheckAddress(s.address);
    if c.AddressOk? then Outcome(s.(step := PaymentStep), None) else Outcome(s, AddressAlert(c))
  }

  /** What the page renders. */
  datatype Screen = EmptyCartScreen | CartScreen | AddressScreen | PaymentScreen

  /** An empty cart on the cart step shows the empty view instead of the wizard. */
  function ScreenOf(s: Checkout, items: seq<CartItem>): (v: Screen)
    ensures v == EmptyCartScreen <==> |items| == 0 && s.step == CartStep
    ensures v == CartScreen <==> |items| > 0 && s.step == CartStep
    ensures v == AddressScreen <==> s.step == AddressStep
    ensures v == PaymentScreen <==> s.step == PaymentStep
  {
    match s.step
    case CartStep => if |items| == 0 then EmptyCartScreen else CartScreen
    case AddressStep => AddressScreen
    case PaymentStep => PaymentScreen
  }

  /** Whether the control behind an event is on the screen: each button and input
      exists only on its own step, "Place order" only for a non-empty cart, and
      the address form has inputs for the required fields only. */
  predicate OnScreen(s: Checkout, items: seq<CartItem>, e: CheckoutEvent) {
    match e
    case PlaceOrder => s.step == CartStep && |items| > 0
    case BackToCart => s.step == AddressStep
    case EditAddress(f, _) => s.step == AddressStep && f in RequiredFields
    case ChooseAddressType(_) => s.step == AddressStep
    case Confirm => s.step == AddressStep
    case BackToAddress => s.step == PaymentStep
    case ChoosePayment(_) => s.step == PaymentStep
  }

  /** The buttons and inputs of the wizard; each exists only on its own screen. */
  datatype CheckoutEvent =
    | PlaceOrder
    | BackToCart
    | EditAddress(field: AddressField, value: string)
    | ChooseAddressType(kind: AddressType)
    | Confirm
    | BackToAddress
    | ChoosePayment(choice: PaymentMethod)

  /** One event against the current cart lines; an event whose control is not on
      the screen changes nothing. */
  function Dispatch(s: Checkout, items: seq<CartItem>, e: CheckoutEvent): (r: Outcome)
    ensures r.state.submitting == s.submitting
    ensures r.state.step == AddressStep && s.step == CartStep ==> e == PlaceOrder && |items| > 0
    ensures r.state.step == PaymentStep && s.step != PaymentStep ==>
              e == Confirm && s.step == AddressStep && CheckAddress(s.address).AddressOk?
    ensures r.state.step == CartStep && s.step != CartStep ==> e == BackToCart && s.step == AddressStep
    ensures r.state.address != s.address ==>
              s.step == AddressStep && ((e.EditAddress? && e.field in RequiredFields) || e.ChooseAddressType?)
    ensures r.state.payment != s.payment ==> s.step == PaymentStep && e.ChoosePayment?
    ensures r.alert.Some? ==> e == Confirm && s.step == AddressStep && !CheckAddress(s.address).AddressOk?
    ensures !OnScreen(s, items, e) ==> r == Outcome(s, None)
    ensures OnScreen(s, items, e) && e == PlaceOrder ==> r == Outcome(s.(step := AddressStep), None)
    ensures OnScreen(s, items, e) && e == BackToCart ==> r == Outcome(s.(step := CartStep), None)
    ensures OnScreen(s, items, e) && e.EditAddress? ==>
              r == Outcome(s.(address := SetAddressField(s.address, e.field, e.value)), None)
    ensures OnScreen(s, items, e) && e.ChooseAddressType? ==>
              r == Outcome(s.(address := s.address.(addressType := e.kind)), None)
    ensures OnScreen(s, items, e) && e == Confirm ==> r == ConfirmAddress(s)
    ensures OnScreen(s, items, e) && e == BackToAddress ==> r == Outcome(s.(step := AddressStep), None)
    ensures OnScreen(s, items, e) && e.ChoosePayment? ==> r == Outcome(s.(payment := Some(e.choice)), None)
  {
    match (ScreenOf(s, items), e)
    case (CartScreen, PlaceOrder) => Outcome(s.(step := AddressStep), None)
    case (AddressScreen, BackToCart) => Outcome(s.(step := CartStep), None)
    case (AddressScreen, EditAddress(f, v)) =>
      if f in RequiredFields then Outcome(s.(address := SetAddressField(s.address, f, v)), None) else Outcome(s, None)
    case (AddressScreen, ChooseAddressType(t)) => Outcome(s.(address := s.address.(addressType := t)), None)
    case (AddressScreen, Confirm) => ConfirmAddress(s)
    case (PaymentScreen, BackToAddress) => Outcome(s.(step := AddressStep), None)
    case (PaymentScreen, ChoosePayment(m)) => Outcome(s.(payment := Some(m)), None)
    case _ => Outcome(s, None)
  }

  /** An event together with the cart lines on screen when it happened. */
  datatype Moment = Moment(items: seq<CartItem>, event: CheckoutEvent)

  function Run(s: Checkout, moments: seq<Moment>): Checkout
    decreases |moments|
  {
    if |moments| == 0 then s
    else Run(Dispatch(s, moments[0].items, moments[0].event).state, moments[1..])
  }

  /** The wizard's invariant: the payment step is only ever shown for an address
      that passes the validator. */
  predicate Consistent(s: Checkout) {
    s.step == PaymentStep ==> CheckAddress(s.address).AddressOk?
  }

  lemma DispatchKeepsConsistent(s: Checkout, items: seq<CartItem>, e: CheckoutEvent)
    requires Consistent(s)
    ensures Consistent(Dispatch(s, items, e).state)
  {
    var r := Dispatch(s, items, e).state;
    if r.step == PaymentStep && s.step == PaymentStep {
      assert r.address == s.address;
    }
  }

  /** Every sequence of events from a consistent state (the initial one among
      them) keeps it consistent: the address form is not on the payment screen. */
  lemma {:induction false} RunKeepsConsistent(s: Checkout, moments: seq<Moment>)
    requires Consistent(s)
    ensures Consistent(Run(s, moments))
    decreases |moments|
  {
    if |moments| > 0 {
      var next := Dispatch(s, moments[0].items, moments[0].event).state;
      DispatchKeepsConsistent(s, moments[0].items, moments[0].event);
      RunKeepsConsistent(next, moments[1..]);
    }
  }

  /** The wizard starts consistent, so every run from the start stays so. */
  lemma InitialConsistent(moments: seq<Moment>)
    ensures Consistent(Initial)
    ensures Consistent(Run(Initial, moments))
  {
    RunKeepsConsistent(Initial, moments);
  }

  /** The form has no input for the landmark or the alternate mobile, so no run
      of events alters them: from the start both stay empty. */
  lemma {:induction false} OptionalFieldsKept(s: Checkout, moments: seq<Moment>)
    ensures FieldValue(Run(s, moments).address, LandmarkField) == FieldValue(s.address, LandmarkField)
    ensures FieldValue(Run(s, moments).address, AltMobileField) == FieldValue(s.address, AltMobileField)
    decreases |moments|
  {
    if |moments| > 0 {
      var next := Dispatch(s, moments[0].items, moments[0].event).state;
      assert FieldValue(next.address, LandmarkField) == FieldValue(s.address, LandmarkField)
          && FieldValue(next.address, AltMobileField) == FieldValue(s.address, AltMobileField) by {
        if next.address != s.address {
          assert LandmarkField !in RequiredFields && AltMobileField !in RequiredFields;
        }
      }
      OptionalFieldsKept(next, moments[1..]);
    }
  }

  /** Going back from payment to the address and on to the cart leaves the
      address and the payment choice as they were. */
  lemma BackAndForth(s: Checkout, items: seq<CartItem>)
    requires s.step == PaymentStep
    ensures var back := Dispatch(s, items, BackToAddress).state;
            var home := Dispatch(back, items, BackToCart).state;
            back.step == AddressStep && home.step == CartStep
            && home.address == s.address && home.payment == s.payment
  {
  }

  /** The record posted to the orders endpoint, one line per cart line. */
  datatype OrderLine = OrderLine(productId: string, name: string, price: int, quantity: int, image: Option<string>)

  datatype OrderPayload = OrderPayload(
    id: string,
    orderId: string,
    items: seq<OrderLine>,
    address: ShippingAddress,
    paymentMethod: PaymentMethod,
    totalAmount: int,
    status: string,
    createdAt: string)

  /** `item.images?.[0]`: undefined for an empty list. */
  function FirstImage(images: seq<string>): (r: Option<string>)
    ensures r.Some? <==> |images| > 0
    ensures r.Some? ==> r.value == images[0]
  {
    if |images| == 0 then None else Some(images[0])
  }

  /** The order record. `suffix` stands for the random part of the id and
      `createdAt` for the current time. */
  function BuildOrder(items: seq<CartItem>, address: ShippingAddress, choice: PaymentMethod,
                      totalAmount: int, suffix: string, createdAt: string): (o: OrderPayload)
    ensures |o.id| >= |OrderIdPrefix| && o.id[..|OrderIdPrefix|] == OrderIdPrefix
    ensures o.orderId == o.id
    ensures o.totalAmount == totalAmount + HandlingFee && o.status == OrderedStatus
    ensures o.address == address && o.paymentMethod == choice
    ensures |o.items| == |items|
    ensures forall k :: 0 <= k < |items| ==>
              o.items[k].productId == items[k].product.id && o.items[k].name == items[k].product.name
              && o.items[k].price == items[k].product.price && o.items[k].quantity == items[k].quantity
              && o.items[k].image == FirstImage(items[k].product.images)
  {
    var id := OrderIdPrefix + suffix;
    var lines := Map(items, (i: CartItem) => OrderLine(i.product.id, i.product.name, i.product.price, i.quantity, FirstImage(i.product.images)));
    OrderPayload(id, id, lines, address, choice, totalAmount + HandlingFee, OrderedStatus, createdAt)
  }

  /** `/order-tracking/<id>` */
  function TrackingRoute(id: string): string {
    OrderTrackingPage.RoutePrefix + id
  }

  /** The alert shown when the backend did not take the order. */
  function SyncWarning(reason: string, id: string): string {
    "Note: We couldn't sync with the database (" + reason + "). Your order has been placed locally. Tracking ID: " + id
  }

  /** Everything `handleFinalOrder` does: the record it posts (if any), the calls
      into the cart store and router, the order handed to the tracking page as
      router state, and the alert it raises. */
  datatype FinalResult = FinalResult(
    state: Checkout,
    posted: Option<OrderPayload>,
    effects: seq<Effect>,
    tracked: Option<TrackedOrder>,
    alert: Option<string>)

  /** `handleFinalOrder`, with `call` the settled `createOrder` request and
      `protocol` the page's protocol for the error text. Without a payment method
      nothing is posted and nothing changes; otherwise the order is posted and,
      whatever the backend answers, the cart is cleared and the tracking page opened. */
  function FinalOrder(s: Checkout, items: seq<CartItem>, totalAmount: int, suffix: string,
                      createdAt: string, call: Settled<()>, protocol: string): (r: FinalResult)
    ensures s.payment.None? ==>
              r.state == s && r.posted.None? && r.effects == [] && r.tracked.None? && r.alert == Some(NoPaymentAlert)
    ensures s.payment.Some? ==>
              (r.posted.Some? && !r.state.submitting
               && r.state.step == s.step && r.state.address == s.address && r.state.payment == s.payment)
    ensures s.payment.Some? ==> var o := r.posted.value;
              o.address == s.address && o.paymentMethod == s.payment.value
              && o.totalAmount == totalAmount + HandlingFee && |o.items| == |items|
              && r.effects == [ClearCart, NavigateTo(TrackingRoute(o.id))]
              && r.tracked == Some(TrackedOrder(o.id, s.address, totalAmount + HandlingFee, items))
    ensures s.payment.Some? ==>
              r.posted == Some(BuildOrder(items, s.address, s.payment.value, totalAmount, suffix, createdAt))
    ensures s.payment.Some? ==> (r.alert.None? <==> call.Resolved?)
    ensures s.payment.Some? && call.Rejected? ==>
              r.alert == Some(SyncWarning(HandleApiError(call.error, protocol), r.posted.value.id))
  {
    match s.payment
    case None => FinalResult(s, None, [], None, Some(NoPaymentAlert))
    case Some(choice) =>
      var o := BuildOrder(items, s.address, choice, totalAmount, suffix, createdAt);
      var effects := [ClearCart, NavigateTo(TrackingRoute(o.id))];
      var tracked := Some(TrackedOrder(o.id, s.address, totalAmount + HandlingFee, items));
      var alert := match call
        case Resolved(_) => None
        case Rejected(e) => Some(SyncWarning(HandleApiError(e, protocol), o.id));
      FinalResult(s.(submitting := false), Some(o), effects, tracked, alert)
  }

  /** The checkout degrades to success: a failed `createOrder` ends in the same
      state, the same record, the same cart and router calls and the same
      tracking-page order as an accepted one; only the alert differs. */
  lemma DegradesToSuccess(s: Checkout, items: seq<CartItem>, totalAmount: int, suffix: string,
                          createdAt: string, accepted: Settled<()>, failed: Settled<()>, protocol: string)
    requires accepted.Resolved? && failed.Rejected?
    ensures var a := FinalOrder(s, items, totalAmount, suffix, createdAt, accepted, protocol);
            var b := FinalOrder(s, items, totalAmount, suffix, createdAt, failed, protocol);
            a.state == b.state && a.posted == b.posted && a.effects == b.effects && a.tracked == b.tracked
            && (s.payment.Some? ==> a.alert.None? && b.alert.Some?)
  {
  }

  /** The route the order navigates to names the posted order's id, and the
      tracking page, given the router state, shows that id and the order's total. */
  lemma {:induction false} TrackingPageShowsOrder(s: Checkout, items: seq<CartItem>, totalAmount: int, suffix: string,
                                 createdAt: string, call: Settled<()>, protocol: string, elapsed: nat)
    requires s.payment.Some? && '/' !in suffix
    ensures var r := FinalOrder(s, items, totalAmount, suffix, createdAt, call, protocol);
            var id := r.posted.value.id;
            OrderTrackingPage.RouteParam(r.effects[1].path) == Some(id)
            && var v := OrderTrackingPage.Render(id, r.tracked, elapsed);
            v.Tracker? && v.orderId == r.posted.value.orderId && v.order.total == r.posted.value.totalAmount
  {
    var r := FinalOrder(s, items, totalAmount, suffix, createdAt, call, protocol);
    var id := r.posted.value.id;
    assert id == OrderIdPrefix + suffix;
    OrderTrackingPage.RouteParamOfRoute(id);
  }
}
