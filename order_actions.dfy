/** The order server actions: the order form's schema, the cents conversion and
    creation date they compute, their single-row writes to the orders table, and the
    error mapping of the sign-in action. */
module OrderActions {
  import opened Wrappers
  import opened Definitions
  import opened Forms

  /** The fields createOrder and updateOrder read from the submitted form. */
  datatype OrderForm = OrderForm(customerId: Field<string>, amount: Field<real>, status: Field<string>)

  /** What the schema hands on once the form is valid: the amount still in dollars. */
  datatype OrderInput = OrderInput(customerId: string, amount: real, status: OrderStatus)

  /** `z.enum(['pending', 'paid'])`. */
  function StatusOfText(s: string): (r: Option<OrderStatus>)
    ensures r.Some? <==> s == "pending" || s == "paid"
    ensures r.Some? ==> OrderStatusText(r.value) == s
  {
    if s == "pending" then Some(Pending) else if s == "paid" then Some(Paid) else None
  }

  function StatusField(f: Field<string>): Option<OrderStatus>
  {
    if f.Given? then StatusOfText(f.value) else None
  }

  /** The fields that fail CreateOrder / UpdateOrder (the schema without id and date),
      in the schema's order. */
  function OrderFieldErrors(form: OrderForm): seq<string>
  {
    (if AsString(form.customerId).None? then ["customerId"] else [])
    + (if !NumberAbove(form.amount, 0.0) then ["amount"] else [])
    + (if StatusField(form.status).None? then ["status"] else [])
  }

  /** `CreateOrder.safeParse` (UpdateOrder is the same schema). */
  function ValidateOrder(form: OrderForm): (r: Result<OrderInput, seq<string>>)
    ensures r.Success? <==>
      && AsString(form.customerId).Some?
      && NumberAbove(form.amount, 0.0)
      && (form.status == Given("pending") || form.status == Given("paid"))
    ensures r.Success? ==>
      && form.customerId == Given(r.value.customerId)
      && CoerceNumber(form.amount) == Some(r.value.amount)
      && r.value.amount > 0.0
      && form.status == Given(OrderStatusText(r.value.status))
    ensures r.Failure? ==>
      && r.error != []
      && ("customerId" in r.error <==> !form.customerId.Given?)
      && ("amount" in r.error <==> !NumberAbove(form.amount, 0.0))
      && ("status" in r.error <==> StatusField(form.status).None?)
      && (forall n :: n in r.error ==> n == "customerId" || n == "amount" || n == "status")
  {
    var errs := OrderFieldErrors(form);
    if errs == [] then
      Success(OrderInput(form.customerId.value, CoerceNumber(form.amount).value, StatusField(form.status).value))
    else
      Failure(errs)
  }

  /** The order form of the dashboard submits no `amount` field, and `Number(null)` is
      0, so every order it submits fails the schema on the amount. */
  lemma FormWithoutAmountIsRejected(customerId: Field<string>, status: Field<string>)
    ensures ValidateOrder(OrderForm(customerId, Missing, status)).Failure?
    ensures "amount" in ValidateOrder(OrderForm(customerId, Missing, status)).error
  {
  }

  /** `amount * 100`: the dollar amount the form holds, as the cents the table stores. */
  function AmountInCents(amount: real): (cents: real)
    ensures cents / 100.0 == amount
    ensures cents > 0.0 <==> amount > 0.0
  {
    amount * 100.0
  }

  /** `iso.split('T')[0]`: the text before the first `T`, or all of it when there is none. */
  function CreationDate(iso: string): (d: string)
    ensures 'T' !in d
    ensures d <= iso
    ensures |d| < |iso| ==> iso[|d|] == 'T'
  {
    if iso == [] || iso[0] == 'T' then [] else [iso[0]] + CreationDate(iso[1..])
  }

  /** On an ISO timestamp (`YYYY-MM-DDTHH:mm:ss.sssZ`) the creation date is its date part. */
  lemma {:induction false} CreationDateOfTimestamp(date: string, time: string)
    requires 'T' !in date
    ensures CreationDate(date + "T" + time) == date
  {
    if date != [] {
      assert (date + "T" + time)[1..] == date[1..] + "T" + time;
      CreationDateOfTimestamp(date[1..], time);
    } else {
      assert (date + "T" + time)[0] == 'T';
    }
  }

  /** The row createOrder inserts; `newId` is the key the table's default generates. */
  function NewOrder(newId: string, input: OrderInput, nowIso: string): Order
  {
    Order(newId, input.customerId, AmountInCents(input.amount), CreationDate(nowIso), input.status)
  }

  /** What createOrder stores for a valid form: the customer and status it gave, a
      strictly positive amount that is its dollar amount in cents, and a date without
      the time part. */
  lemma CreatedOrderFacts(form: OrderForm, newId: string, nowIso: string)
    requires ValidateOrder(form).Success?
    ensures var o := NewOrder(newId, ValidateOrder(form).value, nowIso);
      && o.id == newId
      && form.customerId == Given(o.customer_id)
      && o.amount > 0.0
      && CoerceNumber(form.amount) == Some(o.amount / 100.0)
      && form.status == Given(OrderStatusText(o.status))
      && 'T' !in o.date
  {
  }

  /** The row as updateOrder's `UPDATE ... SET customer_id, amount, status` leaves it. */
  function Revised(o: Order, input: OrderInput): (r: Order)
    ensures r.id == o.id && r.date == o.date
    ensures r.customer_id == input.customerId && r.status == input.status
    ensures r.amount / 100.0 == input.amount
  {
    o.(customer_id := input.customerId, amount := AmountInCents(input.amount), status := input.status)
  }

  /** The orders table, keyed by id, as the three order actions change it. Each write
      is one statement, which the database may fail; the model chooses that outcome
      nondeterministically. */
  class OrdersTable {
    var rows: map<string, Order>

    ghost predicate Valid()
      reads this
    {
      forall id :: id in rows ==> rows[id].id == id
    }

    constructor (initial: map<string, Order>)
      requires forall id :: id in initial ==> initial[id].id == id
      ensures Valid() && rows == initial
    {
      rows := initial;
    }

    /** createOrder. */
    method CreateOrder(form: OrderForm, nowIso: string, newId: string) returns (r: ActionState)
      requires Valid()
      requires newId !in rows
      modifies this
      ensures Valid()
      ensures ValidateOrder(form).Failure? ==>
        && r == FieldErrors(ValidateOrder(form).error, "Missing Fields. Failed to Create Order.")
        && rows == old(rows)
      ensures ValidateOrder(form).Success? ==>
        || (&& r == Redirect("/dashboard/orders")
            && rows == old(rows)[newId := NewOrder(newId, ValidateOrder(form).value, nowIso)])
        || (r == Message("Database Error: Failed to Create Order.") && rows == old(rows))
    {
      var v := ValidateOrder(form);
      if v.Failure? {
        return FieldErrors(v.error, "Missing Fields. Failed to Create Order.");
      }
      var order := NewOrder(newId, v.value, nowIso);
      var fails: bool := *;
      if fails {
        return Message("Database Error: Failed to Create Order.");
      }
      rows := rows[newId := order];
      r := Redirect("/dashboard/orders");
    }

    /** updateOrder: `UPDATE orders ... WHERE id = id`, which changes no row when the id is unknown. */
    method UpdateOrder(id: string, form: OrderForm) returns (r: ActionState)
      requires Valid()
      modifies this
      ensures Valid()
      ensures ValidateOrder(form).Failure? ==>
        && r == FieldErrors(ValidateOrder(form).error, "Missing Fields. Failed to Update Order.")
        && rows == old(rows)
      ensures ValidateOrder(form).Success? ==>
        || (&& r == Redirect("/dashboard/orders")
            && rows == (if id in old(rows) then old(rows)[id := Revised(old(rows)[id], ValidateOrder(form).value)]
                        else old(rows)))
        || (r == Message("Database Error: Failed to Update Order.") && rows == old(rows))
      ensures rows.Keys == old(rows).Keys
      ensures forall k :: k in rows && k != id ==> rows[k] == old(rows)[k]
      ensures id in rows ==> rows[id].date == old(rows)[id].date
    {
      var v := ValidateOrder(form);
      if v.Failure? {
        return FieldErrors(v.error, "Missing Fields. Failed to Update Order.");
      }
      var fails: bool := *;
      if fails {
        return Message("Database Error: Failed to Update Order.");
      }
      if id in rows {
        rows := rows[id := Revised(rows[id], v.value)];
      }
      r := Redirect("/dashboard/orders");
    }

    /** deleteOrder. */
    method DeleteOrder(id: string) returns (r: ActionState)
      requires Valid()
      modifies this
      ensures Valid()
      ensures || (r == Message("Deleted Order.") && rows == old(rows) - {id})
              || (r == Message("Database Error: Failed to Delete Order.") && rows == old(rows))
    {
      var fails: bool := *;
      if fails {
        return Message("Database Error: Failed to Delete Order.");
      }
      rows := rows - {id};
      r := Message("Deleted Order.");
    }
  }

  /** What `signIn` may throw: next-auth's AuthError with its `type`, or anything else. */
  datatype SignInError = AuthError(errorType: string) | OtherError(description: string)

  datatype SignInOutcome = SignedIn | SignInThrew(error: SignInError)

  /** authenticate either returns (a message, or nothing) or rethrows. */
  datatype AuthenticateOutcome = Returns(message: Option<string>) | Rethrows(error: SignInError)

  /** authenticate, given how the call to `signIn` ended. */
  function Authenticate(outcome: SignInOutcome): (r: AuthenticateOutcome)
    ensures outcome == SignedIn ==> r == Returns(None)
    ensures r == Returns(Some("Invalid credentials.")) <==> outcome == SignInThrew(AuthError("CredentialsSignin"))
    ensures r == Returns(Some("Something went wrong.")) <==>
      outcome.SignInThrew? && outcome.error.AuthError? && outcome.error.errorType != "CredentialsSignin"
    ensures r.Rethrows? <==> outcome.SignInThrew? && outcome.error.OtherError?
    ensures r.Rethrows? ==> r.error == outcome.error
  {
    match outcome
    case SignedIn => Returns(None)
    case SignInThrew(AuthError(t)) =>
      if t == "CredentialsSignin" then Returns(Some("Invalid credentials.")) else Returns(Some("Something went wrong."))
    case SignInThrew(e) => Rethrows(e)
  }
}
