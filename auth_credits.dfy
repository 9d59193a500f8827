/** The paid-order webhook of the authentication setup
    (frontend/src/lib/auth.ts): which product an order is for, how many
    credits it is worth, and which user receives them. */
module AuthCredits {
  import opened Base

  /** A JavaScript value of the webhook payload. */
  datatype Json =
    | Undefined
    | Null
    | Str(s: string)
    | Num(n: int)
    | Bool(b: bool)
    | Arr(items: seq<Json>)
    | Obj(fields: map<string, Json>)

  /** JavaScript truthiness. */
  predicate JsTruthy(v: Json) {
    match v
    case Undefined => false
    case Null => false
    case Str(s) => s != ""
    case Num(n) => n != 0
    case Bool(b) => b
    case Arr(_) => true
    case Obj(_) => true
  }

  /** `v?.key`: a missing property, or any property of a non-object, is
      undefined. */
  function Get(v: Json, key: string): Json {
    if v.Obj? && key in v.fields then v.fields[key] else Undefined
  }

  /** `v?.[0]`: an array's first item, a string's first character, or an
      object's property "0"; anything else yields undefined. */
  function First(v: Json): Json {
    if v.Arr? && |v.items| > 0 then v.items[0]
    else if v.Str? && |v.s| > 0 then Str([v.s[0]])
    else if v.Obj? && "0" in v.fields then v.fields["0"]
    else Undefined
  }

  /** `a || b`: the first operand when truthy, otherwise the second. */
  function Or(a: Json, b: Json): (r: Json)
    ensures JsTruthy(r) <==> JsTruthy(a) || JsTruthy(b)
    ensures JsTruthy(a) ==> r == a
  {
    if JsTruthy(a) then a else b
  }

  /** `d.customer?.externalId || d.customer?.external_id`. */
  function CustomerId(d: Json): Json {
    Or(Get(Get(d, "customer"), "externalId"), Get(Get(d, "customer"), "external_id"))
  }

  /** The eight places on the payload itself a product id may be found, in
      the order they are tried. */
  function TopLevelCandidates(d: Json): (c: seq<Json>)
    ensures |c| == 8
  {
    [ Get(d, "productId"),
      Get(d, "product_id"),
      Get(Get(d, "product"), "id"),
      Get(Get(d, "product"), "product_id"),
      Get(Get(d, "productPrice"), "productId"),
      Get(Get(d, "productPrice"), "product_id"),
      Get(d, "productPriceId"),
      Get(d, "product_price_id") ]
  }

  /** The three places on the first order item, in the order they are tried. */
  function OrderItemCandidates(d: Json): (c: seq<Json>)
    ensures |c| == 3
  {
    var item := First(Get(d, "orderItems"));
    [ Get(item, "productId"),
      Get(item, "product_id"),
      Get(Get(item, "product"), "id") ]
  }

  /** The last resort: `product_id` of the first entry of `items`. */
  function ItemsCandidate(d: Json): Json {
    Get(First(Get(d, "items")), "product_id")
  }

  /** The twelve places a product id may be found, in the order they are
      tried: the payload, the first order item, the first item. */
  function Candidates(d: Json): (c: seq<Json>)
    ensures |c| == 12
  {
    TopLevelCandidates(d) + OrderItemCandidates(d) + [ItemsCandidate(d)]
  }

  /** `find(v => typeof v === "string")`: the first string, empty or not. */
  function FirstString(vs: seq<Json>): (r: Option<string>)
    ensures r.Some? ==>
      exists i :: 0 <= i < |vs| && vs[i] == Str(r.value) && (forall j :: 0 <= j < i ==> !vs[j].Str?)
    ensures r.None? ==> forall i :: 0 <= i < |vs| ==> !vs[i].Str?
    decreases |vs|
  {
    if vs == [] then None
    else if vs[0].Str? then Some(vs[0].s)
    else
      var r := FirstString(vs[1..]);
      assert r.Some? ==> exists i :: 0 <= i < |vs[1..]| && vs[1..][i] == Str(r.value) &&
                                     (forall j :: 0 <= j < i ==> !vs[1..][j].Str?);
      r
  }

  /** The product ids the checkout offers, with their slugs. */
  const SmallProduct := "d081fc91-8d55-43a3-bb57-d3b39f934b02"
  const MediumProduct := "e223246e-7573-433c-a59f-ff4aff8647f7"
  const LargeProduct := "bbd28aea-a6c2-4f44-a092-a48ef32f3dc9"
  const CheckoutProducts: seq<(string, string)> :=
    [(SmallProduct, "small"), (MediumProduct, "medium"), (LargeProduct, "large")]

  /** The credit `switch`: 10, 25 or 50 for the three products, 0 otherwise. */
  function CreditsFor(productId: Option<string>): (n: nat)
    ensures n in {0, 10, 25, 50}
  {
    if productId == Some(SmallProduct) then 10
    else if productId == Some(MediumProduct) then 25
    else if productId == Some(LargeProduct) then 50
    else 0
  }

  /** Exactly the checkout's products are worth credits: each one a
      positive amount, and nothing else anything. */
  lemma CreditsExactlyForCheckoutProducts(productId: Option<string>)
    ensures CreditsFor(productId) > 0 <==>
      productId.Some? && exists i :: 0 <= i < |CheckoutProducts| && CheckoutProducts[i].0 == productId.value
    ensures CreditsFor(Some(SmallProduct)) == 10 && CreditsFor(Some(MediumProduct)) == 25 &&
      CreditsFor(Some(LargeProduct)) == 50
  {
    if CreditsFor(productId) > 0 {
      var i := if productId == Some(SmallProduct) then 0 else if productId == Some(MediumProduct) then 1 else 2;
      assert CheckoutProducts[i].0 == productId.value;
    }
  }

  /** The product an order is for. */
  function ProductId(d: Json): Option<string> {
    FirstString(Candidates(d))
  }

  /** A string `productId` at the top level decides the product, even an
      empty one, whatever the other candidates hold. */
  lemma TopLevelProductIdWins(d: Json)
    requires Get(d, "productId").Str?
    ensures ProductId(d) == Some(Get(d, "productId").s)
  {
  }

  /** The first string of a concatenation is the first part's, if it has
      one, and the second part's otherwise. */
  lemma {:induction false} FirstStringAppend(a: seq<Json>, b: seq<Json>)
    ensures FirstString(a + b) == if FirstString(a).Some? then FirstString(a) else FirstString(b)
    decreases |a|
  {
    if a == [] {
      assert a + b == b;
    } else if !a[0].Str? {
      assert (a + b)[1..] == a[1..] + b;
      FirstStringAppend(a[1..], b);
    }
  }

  /** The groups are tried in order: any string on the payload itself decides
      the product; the first order item is looked at only when the payload
      has none; and `items[0].product_id` only when neither has one. */
  lemma ProductIdPrecedence(d: Json)
    ensures FirstString(TopLevelCandidates(d)).Some? ==>
      ProductId(d) == FirstString(TopLevelCandidates(d))
    ensures FirstString(TopLevelCandidates(d)).None? && FirstString(OrderItemCandidates(d)).Some? ==>
      ProductId(d) == FirstString(OrderItemCandidates(d))
    ensures FirstString(TopLevelCandidates(d)).None? && FirstString(OrderItemCandidates(d)).None? ==>
      ProductId(d) == if ItemsCandidate(d).Str? then Some(ItemsCandidate(d).s) else None
  {
    var top, order, items := TopLevelCandidates(d), OrderItemCandidates(d), [ItemsCandidate(d)];
    FirstStringAppend(top + order, items);
    FirstStringAppend(top, order);
  }

  /** A user row: optional email and credit balance. */
  datatype UserRow = UserRow(email: Option<string>, credits: int)

  /** The email column is unique. */
  ghost predicate UniqueEmails(users: map<string, UserRow>) {
    forall a, b :: a in users && b in users && users[a].email.Some? && users[a].email == users[b].email ==> a == b
  }

  /** The user whose email is `email`, if any. */
  function UserWithEmail(users: map<string, UserRow>, email: string): (r: Option<string>)
    requires UniqueEmails(users)
    ensures r.Some? ==> r.value in users && users[r.value].email == Some(email)
    ensures r.None? ==> forall id :: id in users ==> users[id].email != Some(email)
  {
    if exists id :: id in users && users[id].email == Some(email) then
      var id :| id in users && users[id].email == Some(email);
      Some(id)
    else None
  }

  /** `update({ where: { id }, data: { credits: { increment } } })` succeeds
      only for a string id of an existing user. */
  predicate IdUpdateSucceeds(users: map<string, UserRow>, id: Json) {
    id.Str? && id.s in users
  }

  /** The user `onOrderPaid` credits, if any: by customer id, else by
      email when the id update fails. */
  function CreditedUser(users: map<string, UserRow>, d: Json): (target: Option<string>)
    requires UniqueEmails(users)
    ensures target.Some? ==> target.value in users
  {
    var customerId := CustomerId(d);
    var email := Get(Get(d, "customer"), "email");
    if !JsTruthy(customerId) || CreditsFor(ProductId(d)) == 0 then None
    else if IdUpdateSucceeds(users, customerId) then Some(customerId.s)
    else if JsTruthy(email) && email.Str? then UserWithEmail(users, email.s)
    else None
  }

  /** The balance of `id` raised by `amount`. */
  function Credited(users: map<string, UserRow>, id: string, amount: int): map<string, UserRow>
    requires id in users
  {
    users[id := users[id].(credits := users[id].credits + amount)]
  }

  /** The user table after `onOrderPaid`. */
  function AfterOrderPaid(users: map<string, UserRow>, d: Json): map<string, UserRow>
    requires UniqueEmails(users)
  {
    var target := CreditedUser(users, d);
    if target.Some? then Credited(users, target.value, CreditsFor(ProductId(d))) else users
  }

  /** At most one user is credited, by exactly the order's amount; every
      other row, and every email, is unchanged. */
  lemma OrderPaidCreditsOneUser(users: map<string, UserRow>, d: Json)
    requires UniqueEmails(users)
    ensures var after := AfterOrderPaid(users, d);
      after.Keys == users.Keys &&
      UniqueEmails(after) &&
      (forall id :: id in users && Some(id) != CreditedUser(users, d) ==> after[id] == users[id]) &&
      (forall id :: id in users ==> after[id].email == users[id].email) &&
      (CreditedUser(users, d).Some? ==>
        var t := CreditedUser(users, d).value;
        after[t].credits == users[t].credits + CreditsFor(ProductId(d)) && CreditsFor(ProductId(d)) > 0)
  {
    var after := AfterOrderPaid(users, d);
    assert forall id :: id in users ==> after[id].email == users[id].email;
  }

  /** No credits are granted without a customer id, for an order worth
      nothing, or when neither the id nor the email finds a user. */
  lemma OrderPaidNoGrantCases(users: map<string, UserRow>, d: Json)
    requires UniqueEmails(users)
    ensures !JsTruthy(CustomerId(d)) ==> AfterOrderPaid(users, d) == users
    ensures CreditsFor(ProductId(d)) == 0 ==> AfterOrderPaid(users, d) == users
    ensures !IdUpdateSucceeds(users, CustomerId(d)) && !JsTruthy(Get(Get(d, "customer"), "email")) ==>
      AfterOrderPaid(users, d) == users
  {
  }

  /** The id is tried first: when it names a user the email plays no part;
      the email is used only when the id update fails. */
  lemma OrderPaidIdBeforeEmail(users: map<string, UserRow>, d: Json)
    requires UniqueEmails(users)
    requires JsTruthy(CustomerId(d)) && CreditsFor(ProductId(d)) > 0
    ensures IdUpdateSucceeds(users, CustomerId(d)) ==> CreditedUser(users, d) == Some(CustomerId(d).s)
    ensures !IdUpdateSucceeds(users, CustomerId(d)) && CreditedUser(users, d).Some? ==>
      Get(Get(d, "customer"), "email").Str? &&
      users[CreditedUser(users, d).value].email == Some(Get(Get(d, "customer"), "email").s)
  {
  }

  /** The user table the webhook writes to. */
  class UserTable {
    var users: map<string, UserRow>

    ghost predicate Valid()
      reads this
    {
      UniqueEmails(users)
    }

    constructor (users: map<string, UserRow>)
      requires UniqueEmails(users)
      ensures Valid() && this.users == users
    {
      this.users := users;
    }

    /** The update by id; false when it throws (no such user, or an id that
        is not a string). */
    method IncrementById(id: Json, amount: int) returns (ok: bool)
      requires Valid()
      modifies this`users
      ensures Valid()
      ensures ok == IdUpdateSucceeds(old(users), id)
      ensures ok ==> users == Credited(old(users), id.s, amount)
      ensures !ok ==> users == old(users)
    {
      if !(id.Str? && id.s in users) {
        return false;
      }
      users := Credited(users, id.s, amount);
      assert forall x :: x in users ==> users[x].email == old(users)[x].email;
      ok := true;
    }

    /** The update by email; false when it throws (no such user, or an
        email that is not a string). */
    method IncrementByEmail(email: Json, amount: int) returns (ok: bool)
      requires Valid()
      modifies this`users
      ensures Valid()
      ensures ok == (email.Str? && UserWithEmail(old(users), email.s).Some?)
      ensures ok ==> users == Credited(old(users), UserWithEmail(old(users), email.s).value, amount)
      ensures !ok ==> users == old(users)
    {
      if !email.Str? {
        return false;
      }
      var target := UserWithEmail(users, email.s);
      if target.None? {
        return false;
      }
      users := Credited(users, target.value, amount);
      assert forall x :: x in users ==> users[x].email == old(users)[x].email;
      ok := true;
    }

    /** `onOrderPaid`: every failure is caught, so the handler always
        returns; its only effect is the credit grant. */
    method OnOrderPaid(d: Json)
      requires Valid()
      modifies this`users
      ensures Valid()
      ensures users == AfterOrderPaid(old(users), d)
    {
      var customerId := CustomerId(d);
      if !JsTruthy(customerId) {
        return;
      }
      var amount := CreditsFor(ProductId(d));
      if amount == 0 {
        return;
      }
      var byId := IncrementById(customerId, amount);
      if !byId {
        var email := Get(Get(d, "customer"), "email");
        if JsTruthy(email) {
          var byEmail := IncrementByEmail(email, amount);
        }
      }
    }
  }
}
