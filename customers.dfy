/** The customer entity, the requests that create and change it, and the rules the
    service applies to the customer table (`backend/.../customer/CustomerService.java`).
    The table is the DAO's view of the database: customer id to row. */
module Customers {
  import opened Wrappers

  datatype Gender = Male | Female

  /** A row of the customer table. */
  datatype Customer = Customer(
    id: int,
    name: string,
    email: string,
    password: string,
    age: int,
    gender: Gender,
    profileImageId: Option<string>)

  /** The outward projection of a customer: everything but the password hash. */
  datatype CustomerDto = CustomerDto(
    id: int,
    name: string,
    email: string,
    gender: Gender,
    age: int,
    profileImageId: Option<string>)

  datatype RegistrationRequest = RegistrationRequest(
    name: string,
    email: string,
    password: string,
    age: int,
    gender: Gender)

  /** A partial update: `None` stands for a null field, meaning "leave as is". */
  datatype UpdateRequest = UpdateRequest(
    name: Option<string>,
    email: Option<string>,
    age: Option<int>)

  datatype Missing = MissingCustomer | MissingProfileImage

  /** The exceptions the service throws: `ResourceNotFoundException`,
      `DuplicateResourceException`, `RequestValidationException`, and the runtime
      failure of a storage transfer. */
  datatype Error =
    | ResourceNotFound(missing: Missing)
    | DuplicateResource
    | RequestValidation
    | TransferFailure

  type Table = map<int, Customer>

  /** `customerDTOMapper`: every field but the password. */
  function ToDto(c: Customer): (d: CustomerDto)
    ensures d.id == c.id && d.name == c.name && d.email == c.email
    ensures d.gender == c.gender && d.age == c.age && d.profileImageId == c.profileImageId
  {
    CustomerDto(c.id, c.name, c.email, c.gender, c.age, c.profileImageId)
  }

  /** Two customers have the same projection exactly when they differ at most in the password. */
  lemma ToDtoForgetsOnlyPassword(c1: Customer, c2: Customer)
    ensures ToDto(c1) == ToDto(c2) <==> c1.(password := c2.password) == c2
  {
  }

  /** Every row is stored under its own id. */
  ghost predicate KeysAreIds(t: Table) {
    forall id :: id in t ==> t[id].id == id
  }

  /** `existsCustomerWithEmail`. */
  predicate EmailHeld(t: Table, email: string) {
    exists id :: id in t && t[id].email == email
  }

  /** The table's invariant: no two customers share an email. */
  ghost predicate UniqueEmails(t: Table) {
    forall a, b :: a in t && b in t && t[a].email == t[b].email ==> a == b
  }

  ghost predicate WellFormed(t: Table) {
    KeysAreIds(t) && UniqueEmails(t)
  }

  /** Every row except `id` is present and unchanged in `t'`. */
  ghost predicate OthersUnchanged(t: Table, t': Table, id: int) {
    forall other :: other in t && other != id ==> other in t' && t'[other] == t[other]
  }

  /** The projections of all rows, as `getAllCustomers` returns them. */
  function AllDtos(t: Table): set<CustomerDto> {
    set id | id in t :: ToDto(t[id])
  }

  /** Removing one row removes exactly its projection from the listing. */
  lemma AllDtosWithout(t: Table, k: int)
    requires KeysAreIds(t) && k in t
    ensures AllDtos(t) == AllDtos(t - {k}) + {ToDto(t[k])}
    ensures ToDto(t[k]) !in AllDtos(t - {k})
  {
    var rest := t - {k};
    forall d | d in AllDtos(t) ensures d in AllDtos(rest) + {ToDto(t[k])} {
      var id :| id in t && d == ToDto(t[id]);
      if id != k { assert id in rest; }
    }
  }

  /** Listing the customers yields one projection per row: none is lost or merged. */
  lemma {:induction false} AllDtosSize(t: Table)
    requires KeysAreIds(t)
    ensures |AllDtos(t)| == |t|
    decreases |t|
  {
    if exists k :: k in t {
      var k :| k in t;
      var rest := t - {k};
      assert rest.Keys == t.Keys - {k};
      AllDtosSize(rest);
      AllDtosWithout(t, k);
    } else {
      assert t == map[];
    }
  }

  /** `addCustomer`, with `newId` the id the database assigns to the inserted row. */
  function Register(t: Table, newId: int, req: RegistrationRequest, encode: string -> string)
    : (r: Result<Table, Error>)
    ensures r.Failure? <==> EmailHeld(t, req.email)
    ensures r.Failure? ==> r.error == DuplicateResource
    ensures r.Success? ==> r.value.Keys == t.Keys + {newId} && OthersUnchanged(t, r.value, newId)
    ensures r.Success? ==> var c := r.value[newId];
      && c.id == newId && c.name == req.name && c.email == req.email && c.age == req.age
      && c.gender == req.gender && c.password == encode(req.password) && c.profileImageId == None
    ensures r.Success? && newId !in t ==> |r.value| == |t| + 1
    ensures r.Success? && newId !in t && WellFormed(t) ==> WellFormed(r.value)
  {
    if EmailHeld(t, req.email) then
      Failure(DuplicateResource)
    else
      var customer := Customer(newId, req.name, req.email, encode(req.password), req.age, req.gender, None);
      Success(t[newId := customer])
  }

  /** `deleteCustomerById`. */
  function Delete(t: Table, id: int): (r: Result<Table, Error>)
    ensures r.Failure? <==> id !in t
    ensures r.Failure? ==> r.error == ResourceNotFound(MissingCustomer)
    ensures r.Success? ==> r.value.Keys == t.Keys - {id} && OthersUnchanged(t, r.value, id)
    ensures r.Success? ==> |r.value| == |t| - 1
    ensures r.Success? && WellFormed(t) ==> WellFormed(r.value)
  {
    if id !in t then
      Failure(ResourceNotFound(MissingCustomer))
    else
      Success(t - {id})
  }

  /** The new email is non-null and not the customer's own. */
  predicate EmailChanges(c: Customer, req: UpdateRequest) {
    req.email.Some? && req.email.value != c.email
  }

  /** Every request field is null or equal to the current value. */
  predicate NoEffectiveChange(c: Customer, req: UpdateRequest) {
    && (req.name.None? || req.name.value == c.name)
    && (req.age.None? || req.age.value == c.age)
    && (req.email.None? || req.email.value == c.email)
  }

  /** The customer with every non-null request field taken over. */
  function Merge(c: Customer, req: UpdateRequest): Customer {
    c.(name := req.name.GetOr(c.name), age := req.age.GetOr(c.age), email := req.email.GetOr(c.email))
  }

  /** `updateCustomer`, as the table it leaves behind or the exception it throws. */
  function Update(t: Table, id: int, req: UpdateRequest): (r: Result<Table, Error>)
    ensures r == Failure(ResourceNotFound(MissingCustomer)) <==> id !in t
    ensures id in t ==>
      (r == Failure(DuplicateResource) <==> EmailChanges(t[id], req) && EmailHeld(t, req.email.value))
    ensures id in t && !(EmailChanges(t[id], req) && EmailHeld(t, req.email.value)) ==>
      (r == Failure(RequestValidation) <==> NoEffectiveChange(t[id], req))
    ensures r.Success? <==>
      id in t && !(EmailChanges(t[id], req) && EmailHeld(t, req.email.value)) && !NoEffectiveChange(t[id], req)
    ensures r.Success? ==> id in t && r.value.Keys == t.Keys && OthersUnchanged(t, r.value, id)
    ensures r.Success? ==> r.value[id] != t[id]
    ensures r.Success? ==> var (c, u) := (t[id], r.value[id]);
      && u.name == (if req.name.Some? then req.name.value else c.name)
      && u.age == (if req.age.Some? then req.age.value else c.age)
      && u.email == (if req.email.Some? then req.email.value else c.email)
      && u.id == c.id && u.password == c.password && u.gender == c.gender
      && u.profileImageId == c.profileImageId
    ensures r.Success? && WellFormed(t) ==> WellFormed(r.value)
  {
    if id !in t then
      Failure(ResourceNotFound(MissingCustomer))
    else
      var c := t[id];
      var u := Merge(c, req);
      if u.email != c.email && EmailHeld(t, u.email) then
        Failure(DuplicateResource)
      else if u == c then
        Failure(RequestValidation)
      else
        Success(t[id := u])
  }
}
