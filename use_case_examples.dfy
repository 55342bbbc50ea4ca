/** The use case's documented scenarios, each run against a fresh in-memory
    store, for any inputs of the kind the scenario names. */
module UseCaseExamples {
  import opened DomainErrors
  import opened Cpf
  import opened Customers
  import opened CustomerRepository
  import opened CustomerUseCase

  /** A first registration on a fresh store checks the CPF, saves once and
      returns what was saved; the store then holds that customer alone. */
  method RegisterOnce(name: Option<string>, email: Option<string>, cpf: Option<string>)
    returns (u: CustomerUseCaseImpl, first: Result<Customer>)
    requires Build(Some(0), name, email, cpf).Ok?
    ensures fresh(u) && u.Valid()
    ensures first == Build(Some(0), name, email, cpf)
    ensures u.repository == [first.value] && u.nextId == 1
    ensures u.calls == [ExistsByCpfCall(LookupKey(cpf)), SaveCall(first.value)]
  {
    u := new CustomerUseCaseImpl();
    first := u.RegisterCustomer(name, email, cpf);
  }

  method RegisterSucceeds(name: Option<string>, email: Option<string>, cpf: Option<string>)
    returns (r: Result<Customer>, ghost calls: seq<PortCall>, all: seq<Customer>)
    requires Build(Some(0), name, email, cpf).Ok?
    ensures r == Build(Some(0), name, email, cpf)
    ensures calls == [ExistsByCpfCall(LookupKey(cpf)), SaveCall(r.value)]
    ensures all == [r.value]
  {
    var u;
    u, r := RegisterOnce(name, email, cpf);
    calls := u.calls;
    all := u.FindCustomerAll();
  }

  /** A second registration of the same CPF, however it is written, is
      refused and nothing more is saved. */
  method RegisterDuplicate(name: Option<string>, email: Option<string>, cpf: Option<string>,
                           name2: Option<string>, email2: Option<string>, cpf2: Option<string>)
    returns (first: Result<Customer>, second: Result<Customer>,
             ghost calls: seq<PortCall>, all: seq<Customer>)
    requires Build(Some(0), name, email, cpf).Ok?
    requires cpf2.Some? && Digits(cpf2.value) == Digits(cpf.value)
    ensures first.Ok?
    ensures second == Err(Error(Domain, DuplicateMessage(cpf2.value)))
    ensures calls == [ExistsByCpfCall(LookupKey(cpf)), SaveCall(first.value),
                      ExistsByCpfCall(LookupKey(cpf2))]
    ensures all == [first.value]
  {
    BuildStoresDigits(Some(0), name, email, cpf);
    var u;
    u, first := RegisterOnce(name, email, cpf);
    assert [first.value][0].cpf == LookupKey(cpf2).value;
    second := u.RegisterCustomer(name2, email2, cpf2);
    calls := u.calls;
    all := u.FindCustomerAll();
  }

  /** Two registrations with different CPFs both succeed, with different
      ids, and are listed in registration order. */
  method RegisterTwo(name: Option<string>, email: Option<string>, cpf: Option<string>,
                     name2: Option<string>, email2: Option<string>, cpf2: Option<string>)
    returns (first: Result<Customer>, second: Result<Customer>, all: seq<Customer>)
    requires Build(Some(0), name, email, cpf).Ok? && Build(Some(1), name2, email2, cpf2).Ok?
    requires Digits(cpf2.value) != Digits(cpf.value)
    ensures first.Ok? && second.Ok? && first.value.id != second.value.id
    ensures all == [first.value, second.value]
  {
    BuildStoresDigits(Some(0), name, email, cpf);
    var u;
    u, first := RegisterOnce(name, email, cpf);
    assert !KeyExists(u.repository, LookupKey(cpf2));
    ghost var c1 := first.value;
    second := u.RegisterCustomer(name2, email2, cpf2);
    assert u.repository == [c1] + [second.value];
    all := u.FindCustomerAll();
  }

  /** After one registration the lookups find that customer by CPF and by
      id. */
  method FindAfterRegister(name: Option<string>, email: Option<string>, cpf: Option<string>)
    returns (r: Result<Customer>, byCpf: Result<Customer>, byId: Result<Customer>)
    requires Build(Some(0), name, email, cpf).Ok?
    ensures r.Ok? && byCpf == r && byId == r
  {
    var u;
    u, r := RegisterOnce(name, email, cpf);
    assert [r.value][0] == r.value;
    byCpf := u.FindCustomerByCpf(r.value.cpf);
    byId := u.FindCustomerById(0);
  }

  /** After one registration any other CPF or id is reported NotFound. */
  method MissingAfterRegister(name: Option<string>, email: Option<string>, cpf: Option<string>,
                              otherCpf: string, otherId: CustomerId)
    returns (missingCpf: Result<Customer>, missingId: Result<Customer>)
    requires Build(Some(0), name, email, cpf).Ok?
    requires otherCpf != Digits(cpf.value) && otherId != 0
    ensures missingCpf == Err(RecordNotFound) && missingId == Err(RecordNotFound)
  {
    BuildStoresDigits(Some(0), name, email, cpf);
    var u, r := RegisterOnce(name, email, cpf);
    missingCpf := u.FindCustomerByCpf(otherCpf);
    missingId := u.FindCustomerById(otherId);
  }

  /** An empty store lists nothing and finds nothing. */
  method FindInEmpty(cpf: string, id: CustomerId)
    returns (all: seq<Customer>, byCpf: Result<Customer>, byId: Result<Customer>)
    ensures all == [] && byCpf == Err(RecordNotFound) && byId == Err(RecordNotFound)
  {
    var u := new CustomerUseCaseImpl();
    all := u.FindCustomerAll();
    byCpf := u.FindCustomerByCpf(cpf);
    byId := u.FindCustomerById(id);
  }
}
