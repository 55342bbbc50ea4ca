/** The customer use case: registration against the repository port and the
    three lookups. */
module CustomerUseCase {
  import opened DomainErrors
  import opened Cpf
  import opened Customers
  import opened CustomerRepository

  function DuplicateMessage(cpf: string): string {
    "Customer with CPF " + cpf + " already exists"
  }

  /** The key the corrected registration hands to `existsByCpf`: the CPF as
      stored, that is its digits. */
  function LookupKey(cpf: Option<string>): (k: Option<string>)
    ensures k.Some? <==> cpf.Some?
    ensures k.Some? ==> k.value == Digits(cpf.value)
  {
    if cpf.None? then None else Some(Digits(cpf.value))
  }

  /** The corrected key does not depend on how the CPF is written: a
      formatted CPF and its digits are looked up under the same key. The
      source passes the caller's string unchanged instead. */
  lemma LookupKeyIgnoresFormatting(x: string)
    ensures LookupKey(Some(x)) == LookupKey(Some(Digits(x)))
  {
    DigitsIdempotent(x);
  }

  /** `existsByCpf` on an optional key: a null key matches nothing. */
  predicate KeyExists(repo: seq<Customer>, key: Option<string>) {
    key.Some? && ExistsByCpf(repo, key.value)
  }

  /** `registerCustomer`: a CPF already stored is refused with a domain error
      naming the caller's CPF; otherwise the customer is built with the fresh
      id, and that customer, which `save` stores and returns, is the
      result. */
  function Register(repo: seq<Customer>, freshId: CustomerId, name: Option<string>,
                    email: Option<string>, cpf: Option<string>): (r: Result<Customer>)
    ensures r.Ok? ==> ValidCustomer(r.value) && r.value.id == freshId
    ensures r.Ok? ==> !ExistsByCpf(repo, r.value.cpf)
    ensures KeyExists(repo, LookupKey(cpf)) ==> r == Err(Error(Domain, DuplicateMessage(cpf.value)))
    ensures !KeyExists(repo, LookupKey(cpf)) ==> r == Build(Some(freshId), name, email, cpf)
  {
    if KeyExists(repo, LookupKey(cpf)) then Err(Error(Domain, DuplicateMessage(cpf.value)))
    else
      var r := Build(Some(freshId), name, email, cpf);
      BuildSpec(Some(freshId), name, email, cpf);
      r
  }

  /** What the stored customers satisfy between calls: each is valid and
      has an id below the next fresh one, and ids and CPFs are unique. */
  ghost predicate Consistent(repo: seq<Customer>, nextId: CustomerId) {
    && (forall i :: 0 <= i < |repo| ==> ValidCustomer(repo[i]) && repo[i].id < nextId)
    && UniqueIds(repo)
    && UniqueCpfs(repo)
  }

  /** Saving what a successful registration returns, and advancing the id
      source, keeps the store consistent. */
  lemma RegisterKeepsConsistent(repo: seq<Customer>, freshId: CustomerId, name: Option<string>,
                                email: Option<string>, cpf: Option<string>)
    requires Consistent(repo, freshId)
    requires Register(repo, freshId, name, email, cpf).Ok?
    ensures Consistent(Save(repo, Register(repo, freshId, name, email, cpf).value), freshId + 1)
  {
    var c := Register(repo, freshId, name, email, cpf).value;
    SaveKeepsCpfsUnique(repo, c);
    SaveKeepsIdsUnique(repo, c);
    var r := Save(repo, c);
    forall i | 0 <= i < |r|
      ensures ValidCustomer(r[i]) && r[i].id < freshId + 1
    {
      if i < |repo| {
        assert r[i] == repo[i];
      }
    }
  }

  /** Registering the same CPF again, in any written form, fails with the
      duplicate error and stores nothing. */
  lemma SecondRegistrationRefused(repo: seq<Customer>, freshId: CustomerId, name: Option<string>,
                                  email: Option<string>, cpf: Option<string>,
                                  nextId: CustomerId, name2: Option<string>,
                                  email2: Option<string>, cpf2: Option<string>)
    requires Register(repo, freshId, name, email, cpf).Ok?
    requires cpf2.Some? && Digits(cpf2.value) == Register(repo, freshId, name, email, cpf).value.cpf
    ensures var saved := Save(repo, Register(repo, freshId, name, email, cpf).value);
      Register(saved, nextId, name2, email2, cpf2)
        == Err(Error(Domain, DuplicateMessage(cpf2.value)))
  {
    var c := Register(repo, freshId, name, email, cpf).value;
    assert Save(repo, c)[|repo|] == c;
  }

  /** Two successful registrations in a row give different ids and CPFs. */
  lemma SuccessiveRegistrationsDistinct(repo: seq<Customer>, freshId: CustomerId,
                                        name: Option<string>, email: Option<string>,
                                        cpf: Option<string>, name2: Option<string>,
                                        email2: Option<string>, cpf2: Option<string>)
    requires Register(repo, freshId, name, email, cpf).Ok?
    requires Register(Save(repo, Register(repo, freshId, name, email, cpf).value),
                      freshId + 1, name2, email2, cpf2).Ok?
    ensures var c1 := Register(repo, freshId, name, email, cpf).value;
      var c2 := Register(Save(repo, c1), freshId + 1, name2, email2, cpf2).value;
      c1.id != c2.id && c1.cpf != c2.cpf
  {
    var c1 := Register(repo, freshId, name, email, cpf).value;
    assert Save(repo, c1)[|repo|] == c1;
  }

  // ---------------------------------------------------------------------
  // The existence check as written: with the caller's CPF unchanged.

  function RegisterAsWritten(repo: seq<Customer>, freshId: CustomerId, name: Option<string>,
                             email: Option<string>, cpf: Option<string>): (r: Result<Customer>)
    ensures r.Ok? ==> ValidCustomer(r.value) && r.value.id == freshId
    ensures KeyExists(repo, cpf) ==> r == Err(Error(Domain, DuplicateMessage(cpf.value)))
  {
    if KeyExists(repo, cpf) then Err(Error(Domain, DuplicateMessage(cpf.value)))
    else Build(Some(freshId), name, email, cpf)
  }

  /** A customer stored with 11144477735 does not stop a second registration
      of 111.444.777-35: `existsByCpf` is asked about the formatted string,
      which no stored (digits-only) CPF equals, and the build then stores the
      same digits again. */
  lemma AsWrittenAdmitsDuplicateCpf()
    ensures var repo := [Customer(0, "Ana", "", "11144477735")];
      var r := RegisterAsWritten(repo, 1, Some("Ana"), None, Some("111.444.777-35"));
      && UniqueCpfs(repo)
      && r == Ok(Customer(1, "Ana", "", "11144477735"))
      && !UniqueCpfs(Save(repo, r.value))
  {
    var repo := [Customer(0, "Ana", "", "11144477735")];
    assert |repo[0].cpf| != |"111.444.777-35"|;
    assert !KeyExists(repo, Some("111.444.777-35"));
    AnaKept();
    Email.AcceptsMissingEmail();
    AcceptsFormatted11144477735();
    var c := Customer(1, "Ana", "", "11144477735");
    assert Build(Some(1), Some("Ana"), None, Some("111.444.777-35")) == Ok(c);
    assert Save(repo, c)[0].cpf == Save(repo, c)[1].cpf;
  }

  lemma AnaKept()
    ensures NormalizeName(Some("Ana")) == Ok("Ana")
  {
    Text.TrimOfTrimmed("Ana");
  }

  /** The corrected registration refuses the same input. */
  lemma CorrectedRefusesDuplicateCpf()
    ensures var repo := [Customer(0, "Ana", "", "11144477735")];
      Register(repo, 1, Some("Ana"), None, Some("111.444.777-35"))
        == Err(Error(Domain, DuplicateMessage("111.444.777-35")))
  {
    var repo := [Customer(0, "Ana", "", "11144477735")];
    FormattedDigits();
    assert repo[0].cpf == "11144477735";
  }

  // ---------------------------------------------------------------------
  // The use case object.

  /** A call the use case makes on the repository port. */
  datatype PortCall = ExistsByCpfCall(key: Option<string>) | SaveCall(customer: Customer)

  /** `CustomerUseCaseImpl` over an in-memory repository; `nextId` is the
      fresh-id source and `calls` records the port calls made so far. */
  class CustomerUseCaseImpl {
    var repository: seq<Customer>
    var nextId: CustomerId
    ghost var calls: seq<PortCall>

    ghost predicate Valid()
      reads this
    {
      Consistent(repository, nextId)
    }

    constructor()
      ensures Valid()
      ensures repository == [] && nextId == 0 && calls == []
    {
      repository := [];
      nextId := 0;
      calls := [];
    }

    /** Asks `existsByCpf` once; on a duplicate or an invalid field nothing
        is saved; otherwise `save` is called once with the new customer,
        which is returned. */
    method RegisterCustomer(name: Option<string>, email: Option<string>, cpf: Option<string>)
      returns (r: Result<Customer>)
      requires Valid()
      modifies this
      ensures Valid()
      ensures r == Register(old(repository), old(nextId), name, email, cpf)
      ensures r.Ok? ==> repository == Save(old(repository), r.value) && nextId == old(nextId) + 1
      ensures r.Err? ==> repository == old(repository) && nextId == old(nextId)
      ensures calls == old(calls) + [ExistsByCpfCall(LookupKey(cpf))]
                       + (if r.Ok? then [SaveCall(r.value)] else [])
    {
      var key := LookupKey(cpf);
      calls := calls + [ExistsByCpfCall(key)];
      if KeyExists(repository, key) {
        r := Err(Error(Domain, DuplicateMessage(cpf.value)));
        return;
      }
      r := Build(Some(nextId), name, email, cpf);
      if r.Ok? {
        RegisterKeepsConsistent(repository, nextId, name, email, cpf);
        repository := Save(repository, r.value);
        calls := calls + [SaveCall(r.value)];
        nextId := nextId + 1;
      }
    }

    /** `findCustomerByCpf`: the stored customer with this CPF, or NotFound. */
    function FindCustomerByCpf(cpf: string): (r: Result<Customer>)
      reads this
      ensures r.Ok? <==> ExistsByCpf(repository, cpf)
      ensures r.Ok? ==> r.value in repository && r.value.cpf == cpf
      ensures r.Err? ==> r.error == RecordNotFound
    {
      match FindByCpf(repository, cpf)
      case None => Err(RecordNotFound)
      case Some(c) => Ok(c)
    }

    /** `findCustomerById`: the stored customer with this id, or NotFound. */
    function FindCustomerById(id: CustomerId): (r: Result<Customer>)
      reads this
      ensures r.Ok? <==> ExistsById(repository, id)
      ensures r.Ok? ==> r.value in repository && r.value.id == id
      ensures r.Err? ==> r.error == RecordNotFound
    {
      match FindById(repository, id)
      case None => Err(RecordNotFound)
      case Some(c) => Ok(c)
    }

    /** `findCustomerAll`: the stored customers, in order. */
    function FindCustomerAll(): (r: seq<Customer>)
      reads this
      ensures r == repository
    {
      repository
    }

    /** In a valid state each stored customer is found by its CPF and by its
        id. */
    lemma StoredCustomersFound(i: nat)
      requires Valid() && i < |repository|
      ensures FindCustomerByCpf(repository[i].cpf) == Ok(repository[i])
      ensures FindCustomerById(repository[i].id) == Ok(repository[i])
    {
      FindByCpfFindsStored(repository, i);
      FindByIdFindsStored(repository, i);
    }
  }
}
