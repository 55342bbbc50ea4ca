/** The persistence mapper between the domain Customer and the stored
    record, whose four columns may each be null. */
module CustomerMapper {
  import opened DomainErrors
  import opened Text
  import opened Cpf
  import opened Customers

  datatype CustomerRecord = CustomerRecord(
    id: Option<CustomerId>, name: Option<string>, email: Option<string>, cpf: Option<string>)

  /** `toJpaEntity`: null to null, otherwise every field copied unchanged. */
  function ToRecord(c: Option<Customer>): (r: Option<CustomerRecord>)
    ensures r.None? <==> c.None?
    ensures c.Some? ==> r.value.id == Some(c.value.id) && r.value.name == Some(c.value.name)
    ensures c.Some? ==> r.value.email == Some(c.value.email) && r.value.cpf == Some(c.value.cpf)
  {
    match c
    case None => None
    case Some(x) => Some(CustomerRecord(Some(x.id), Some(x.name), Some(x.email), Some(x.cpf)))
  }

  /** `toDomainEntity`: null to null, otherwise the record's fields go
      through the builder, so a record the builder refuses is an error. */
  function ToDomain(r: Option<CustomerRecord>): (c: Result<Option<Customer>>)
    ensures r.None? ==> c == Ok(None)
    ensures r.Some? && c.Ok? ==> c.value.Some? && ValidCustomer(c.value.value)
    ensures r.Some? && c.Ok? ==> r.value.id == Some(c.value.value.id)
  {
    match r
    case None => Ok(None)
    case Some(x) =>
      match Build(x.id, x.name, x.email, x.cpf)
      case Err(e) => Err(e)
      case Ok(y) => Ok(Some(y))
  }

  /** domain -> record -> domain gives back the same customer, for every
      customer the builder can produce. */
  lemma DomainRoundTrip(c: Customer)
    requires ValidCustomer(c)
    ensures ToDomain(ToRecord(Some(c))) == Ok(Some(c))
  {
    RebuildValid(c);
  }

  /** record -> domain -> record keeps the id, trims the name, lower-cases
      the email ("" for a null one) and keeps only the CPF's digits. */
  lemma RecordRoundTrip(r: CustomerRecord)
    requires ToDomain(Some(r)).Ok?
    ensures ToRecord(ToDomain(Some(r)).value)
         == Some(CustomerRecord(r.id, Some(Trim(r.name.value)), Some(StoredEmail(r.email)),
                                Some(Digits(r.cpf.value))))
  {
    BuildSpec(r.id, r.name, r.email, r.cpf);
  }

  /** A record whose name is trimmed and whose CPF is digits only comes back
      with the same id, name and CPF and with its email lower-cased. */
  lemma CanonicalRecordRoundTrip(r: CustomerRecord)
    requires ToDomain(Some(r)).Ok?
    requires IsTrimmed(r.name.value) && AllDigits(r.cpf.value)
    requires r.email.Some?
    ensures ToRecord(ToDomain(Some(r)).value)
         == Some(CustomerRecord(r.id, r.name, Some(ToLower(r.email.value)), r.cpf))
  {
    RecordRoundTrip(r);
    TrimOfTrimmed(r.name.value);
  }

  /** An empty email survives both directions. */
  lemma EmptyEmailPreserved(c: Customer, r: CustomerRecord)
    requires c.email == "" && r.email == Some("") && ToDomain(Some(r)).Ok?
    ensures ToRecord(Some(c)).value.email == Some("")
    ensures ToDomain(Some(r)).value.value.email == ""
  {
    BuildSpec(r.id, r.name, r.email, r.cpf);
  }
}
