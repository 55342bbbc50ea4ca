/** The Customer entity: an immutable value built through a validating
    factory that trims the name, lower-cases the email and keeps the CPF as
    its eleven digits. */
module Customers {
  import opened DomainErrors
  import opened Text
  import opened Email
  import opened Cpf

  /** Customer ids; the source uses random UUIDs, here any natural number. */
  type CustomerId = nat

  const NullIdMessage := "ID cannot be null"
  const NameMessage := "Name cannot be null or empty"

  datatype Customer = Customer(id: CustomerId, name: string, email: string, cpf: string)

  /** What every built customer satisfies. */
  ghost predicate ValidCustomer(c: Customer) {
    && c.name != "" && IsTrimmed(c.name)
    && IsLowerCase(c.email) && (c.email == "" || IsEmailAddress(c.email))
    && IsCpf(c.cpf)
  }

  /** A name must be present and not blank; it is kept trimmed. */
  function NormalizeName(raw: Option<string>): (r: Result<string>)
    ensures r.Ok? ==> raw.Some? && r.value == Trim(raw.value)
    ensures r.Ok? ==> r.value != "" && IsTrimmed(r.value)
    ensures r.Ok? <==> raw.Some? && !AllWhitespace(raw.value)
    ensures r.Err? ==> r.error == Error(IllegalArgument, NameMessage)
  {
    if raw.None? then Err(Error(IllegalArgument, NameMessage))
    else
      var t := Trim(raw.value);
      if t == "" then Err(Error(IllegalArgument, NameMessage)) else Ok(t)
  }

  /** The builder: checks the id, then the name, then the email, then the
      CPF, and fails with the first error found. */
  function Build(id: Option<CustomerId>, name: Option<string>, email: Option<string>,
                 cpf: Option<string>): (r: Result<Customer>)
    ensures r.Ok? ==> ValidCustomer(r.value) && id == Some(r.value.id)
    ensures r.Ok? ==> name.Some? && cpf.Some?
    ensures r.Err? ==> r.error.kind in {NullId, IllegalArgument, InvalidEmail, InvalidCpf}
  {
    if id.None? then Err(Error(NullId, NullIdMessage))
    else
      match NormalizeName(name)
      case Err(e) => Err(e)
      case Ok(n) =>
        match NormalizeEmail(email)
        case Err(e) => Err(e)
        case Ok(m) =>
          match ValidateCpf(cpf)
          case Err(e) => Err(e)
          case Ok(d) => Ok(Customer(id.value, n, m, d))
  }

  /** The stored email for a raw one: "" when absent or empty, the
      lower-cased input otherwise. */
  function StoredEmail(raw: Option<string>): string {
    if raw.None? || raw.value == "" then "" else ToLower(raw.value)
  }

  /** The email check in reference terms. */
  ghost predicate EmailAccepted(raw: Option<string>) {
    raw.None? || raw.value == "" || IsEmailAddress(ToLower(raw.value))
  }

  /** Building succeeds exactly when every field is acceptable, stores the
      normalised fields, and otherwise reports the first failing field. */
  lemma BuildSpec(id: Option<CustomerId>, name: Option<string>, email: Option<string>,
                  cpf: Option<string>)
    ensures Build(id, name, email, cpf).Ok? <==>
      && id.Some?
      && name.Some? && !AllWhitespace(name.value)
      && EmailAccepted(email)
      && cpf.Some? && IsCpf(Digits(cpf.value))
    ensures Build(id, name, email, cpf).Ok? ==>
      Build(id, name, email, cpf).value
        == Customer(id.value, Trim(name.value), StoredEmail(email), Digits(cpf.value))
    ensures id.None? ==> Build(id, name, email, cpf) == Err(Error(NullId, NullIdMessage))
    ensures id.Some? && (name.None? || AllWhitespace(name.value)) ==>
      Build(id, name, email, cpf) == Err(Error(IllegalArgument, NameMessage))
    ensures id.Some? && name.Some? && !AllWhitespace(name.value) && !EmailAccepted(email) ==>
      Build(id, name, email, cpf) == Err(Error(InvalidEmail, FormatMessage + email.value))
    ensures id.Some? && name.Some? && !AllWhitespace(name.value) && EmailAccepted(email) ==>
      (Build(id, name, email, cpf).Err? <==> ValidateCpf(cpf).Err?)
    ensures id.Some? && name.Some? && !AllWhitespace(name.value) && EmailAccepted(email) ==>
      ValidateCpf(cpf).Err? ==> Build(id, name, email, cpf) == Err(ValidateCpf(cpf).error)
  {
    NormalizeEmailSpec(email);
    ValidateCpfSpec(cpf);
  }

  /** The CPF a successful build stores is the input's digits. */
  lemma BuildStoresDigits(id: Option<CustomerId>, name: Option<string>, email: Option<string>,
                          cpf: Option<string>)
    requires Build(id, name, email, cpf).Ok?
    ensures Build(id, name, email, cpf).value.cpf == Digits(cpf.value)
  {
    ValidateCpfSpec(cpf);
  }

  /** A valid customer rebuilt from its own fields is itself: building is
      idempotent. */
  lemma RebuildValid(c: Customer)
    requires ValidCustomer(c)
    ensures Build(Some(c.id), Some(c.name), Some(c.email), Some(c.cpf)) == Ok(c)
  {
    NameKept(c.name);
    EmailKept(c.email);
    Accepts(c.cpf);
  }

  lemma NameKept(n: string)
    requires n != "" && IsTrimmed(n)
    ensures NormalizeName(Some(n)) == Ok(n)
  {
    TrimOfTrimmed(n);
  }

  lemma EmailKept(e: string)
    requires IsLowerCase(e) && (e == "" || IsEmailAddress(e))
    ensures NormalizeEmail(Some(e)) == Ok(e)
  {
    if e != "" {
      AcceptsLowerCase(e);
    }
  }

  lemma BuildIdempotent(id: Option<CustomerId>, name: Option<string>, email: Option<string>,
                        cpf: Option<string>)
    requires Build(id, name, email, cpf).Ok?
    ensures var c := Build(id, name, email, cpf).value;
      Build(Some(c.id), Some(c.name), Some(c.email), Some(c.cpf)) == Ok(c)
  {
    RebuildValid(Build(id, name, email, cpf).value);
  }

  /** `equals`: identity is the id and the CPF. Two customers are equal
      exactly when they differ at most in name and email. */
  predicate SameCustomer(a: Customer, b: Customer): (r: bool)
    ensures a == b ==> r
    ensures r <==> b == a.(name := b.name, email := b.email)
  {
    a.id == b.id && a.cpf == b.cpf
  }

  /** Two built customers with the same CPF input are equal exactly when
      their ids are, whatever their names and emails. */
  lemma EqualityIgnoresContact(id1: CustomerId, id2: CustomerId, name1: Option<string>,
                               name2: Option<string>, email1: Option<string>,
                               email2: Option<string>, cpf: Option<string>)
    requires Build(Some(id1), name1, email1, cpf).Ok?
    requires Build(Some(id2), name2, email2, cpf).Ok?
    ensures var a, b := Build(Some(id1), name1, email1, cpf).value,
                        Build(Some(id2), name2, email2, cpf).value;
      SameCustomer(a, b) <==> id1 == id2
  {
    BuildSpec(Some(id1), name1, email1, cpf);
    BuildSpec(Some(id2), name2, email2, cpf);
  }

  /** Equality is an equivalence. */
  lemma SameCustomerIsEquivalence(a: Customer, b: Customer, c: Customer)
    ensures SameCustomer(a, a)
    ensures SameCustomer(a, b) ==> SameCustomer(b, a)
    ensures SameCustomer(a, b) && SameCustomer(b, c) ==> SameCustomer(a, c)
  {
  }
}
