/** The builder's documented examples, each as one lemma. */
module CustomerExamples {
  import opened DomainErrors
  import opened Text
  import opened Email
  import opened Cpf
  import opened Customers

  const ValidName := "João da Silva"
  const ValidEmail := "joao.silva@example.com"
  const ValidCpf := "11144477735"

  /** Building from fields that each pass their own check. */
  lemma BuildsFrom(id: CustomerId, name: Option<string>, email: Option<string>, cpf: Option<string>,
                   n: string, m: string, d: string)
    requires NormalizeName(name) == Ok(n)
    requires NormalizeEmail(email) == Ok(m)
    requires ValidateCpf(cpf) == Ok(d)
    ensures Build(Some(id), name, email, cpf) == Ok(Customer(id, n, m, d))
  {
  }

  /** Building fails at the email when id and name are fine. */
  lemma FailsAtEmail(id: CustomerId, name: Option<string>, email: Option<string>, cpf: Option<string>)
    requires NormalizeName(name).Ok? && NormalizeEmail(email).Err?
    ensures Build(Some(id), name, email, cpf) == Err(NormalizeEmail(email).error)
  {
  }

  /** Building fails at the CPF when every other field is fine. */
  lemma FailsAtCpf(id: CustomerId, name: Option<string>, email: Option<string>, cpf: Option<string>)
    requires NormalizeName(name).Ok? && NormalizeEmail(email).Ok? && ValidateCpf(cpf).Err?
    ensures Build(Some(id), name, email, cpf) == Err(ValidateCpf(cpf).error)
  {
  }

  lemma ValidNameKept()
    ensures NormalizeName(Some(ValidName)) == Ok(ValidName)
  {
    assert IsTrimmed(ValidName);
    TrimOfTrimmed(ValidName);
  }

  lemma PaddedNameSplits()
    ensures "  João da Silva  " == "  " + ValidName + "  "
  {
  }

  lemma PaddedNameTrimmed()
    ensures NormalizeName(Some("  João da Silva  ")) == Ok(ValidName)
  {
    PaddedNameSplits();
    assert IsTrimmed(ValidName);
    TrimPadded("  ", ValidName, "  ");
  }

  lemma BlankNamesRejected()
    ensures NormalizeName(None) == Err(Error(IllegalArgument, NameMessage))
    ensures NormalizeName(Some("")) == Err(Error(IllegalArgument, NameMessage))
    ensures NormalizeName(Some("   ")) == Err(Error(IllegalArgument, NameMessage))
  {
    assert AllWhitespace("   ");
  }

  lemma CustomerWithValidData(id: CustomerId)
    ensures Build(Some(id), Some(ValidName), Some(ValidEmail), Some(ValidCpf))
         == Ok(Customer(id, ValidName, ValidEmail, ValidCpf))
  {
    ValidNameKept();
    AcceptsCustomerAddress();
    Accepts11144477735();
    BuildsFrom(id, Some(ValidName), Some(ValidEmail), Some(ValidCpf), ValidName, ValidEmail, ValidCpf);
  }

  /** A null or empty email is stored as "". */
  lemma CustomerWithoutEmail(id: CustomerId)
    ensures Build(Some(id), Some(ValidName), Some(""), Some(ValidCpf))
         == Ok(Customer(id, ValidName, "", ValidCpf))
    ensures Build(Some(id), Some(ValidName), None, Some(ValidCpf))
         == Ok(Customer(id, ValidName, "", ValidCpf))
  {
    ValidNameKept();
    AcceptsMissingEmail();
    Accepts11144477735();
    BuildsFrom(id, Some(ValidName), Some(""), Some(ValidCpf), ValidName, "", ValidCpf);
    BuildsFrom(id, Some(ValidName), None, Some(ValidCpf), ValidName, "", ValidCpf);
  }

  lemma CustomerEmailLowerCased(id: CustomerId)
    ensures Build(Some(id), Some(ValidName), Some("JOAO.SILVA@EXAMPLE.COM"), Some(ValidCpf))
         == Ok(Customer(id, ValidName, ValidEmail, ValidCpf))
  {
    ValidNameKept();
    AcceptsUpperCaseAddress();
    Accepts11144477735();
    BuildsFrom(id, Some(ValidName), Some("JOAO.SILVA@EXAMPLE.COM"), Some(ValidCpf),
               ValidName, ValidEmail, ValidCpf);
  }

  lemma CustomerNameTrimmed(id: CustomerId)
    ensures Build(Some(id), Some("  João da Silva  "), Some(ValidEmail), Some(ValidCpf))
         == Ok(Customer(id, ValidName, ValidEmail, ValidCpf))
  {
    PaddedNameTrimmed();
    AcceptsCustomerAddress();
    Accepts11144477735();
    BuildsFrom(id, Some("  João da Silva  "), Some(ValidEmail), Some(ValidCpf),
               ValidName, ValidEmail, ValidCpf);
  }

  lemma CustomerCpfFormatted(id: CustomerId)
    ensures Build(Some(id), Some(ValidName), Some(ValidEmail), Some("111.444.777-35"))
         == Ok(Customer(id, ValidName, ValidEmail, ValidCpf))
  {
    ValidNameKept();
    AcceptsCustomerAddress();
    AcceptsFormatted11144477735();
    BuildsFrom(id, Some(ValidName), Some(ValidEmail), Some("111.444.777-35"),
               ValidName, ValidEmail, ValidCpf);
  }

  lemma CustomerNameMissing(id: CustomerId)
    ensures Build(Some(id), None, Some(ValidEmail), Some(ValidCpf))
         == Err(Error(IllegalArgument, NameMessage))
    ensures Build(Some(id), Some(""), Some(ValidEmail), Some(ValidCpf))
         == Err(Error(IllegalArgument, NameMessage))
    ensures Build(Some(id), Some("   "), Some(ValidEmail), Some(ValidCpf))
         == Err(Error(IllegalArgument, NameMessage))
  {
    BlankNamesRejected();
  }

  lemma CustomerEmailWithoutAt(id: CustomerId)
    ensures Build(Some(id), Some(ValidName), Some("invalid-email"), Some(ValidCpf))
         == Err(Error(InvalidEmail, FormatMessage + "invalid-email"))
  {
    ValidNameKept();
    RejectsAddressWithoutAt();
    FailsAtEmail(id, Some(ValidName), Some("invalid-email"), Some(ValidCpf));
  }

  lemma CustomerEmailWithoutDomain(id: CustomerId)
    ensures Build(Some(id), Some(ValidName), Some("test@"), Some(ValidCpf))
         == Err(Error(InvalidEmail, FormatMessage + "test@"))
  {
    ValidNameKept();
    RejectsAddressWithoutDomain();
    FailsAtEmail(id, Some(ValidName), Some("test@"), Some(ValidCpf));
  }

  /** The format error's message starts with "Invalid email format", whatever
      email it names. */
  lemma FormatMessagePrefix(email: string)
    ensures "Invalid email format" <= FormatMessage + email
  {
    assert FormatMessage == "Invalid email format" + ": ";
  }

  lemma CustomerPlainEmailAccepted(id: CustomerId)
    ensures Build(Some(id), Some(ValidName), Some("test@example.com"), Some(ValidCpf))
         == Ok(Customer(id, ValidName, "test@example.com", ValidCpf))
  {
    ValidNameKept();
    Accepts11144477735();
    AcceptsPlainAddress();
    BuildsFrom(id, Some(ValidName), Some("test@example.com"), Some(ValidCpf), ValidName, "test@example.com", ValidCpf);
  }

  lemma CustomerDottedEmailAccepted(id: CustomerId)
    ensures Build(Some(id), Some(ValidName), Some("test.name@example.com"), Some(ValidCpf))
         == Ok(Customer(id, ValidName, "test.name@example.com", ValidCpf))
  {
    ValidNameKept();
    Accepts11144477735();
    AcceptsDottedAddress();
    BuildsFrom(id, Some(ValidName), Some("test.name@example.com"), Some(ValidCpf), ValidName, "test.name@example.com", ValidCpf);
  }

  lemma CustomerTaggedEmailAccepted(id: CustomerId)
    ensures Build(Some(id), Some(ValidName), Some("test+tag@example.co.uk"), Some(ValidCpf))
         == Ok(Customer(id, ValidName, "test+tag@example.co.uk", ValidCpf))
  {
    ValidNameKept();
    Accepts11144477735();
    AcceptsTaggedAddress();
    BuildsFrom(id, Some(ValidName), Some("test+tag@example.co.uk"), Some(ValidCpf), ValidName, "test+tag@example.co.uk", ValidCpf);
  }

  lemma CustomerUnderscoreEmailAccepted(id: CustomerId)
    ensures Build(Some(id), Some(ValidName), Some("test_underscore@example.com"), Some(ValidCpf))
         == Ok(Customer(id, ValidName, "test_underscore@example.com", ValidCpf))
  {
    ValidNameKept();
    Accepts11144477735();
    AcceptsUnderscoreAddress();
    BuildsFrom(id, Some(ValidName), Some("test_underscore@example.com"), Some(ValidCpf), ValidName, "test_underscore@example.com", ValidCpf);
  }

  lemma CustomerCpfMalformed(id: CustomerId)
    ensures Build(Some(id), Some(ValidName), Some(ValidEmail), None)
         == Err(Error(InvalidCpf, NullMessage))
    ensures Build(Some(id), Some(ValidName), Some(ValidEmail), Some("123456789"))
         == Err(Error(InvalidCpf, LengthMessage))
    ensures Build(Some(id), Some(ValidName), Some(ValidEmail), Some("123456789012"))
         == Err(Error(InvalidCpf, LengthMessage))
  {
    ValidNameKept();
    AcceptsCustomerAddress();
    RejectsMissing();
    RejectsShort();
    RejectsLong();
    FailsAtCpf(id, Some(ValidName), Some(ValidEmail), None);
    FailsAtCpf(id, Some(ValidName), Some(ValidEmail), Some("123456789"));
    FailsAtCpf(id, Some(ValidName), Some(ValidEmail), Some("123456789012"));
  }

  lemma CustomerCpfChecksumFails(id: CustomerId)
    ensures Build(Some(id), Some(ValidName), Some(ValidEmail), Some("11111111111"))
         == Err(Error(InvalidCpf, ChecksumMessage))
    ensures Build(Some(id), Some(ValidName), Some(ValidEmail), Some("12345678901"))
         == Err(Error(InvalidCpf, ChecksumMessage))
  {
    ValidNameKept();
    AcceptsCustomerAddress();
    RejectsRepeatedOnes();
    Rejects12345678901();
    FailsAtCpf(id, Some(ValidName), Some(ValidEmail), Some("11111111111"));
    FailsAtCpf(id, Some(ValidName), Some(ValidEmail), Some("12345678901"));
  }

  lemma CustomerCpf52998224725Accepted(id: CustomerId)
    ensures Build(Some(id), Some(ValidName), Some(ValidEmail), Some("52998224725"))
         == Ok(Customer(id, ValidName, ValidEmail, "52998224725"))
  {
    ValidNameKept();
    AcceptsCustomerAddress();
    Accepts52998224725();
    BuildsFrom(id, Some(ValidName), Some(ValidEmail), Some("52998224725"), ValidName, ValidEmail, "52998224725");
  }

  lemma CustomerCpf39053344705Accepted(id: CustomerId)
    ensures Build(Some(id), Some(ValidName), Some(ValidEmail), Some("39053344705"))
         == Ok(Customer(id, ValidName, ValidEmail, "39053344705"))
  {
    ValidNameKept();
    AcceptsCustomerAddress();
    Accepts39053344705();
    BuildsFrom(id, Some(ValidName), Some(ValidEmail), Some("39053344705"), ValidName, ValidEmail, "39053344705");
  }

  lemma CustomerIdMissing()
    ensures Build(None, Some(ValidName), Some(ValidEmail), Some(ValidCpf))
         == Err(Error(NullId, NullIdMessage))
  {
  }

  lemma CustomerWithOtherContact(id: CustomerId)
    ensures Build(Some(id), Some("Different Name"), Some("different@email.com"), Some(ValidCpf))
         == Ok(Customer(id, "Different Name", "different@email.com", ValidCpf))
  {
    DifferentNameKept();
    AcceptsDifferentAddress();
    Accepts11144477735();
    BuildsFrom(id, Some("Different Name"), Some("different@email.com"), Some(ValidCpf),
               "Different Name", "different@email.com", ValidCpf);
  }

  /** Same id and CPF, different name and email: equal; different ids: not. */
  lemma CustomerEquality(id: CustomerId, other: CustomerId)
    requires id != other
    ensures var a := Build(Some(id), Some(ValidName), Some(ValidEmail), Some(ValidCpf));
      var b := Build(Some(id), Some("Different Name"), Some("different@email.com"), Some(ValidCpf));
      var c := Build(Some(other), Some(ValidName), Some(ValidEmail), Some(ValidCpf));
      a.Ok? && b.Ok? && c.Ok? && SameCustomer(a.value, b.value) && !SameCustomer(a.value, c.value)
  {
    CustomerWithValidData(id);
    CustomerWithValidData(other);
    CustomerWithOtherContact(id);
  }

  lemma DifferentNameKept()
    ensures NormalizeName(Some("Different Name")) == Ok("Different Name")
  {
    assert IsTrimmed("Different Name");
    TrimOfTrimmed("Different Name");
  }
}
