/** The mapper's documented examples. */
module MapperExamples {
  import opened DomainErrors
  import opened Customers
  import opened CustomerMapper
  import opened CustomerExamples

  lemma ToRecordCopiesFields(id: CustomerId)
    ensures ToRecord(Some(Customer(id, ValidName, ValidEmail, ValidCpf)))
         == Some(CustomerRecord(Some(id), Some(ValidName), Some(ValidEmail), Some(ValidCpf)))
    ensures ToRecord(Some(Customer(id, ValidName, "", ValidCpf))).value.email == Some("")
    ensures ToRecord(None) == None
  {
  }

  lemma ToDomainBuildsCustomer(id: CustomerId)
    ensures ToDomain(Some(CustomerRecord(Some(id), Some(ValidName), Some(ValidEmail), Some(ValidCpf))))
         == Ok(Some(Customer(id, ValidName, ValidEmail, ValidCpf)))
    ensures ToDomain(Some(CustomerRecord(Some(id), Some(ValidName), Some(""), Some(ValidCpf))))
         == Ok(Some(Customer(id, ValidName, "", ValidCpf)))
    ensures ToDomain(None) == Ok(None)
  {
    CustomerWithValidData(id);
    CustomerWithoutEmail(id);
  }

  /** Both round trips on the documented customer. */
  lemma RoundTrips(id: CustomerId)
    ensures ToDomain(ToRecord(Some(Customer(id, ValidName, ValidEmail, ValidCpf))))
         == Ok(Some(Customer(id, ValidName, ValidEmail, ValidCpf)))
    ensures var r := CustomerRecord(Some(id), Some(ValidName), Some(ValidEmail), Some(ValidCpf));
      ToDomain(Some(r)).Ok? && ToRecord(ToDomain(Some(r)).value) == Some(r)
  {
    CustomerWithValidData(id);
  }
}
