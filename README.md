# Customer domain layer of tech-challenge-customer, in Dafny

This project models the customer domain layer of the `tech-challenge-customer`
service: the `Customer` entity and its validating builder, the CPF (Brazilian
taxpayer number) check, the email and name normalisation, the use case
`CustomerUseCaseImpl` over its repository port, and the persistence mapper
`CustomerMapper`. The implementation of these classes is known only through
their unit tests, and the cited lines are lines of those tests. Most of the
behaviour below is what those tests pin down. Three points come from the
service's design documentation instead: the builder checks the id first, the
existence check receives the CPF exactly as the caller wrote it, and an
invalid email fails with the exact text "Invalid email format: " followed
by the input. On the second point the model departs from the source on
purpose: it checks existence with the CPF's digits (see "## Findings"), and
`CustomerUseCase.RegisterAsWritten` is the literal version.

Modules, one per file:

- `DomainErrors` (`errors.dfy`): the exceptions as values. `Option` stands for
  `null`, `Result` for "returns or throws", and `Error(kind, message)` for an
  exception's class and message. `NotFound` is a kind of domain error.
- `Text` (`text.dfy`): `String.trim()`, which removes the characters up to
  and including the space from both ends, and ASCII `toLowerCase()`.
- `Cpf` (`cpf.dfy`): the Receita Federal modulo-11 rule. The validator strips
  non-digits, requires exactly 11 digits, rejects a repeated digit, and checks
  both check digits with recursive weighted sums. It is proved equal to a
  reference definition in which the two sums are written out position by
  position.
- `Email` (`email.dfy`): the optional email. Absent or empty becomes "";
  otherwise the value is lower-cased and must have the shape local part, "@",
  domain with at least one dot. A recursive checker is proved equal to a
  quantified reference shape.
- `Customers` (`customer.dfy`): the `Customer` value, the builder `Build`
  (checks run in the order id, name, email, CPF; the first failure is the
  result) and equality on (id, CPF).
- `CustomerRepository` (`repository.dfy`): the repository port over a
  `seq<Customer>` in insertion order.
- `CustomerUseCase` (`use_case.dfy`): `Register`, the pure decision function,
  and the class `CustomerUseCaseImpl`. The class holds the in-memory
  repository, the next fresh id and a ghost log of the port calls made.
  `RegisterCustomer` is a method that changes that state.
- `CustomerMapper` (`mapper.dfy`): `toJpaEntity`/`toDomainEntity` as
  `ToRecord`/`ToDomain` and the two round trips.
- `CustomerExamples`, `MapperExamples` and `UseCaseExamples`: the tests'
  concrete cases, one lemma or scenario method each. The use-case scenarios
  are stated for any inputs of the kind the test uses, on a fresh store.

Ids are `nat`s from a counter standing in for `UUID.randomUUID()`; the only
property the tests use is that a new id differs from every stored one.

The scenario step definitions list `71506168051` among "valid CPFs". Under
the rule its first check digit should be 1, not 5, so the model rejects it
(`Cpf.Rejects71506168051`). That list is consumed inside a `try`/`catch` that
ignores failures, so the rejection is consistent with the code.

## Model

Paths are below `src/test/java/com/fiap/techchallenge/`, written out in full.

| member | source | states |
|---|---|---|
| DomainErrors.IsDomainError | src/test/java/com/fiap/techchallenge/domain/exception/NotFoundExceptionTest.java:79-86 | `instanceof DomainException`: NotFound and Domain errors are domain errors; a null-id or illegal-argument error is not |
| DomainErrors.NotFoundIsDomainError | src/test/java/com/fiap/techchallenge/domain/exception/NotFoundExceptionTest.java:79-86 | a NotFound error, including the lookups' "Record not found", is a domain error |
| Text.Trim | src/test/java/com/fiap/techchallenge/domain/entities/CustomerTest.java:90-103 | the trimmed name has no whitespace at either end, and it is empty exactly when the input is all whitespace |
| Text.TrimSplits | src/test/java/com/fiap/techchallenge/domain/entities/CustomerTest.java:90-103 | the input is whitespace, then the trimmed result, then whitespace: trimming removes only surrounding whitespace |
| Text.TrimPadded | src/test/java/com/fiap/techchallenge/domain/entities/CustomerTest.java:90-103 | whitespace put around a trimmed non-empty name is exactly what trimming removes |
| Text.TrimIdempotent | src/test/java/com/fiap/techchallenge/domain/entities/CustomerTest.java:90-103 | trimming twice is trimming once |
| Text.LowerChar | src/test/java/com/fiap/techchallenge/domain/entities/CustomerTest.java:75-88 | an upper-case ASCII letter moves up by 32 to its lower-case letter; every other character is unchanged; the result is never upper-case |
| Text.ToLower | src/test/java/com/fiap/techchallenge/domain/entities/CustomerTest.java:75-88 | `toLowerCase` keeps the length and lower-cases each character in place |
| Text.ToLowerFixed | src/test/java/com/fiap/techchallenge/domain/entities/CustomerTest.java:75-88 | lower-casing changes a string exactly when it has an upper-case letter, and is idempotent |
| Cpf.Digits | src/test/java/com/fiap/techchallenge/domain/entities/CustomerTest.java:105-118 | stripping keeps only digits, never lengthens, and leaves an all-digit string unchanged |
| Cpf.DigitsIdempotent | src/test/java/com/fiap/techchallenge/domain/entities/CustomerTest.java:105-118 | stripping twice is stripping once |
| Cpf.WeightedSum | src/test/java/com/fiap/techchallenge/domain/entities/CustomerTest.java:301-315 | the recursive weighted sum of the digits is never negative while the weights stay positive, and is 0 on zeros; `Cpf.WeightedSumsAreRule` ties it to the written-out sums |
| Cpf.CheckDigit | src/test/java/com/fiap/techchallenge/domain/entities/CustomerTest.java:301-315 | a check digit is one decimal digit: 0 for remainders 0 and 1, and 11 minus the remainder otherwise |
| Cpf.ValidateCpf | src/test/java/com/fiap/techchallenge/domain/entities/CustomerTest.java:237-338 | an accepted CPF satisfies the reference rule; every rejection is an InvalidCpf error |
| Cpf.WeightedSumsAreRule | src/test/java/com/fiap/techchallenge/domain/entities/CustomerTest.java:301-338 | the recursive sums are d0·10+…+d8·2 and d0·11+…+d9·2 |
| Cpf.ValidateCpfSpec | src/test/java/com/fiap/techchallenge/domain/entities/CustomerTest.java:237-338 | null gives "CPF cannot be null"; a digit count other than 11 gives "CPF must contain exactly 11 digits"; otherwise the CPF is accepted, with its digits, exactly when the reference rule holds, else "Invalid CPF checksum" |
| Cpf.ValidateIgnoresFormatting | src/test/java/com/fiap/techchallenge/domain/entities/CustomerTest.java:105-118 | validating a formatted CPF is validating its digits |
| Cpf.RepeatedDigitRejected | src/test/java/com/fiap/techchallenge/domain/entities/CustomerTest.java:285-299 | eleven copies of one digit are rejected with the checksum message, including 00000000000, which the sums alone would accept |
| Cpf.CheckDigitsDetermined | src/test/java/com/fiap/techchallenge/domain/entities/CustomerTest.java:301-338 | two valid CPFs with the same first nine digits are equal |
| Cpf.Accepts | src/test/java/com/fiap/techchallenge/domain/entities/CustomerTest.java:317-338 | a valid CPF is accepted and returned unchanged |
| Cpf.Rejects | src/test/java/com/fiap/techchallenge/domain/entities/CustomerTest.java:285-315 | eleven digits that break the rule give "Invalid CPF checksum" |
| Cpf.Accepts11144477735 | src/test/java/com/fiap/techchallenge/domain/entities/CustomerTest.java:321-325 | 11144477735 is accepted |
| Cpf.Accepts52998224725 | src/test/java/com/fiap/techchallenge/domain/entities/CustomerTest.java:321-325 | 52998224725 is accepted |
| Cpf.Accepts39053344705 | src/test/java/com/fiap/techchallenge/domain/entities/CustomerTest.java:321-325 | 39053344705 is accepted |
| Cpf.Accepts12345678909 | src/test/java/com/fiap/techchallenge/bdd/CustomerStepDefinitions.java:182-185 | 12345678909 is accepted |
| Cpf.Accepts98765432100 | src/test/java/com/fiap/techchallenge/bdd/CustomerStepDefinitions.java:182-185 | 98765432100 is accepted |
| Cpf.Accepts84394789508 | src/test/java/com/fiap/techchallenge/bdd/CustomerStepDefinitions.java:182-185 | 84394789508 is accepted |
| Cpf.Rejects71506168051 | src/test/java/com/fiap/techchallenge/bdd/CustomerStepDefinitions.java:182-200 | 71506168051 fails its first check digit; the scenario step ignores the failure |
| Cpf.FormattedDigits | src/test/java/com/fiap/techchallenge/domain/entities/CustomerTest.java:105-118 | the digits of 111.444.777-35 are 11144477735 |
| Cpf.AcceptsFormatted11144477735 | src/test/java/com/fiap/techchallenge/domain/entities/CustomerTest.java:105-118 | 111.444.777-35 is accepted as 11144477735 |
| Cpf.Rejects12345678901 | src/test/java/com/fiap/techchallenge/domain/entities/CustomerTest.java:301-315 | 12345678901 passes the first check digit and fails the second |
| Cpf.RejectsRepeatedOnes | src/test/java/com/fiap/techchallenge/domain/entities/CustomerTest.java:285-299 | 11111111111 gives "Invalid CPF checksum" |
| Cpf.RejectsMissing | src/test/java/com/fiap/techchallenge/domain/entities/CustomerTest.java:237-251 | a null CPF gives "CPF cannot be null" |
| Cpf.RejectsShort | src/test/java/com/fiap/techchallenge/domain/entities/CustomerTest.java:253-267 | 123456789 gives "CPF must contain exactly 11 digits" |
| Cpf.RejectsLong | src/test/java/com/fiap/techchallenge/domain/entities/CustomerTest.java:269-283 | 123456789012 gives "CPF must contain exactly 11 digits" |
| Email.IndexOfAt | src/test/java/com/fiap/techchallenge/domain/entities/CustomerTest.java:178-230 | the position found is the first "@", or the length when there is none |
| Email.NormalizeEmail | src/test/java/com/fiap/techchallenge/domain/entities/CustomerTest.java:44-88 | a normalised email is lower-case and is "" or an address; every rejection is an InvalidEmail error |
| Email.WellFormedMeans | src/test/java/com/fiap/techchallenge/domain/entities/CustomerTest.java:178-230 | the recursive pattern check holds exactly for the quantified address shape |
| Email.DomainMeans | src/test/java/com/fiap/techchallenge/domain/entities/CustomerTest.java:194-230 | the recursive label grammar with a dot is exactly the quantified domain shape |
| Email.NormalizeEmailSpec | src/test/java/com/fiap/techchallenge/domain/entities/CustomerTest.java:44-88 | null or "" gives ""; otherwise the result is the lower-cased input when that is an address, else the format error naming the original input |
| Email.NormalizeEmailIdempotent | src/test/java/com/fiap/techchallenge/domain/entities/CustomerTest.java:75-88 | normalising a normalised email gives it back |
| Email.AddressFromParts | src/test/java/com/fiap/techchallenge/domain/entities/CustomerTest.java:208-230 | a local part, "@" and a domain make an address |
| Email.AcceptsLowerCase | src/test/java/com/fiap/techchallenge/domain/entities/CustomerTest.java:208-230 | a lower-case address is accepted unchanged |
| Email.ToLowerAppend | src/test/java/com/fiap/techchallenge/domain/entities/CustomerTest.java:75-88 | lower-casing distributes over concatenation |
| Email.AcceptsPlainAddress | src/test/java/com/fiap/techchallenge/domain/entities/CustomerTest.java:212-213 | test@example.com is accepted |
| Email.AcceptsDottedAddress | src/test/java/com/fiap/techchallenge/domain/entities/CustomerTest.java:214 | test.name@example.com is accepted |
| Email.AcceptsTaggedAddress | src/test/java/com/fiap/techchallenge/domain/entities/CustomerTest.java:215 | test+tag@example.co.uk is accepted |
| Email.AcceptsUnderscoreAddress | src/test/java/com/fiap/techchallenge/domain/entities/CustomerTest.java:216 | test_underscore@example.com is accepted |
| Email.AcceptsCustomerAddress | src/test/java/com/fiap/techchallenge/domain/entities/CustomerTest.java:18 | joao.silva@example.com is accepted |
| Email.AcceptsDifferentAddress | src/test/java/com/fiap/techchallenge/domain/entities/CustomerTest.java:378-383 | different@email.com is accepted |
| Email.AcceptsUpperCaseAddress | src/test/java/com/fiap/techchallenge/domain/entities/CustomerTest.java:75-88 | JOAO.SILVA@EXAMPLE.COM is stored as joao.silva@example.com |
| Email.RejectsAddressWithoutAt | src/test/java/com/fiap/techchallenge/domain/entities/CustomerTest.java:178-192 | invalid-email is rejected with the format error naming it |
| Email.RejectsAddressWithoutDomain | src/test/java/com/fiap/techchallenge/domain/entities/CustomerTest.java:194-206 | test@ is rejected with the format error |
| Email.AcceptsMissingEmail | src/test/java/com/fiap/techchallenge/domain/entities/CustomerTest.java:43-73 | null and "" are both accepted as "" |
| Customers.NormalizeName | src/test/java/com/fiap/techchallenge/domain/entities/CustomerTest.java:90-171 | a name is accepted exactly when present and not all whitespace, and is kept as its trimmed form, non-empty; otherwise "Name cannot be null or empty" |
| Customers.Build | src/test/java/com/fiap/techchallenge/domain/entities/CustomerTest.java:24-360 | a built customer is valid and keeps the given id; failures are only of the four validation kinds |
| Customers.BuildSpec | src/test/java/com/fiap/techchallenge/domain/entities/CustomerTest.java:24-360 | building succeeds exactly when id, name, email and CPF are each acceptable; it then stores the id, the trimmed name, the stored email and the CPF's digits; otherwise it reports the first failing field in the order id, name, email, CPF |
| Customers.BuildStoresDigits | src/test/java/com/fiap/techchallenge/domain/entities/CustomerTest.java:105-118 | the stored CPF is the input's digits |
| Customers.RebuildValid | src/test/java/com/fiap/techchallenge/domain/entities/CustomerTest.java:26-41 | a valid customer rebuilt from its own fields is itself |
| Customers.NameKept | src/test/java/com/fiap/techchallenge/domain/entities/CustomerTest.java:26-41 | a trimmed non-empty name is kept as it is |
| Customers.EmailKept | src/test/java/com/fiap/techchallenge/domain/entities/CustomerTest.java:26-73 | a stored email passes normalisation unchanged |
| Customers.BuildIdempotent | src/test/java/com/fiap/techchallenge/domain/entities/CustomerTest.java:26-118 | building again from a built customer's fields gives the same customer |
| Customers.SameCustomer | src/test/java/com/fiap/techchallenge/domain/entities/CustomerTest.java:366-456 | `equals`: reflexive on identical customers, and true exactly when the two differ at most in name and email |
| Customers.EqualityIgnoresContact | src/test/java/com/fiap/techchallenge/domain/entities/CustomerTest.java:366-410 | two customers built from the same CPF are equal exactly when their ids are, whatever their names and emails |
| Customers.SameCustomerIsEquivalence | src/test/java/com/fiap/techchallenge/domain/entities/CustomerTest.java:412-425 | equality is reflexive, symmetric and transitive |
| CustomerExamples.CustomerWithValidData | src/test/java/com/fiap/techchallenge/domain/entities/CustomerTest.java:26-41 | the documented customer is built with its fields unchanged |
| CustomerExamples.CustomerWithoutEmail | src/test/java/com/fiap/techchallenge/domain/entities/CustomerTest.java:43-73 | an empty or null email is stored as "" |
| CustomerExamples.CustomerEmailLowerCased | src/test/java/com/fiap/techchallenge/domain/entities/CustomerTest.java:75-88 | the upper-case email is stored lower-cased |
| CustomerExamples.PaddedNameTrimmed | src/test/java/com/fiap/techchallenge/domain/entities/CustomerTest.java:90-103 | "  João da Silva  " normalises to "João da Silva" |
| CustomerExamples.CustomerNameTrimmed | src/test/java/com/fiap/techchallenge/domain/entities/CustomerTest.java:90-103 | the padded name is stored trimmed |
| CustomerExamples.CustomerCpfFormatted | src/test/java/com/fiap/techchallenge/domain/entities/CustomerTest.java:105-118 | 111.444.777-35 is stored as 11144477735 |
| CustomerExamples.BlankNamesRejected | src/test/java/com/fiap/techchallenge/domain/entities/CustomerTest.java:125-171 | a null, empty or blank name is rejected |
| CustomerExamples.CustomerNameMissing | src/test/java/com/fiap/techchallenge/domain/entities/CustomerTest.java:125-171 | building with a null, empty or blank name fails with "Name cannot be null or empty" |
| CustomerExamples.CustomerEmailWithoutAt | src/test/java/com/fiap/techchallenge/domain/entities/CustomerTest.java:178-192 | building with invalid-email fails with InvalidEmail |
| CustomerExamples.FormatMessagePrefix | src/test/java/com/fiap/techchallenge/domain/entities/CustomerTest.java:191 | every format error message contains "Invalid email format" |
| CustomerExamples.CustomerEmailWithoutDomain | src/test/java/com/fiap/techchallenge/domain/entities/CustomerTest.java:194-206 | building with test@ fails with InvalidEmail |
| CustomerExamples.CustomerPlainEmailAccepted | src/test/java/com/fiap/techchallenge/domain/entities/CustomerTest.java:208-230 | building with test@example.com succeeds |
| CustomerExamples.CustomerDottedEmailAccepted | src/test/java/com/fiap/techchallenge/domain/entities/CustomerTest.java:208-230 | building with test.name@example.com succeeds |
| CustomerExamples.CustomerTaggedEmailAccepted | src/test/java/com/fiap/techchallenge/domain/entities/CustomerTest.java:208-230 | building with test+tag@example.co.uk succeeds |
| CustomerExamples.CustomerUnderscoreEmailAccepted | src/test/java/com/fiap/techchallenge/domain/entities/CustomerTest.java:208-230 | building with test_underscore@example.com succeeds |
| CustomerExamples.CustomerCpfMalformed | src/test/java/com/fiap/techchallenge/domain/entities/CustomerTest.java:237-283 | a null CPF and 9 or 12 digits fail with their messages |
| CustomerExamples.CustomerCpfChecksumFails | src/test/java/com/fiap/techchallenge/domain/entities/CustomerTest.java:285-315 | 11111111111 and 12345678901 fail with "Invalid CPF checksum" |
| CustomerExamples.CustomerCpf52998224725Accepted | src/test/java/com/fiap/techchallenge/domain/entities/CustomerTest.java:317-338 | building with 52998224725 succeeds |
| CustomerExamples.CustomerCpf39053344705Accepted | src/test/java/com/fiap/techchallenge/domain/entities/CustomerTest.java:317-338 | building with 39053344705 succeeds |
| CustomerExamples.CustomerIdMissing | src/test/java/com/fiap/techchallenge/domain/entities/CustomerTest.java:345-359 | a null id fails with "ID cannot be null" |
| CustomerExamples.CustomerWithOtherContact | src/test/java/com/fiap/techchallenge/domain/entities/CustomerTest.java:378-383 | the second customer of the equality test is built |
| CustomerExamples.CustomerEquality | src/test/java/com/fiap/techchallenge/domain/entities/CustomerTest.java:366-410 | same id and CPF with other contact: equal; other id: not equal |
| CustomerRepository.ExistsByCpf | src/test/java/com/fiap/techchallenge/application/usecases/CustomerUseCaseImplTest.java:62-136 | `existsByCpf`: true exactly when some stored customer has this CPF, so never on an empty store |
| CustomerRepository.ExistsById | src/test/java/com/fiap/techchallenge/application/usecases/CustomerUseCaseImplTest.java:199-232 | the membership `findById` relies on: true exactly when some stored customer has this id, so never on an empty store |
| CustomerRepository.FindFirst | src/test/java/com/fiap/techchallenge/application/usecases/CustomerUseCaseImplTest.java:161-232 | the position found is the first stored customer matching, and none means no stored customer matches |
| CustomerRepository.FindByCpf | src/test/java/com/fiap/techchallenge/application/usecases/CustomerUseCaseImplTest.java:161-192 | a customer found is stored and has the CPF; nothing is found exactly when no stored customer has it |
| CustomerRepository.FindById | src/test/java/com/fiap/techchallenge/application/usecases/CustomerUseCaseImplTest.java:199-232 | a customer found is stored and has the id; nothing is found exactly when no stored customer has it |
| CustomerRepository.Save | src/test/java/com/fiap/techchallenge/application/usecases/CustomerUseCaseImplTest.java:102-120 | saving appends the customer after the stored ones and keeps them |
| CustomerRepository.FindByCpfFindsStored | src/test/java/com/fiap/techchallenge/application/usecases/CustomerUseCaseImplTest.java:161-177 | with CPFs unique, a stored customer is found by its CPF |
| CustomerRepository.FindByIdFindsStored | src/test/java/com/fiap/techchallenge/application/usecases/CustomerUseCaseImplTest.java:199-216 | with ids unique, a stored customer is found by its id |
| CustomerRepository.SaveKeepsCpfsUnique | src/test/java/com/fiap/techchallenge/application/usecases/CustomerUseCaseImplTest.java:122-136 | saving a customer whose CPF is not stored keeps CPFs unique |
| CustomerRepository.SaveOfStoredCpfDuplicates | src/test/java/com/fiap/techchallenge/application/usecases/CustomerUseCaseImplTest.java:122-136 | saving a customer whose CPF is stored breaks uniqueness, which is why the check comes first |
| CustomerRepository.SaveKeepsIdsUnique | src/test/java/com/fiap/techchallenge/application/usecases/CustomerUseCaseImplTest.java:138-153 | saving a customer with an id above all stored ones keeps ids unique |
| CustomerUseCase.LookupKeyIgnoresFormatting | src/test/java/com/fiap/techchallenge/application/usecases/CustomerUseCaseImplTest.java:58-76 | the corrected existence key is the same for a formatted CPF and for its digits; the source passes the raw string instead |
| CustomerUseCase.Register | src/test/java/com/fiap/techchallenge/application/usecases/CustomerUseCaseImplTest.java:58-153 | with the corrected key (the CPF's digits, where the source passes the raw string): a stored CPF gives "Customer with CPF <cpf> already exists"; otherwise the result is the customer built with the fresh id, which is valid and whose CPF is not stored |
| CustomerUseCase.RegisterKeepsConsistent | src/test/java/com/fiap/techchallenge/application/usecases/CustomerUseCaseImplTest.java:58-153 | saving a registered customer and advancing the id keeps every stored customer valid and ids and CPFs unique |
| CustomerUseCase.SecondRegistrationRefused | src/test/java/com/fiap/techchallenge/application/usecases/CustomerUseCaseImplTest.java:122-136 | after a registration, the same CPF in any written form is refused with the duplicate error |
| CustomerUseCase.SuccessiveRegistrationsDistinct | src/test/java/com/fiap/techchallenge/application/usecases/CustomerUseCaseImplTest.java:138-153 | two successive registrations give different ids and CPFs |
| CustomerUseCase.RegisterAsWritten | src/test/java/com/fiap/techchallenge/application/usecases/CustomerUseCaseImplTest.java:122-136 | the existence check on the raw CPF: a built customer is valid with the fresh id, and a raw CPF stored verbatim is refused |
| CustomerUseCase.AsWrittenAdmitsDuplicateCpf | src/test/java/com/fiap/techchallenge/application/usecases/CustomerUseCaseImplTest.java:122-136 | with 11144477735 stored, the raw check accepts 111.444.777-35 and the store then holds the CPF twice |
| CustomerUseCase.CorrectedRefusesDuplicateCpf | src/test/java/com/fiap/techchallenge/application/usecases/CustomerUseCaseImplTest.java:122-136 | the check on the digits refuses the same input |
| CustomerUseCase.CustomerUseCaseImpl.constructor | src/test/java/com/fiap/techchallenge/application/usecases/CustomerUseCaseImplTest.java:272-285 | a new use case has an empty store, the first fresh id and no port calls |
| CustomerUseCase.CustomerUseCaseImpl.RegisterCustomer | src/test/java/com/fiap/techchallenge/application/usecases/CustomerUseCaseImplTest.java:58-153 | the result is `Register` on the old state; it calls `existsByCpf` once, with the CPF's digits where the source passes the raw string, then `save` once with the returned customer only on success; the store grows by that customer and the id advances only on success; consistency is preserved |
| CustomerUseCase.CustomerUseCaseImpl.FindCustomerByCpf | src/test/java/com/fiap/techchallenge/application/usecases/CustomerUseCaseImplTest.java:160-192 | succeeds exactly when the CPF is stored, with a stored customer having it; otherwise "Record not found" |
| CustomerUseCase.CustomerUseCaseImpl.FindCustomerById | src/test/java/com/fiap/techchallenge/application/usecases/CustomerUseCaseImplTest.java:199-232 | succeeds exactly when the id is stored, with a stored customer having it; otherwise "Record not found" |
| CustomerUseCase.CustomerUseCaseImpl.FindCustomerAll | src/test/java/com/fiap/techchallenge/application/usecases/CustomerUseCaseImplTest.java:239-304 | the stored customers, in order |
| CustomerUseCase.CustomerUseCaseImpl.StoredCustomersFound | src/test/java/com/fiap/techchallenge/application/usecases/CustomerUseCaseImplTest.java:160-216 | in a consistent state each stored customer is found by its CPF and by its id |
| UseCaseExamples.RegisterOnce | src/test/java/com/fiap/techchallenge/application/usecases/CustomerUseCaseImplTest.java:58-120 | a first registration returns the built customer, which is then the only one stored; the port saw one `existsByCpf` and one `save` |
| UseCaseExamples.RegisterSucceeds | src/test/java/com/fiap/techchallenge/application/usecases/CustomerUseCaseImplTest.java:58-99 | what `save` receives is what is returned and listed |
| UseCaseExamples.RegisterDuplicate | src/test/java/com/fiap/techchallenge/application/usecases/CustomerUseCaseImplTest.java:122-136 | a second registration of a stored CPF fails with the duplicate message and makes no `save` call |
| UseCaseExamples.RegisterTwo | src/test/java/com/fiap/techchallenge/application/usecases/CustomerUseCaseImplTest.java:138-153 | two registrations with different CPFs succeed with different ids and are listed in order |
| UseCaseExamples.FindAfterRegister | src/test/java/com/fiap/techchallenge/application/usecases/CustomerUseCaseImplTest.java:160-216 | after registering, the customer is found by CPF and by id |
| UseCaseExamples.MissingAfterRegister | src/test/java/com/fiap/techchallenge/application/usecases/CustomerUseCaseImplTest.java:179-232 | any other CPF or id gives "Record not found" |
| UseCaseExamples.FindInEmpty | src/test/java/com/fiap/techchallenge/application/usecases/CustomerUseCaseImplTest.java:272-285 | an empty store lists nothing and finds nothing |
| CustomerMapper.ToRecord | src/test/java/com/fiap/techchallenge/application/usecases/mappers/CustomerMapperTest.java:25-95 | null maps to null; otherwise every field is copied unchanged |
| CustomerMapper.ToDomain | src/test/java/com/fiap/techchallenge/application/usecases/mappers/CustomerMapperTest.java:102-172 | null maps to null; a converted record gives a valid customer with the record's id |
| CustomerMapper.DomainRoundTrip | src/test/java/com/fiap/techchallenge/application/usecases/mappers/CustomerMapperTest.java:179-199 | domain, then record, then domain gives back every valid customer unchanged |
| CustomerMapper.RecordRoundTrip | src/test/java/com/fiap/techchallenge/application/usecases/mappers/CustomerMapperTest.java:201-221 | record, then domain, then record keeps the id, trims the name, lower-cases the email ("" for none) and keeps the CPF's digits |
| CustomerMapper.CanonicalRecordRoundTrip | src/test/java/com/fiap/techchallenge/application/usecases/mappers/CustomerMapperTest.java:201-221 | a record with a trimmed name and a digits-only CPF comes back the same except for its lower-cased email |
| CustomerMapper.EmptyEmailPreserved | src/test/java/com/fiap/techchallenge/application/usecases/mappers/CustomerMapperTest.java:57-74 | an empty email stays "" in both directions |
| MapperExamples.ToRecordCopiesFields | src/test/java/com/fiap/techchallenge/application/usecases/mappers/CustomerMapperTest.java:25-95 | the documented customer, and one without email, are copied field by field; null gives null |
| MapperExamples.ToDomainBuildsCustomer | src/test/java/com/fiap/techchallenge/application/usecases/mappers/CustomerMapperTest.java:102-172 | the documented record, and one with an empty email, convert to the expected customer; null gives null |
| MapperExamples.RoundTrips | src/test/java/com/fiap/techchallenge/application/usecases/mappers/CustomerMapperTest.java:179-221 | both round trips hold on the documented customer |

## Left out

- The REST controller, exception handler, presenter, gateway, JPA entity and
  Spring configuration: they are transport, persistence and wiring around
  the core.
- The scenario step definitions and their database hooks: only their CPF
  list is used, as test vectors.
- `UUID.randomUUID()`: ids come from a counter that starts at 0. The tests
  rely only on a new id differing from all earlier ones.
- `hashCode` and `toString`: only equality on (id, CPF) is modelled.
- Exception cause chaining and the `RuntimeException` hierarchy: an error is
  its kind and its message.
- Unicode: `trim` removes the characters up to the space, and lower-casing
  maps only the ASCII letters A-Z.
- The email pattern of the implementation is not visible. The model uses a
  conservative shape that agrees with every case in the tests: local
  characters are letters, digits and `._+-`, then one "@", then dot-separated
  non-empty labels of letters, digits and `-`, with at least one dot.
- A null lookup key in `findCustomerByCpf` and a null id in
  `findCustomerById`: lookups take a present string, and the id parameter is
  a `nat`, which has no null.
- The repository port is an in-memory sequence. The model has no mocks
  that return values unrelated to what was saved, and no concurrent
  registrations (the check-then-insert race belongs to storage).
- CustomerUseCase.CustomerUseCaseImpl.RegisterCustomer: the fresh id comes
  from a counter that advances only on success, where the source draws a
  random UUID every time.
- CustomerUseCase.CustomerUseCaseImpl.RegisterCustomer: `existsByCpf` is
  asked about `Digits(cpf)`, where the source passes the raw string; the
  literal behaviour is `CustomerUseCase.RegisterAsWritten`.

## Findings

| source | as written | input that shows it | evidently intended | confidence | as-written member | corrected member |
|---|---|---|---|---|---|---|
| src/test/java/com/fiap/techchallenge/application/usecases/CustomerUseCaseImplTest.java:122-136 | `registerCustomer` asks `existsByCpf` about the CPF exactly as the caller wrote it, but customers are stored with the digits only | with 11144477735 stored, registering 111.444.777-35 passes the check and stores 11144477735 a second time | check existence with the stripped digits, so duplicates that differ only in formatting are refused | not executed | CustomerUseCase.AsWrittenAdmitsDuplicateCpf | CustomerUseCase.CorrectedRefusesDuplicateCpf |
