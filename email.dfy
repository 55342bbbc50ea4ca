/** The email validator: an optional field, stored lower-cased, that must
    have the shape local-part "@" dotted domain when present. */
module Email {
  import opened DomainErrors
  import opened Text

  const FormatMessage := "Invalid email format: "

  predicate IsAlphanumeric(c: char) {
    'a' <= c <= 'z' || 'A' <= c <= 'Z' || '0' <= c <= '9'
  }

  /** Characters allowed before the "@". */
  predicate IsLocalChar(c: char) {
    IsAlphanumeric(c) || c == '.' || c == '_' || c == '+' || c == '-'
  }

  /** Characters allowed inside one label of the domain. */
  predicate IsLabelChar(c: char) {
    IsAlphanumeric(c) || c == '-'
  }

  predicate AllLocalChars(s: string)
    decreases |s|
  {
    s == [] || (IsLocalChar(s[0]) && AllLocalChars(s[1..]))
  }

  /** One or more non-empty labels joined by single dots. */
  predicate IsLabels(d: string)
    decreases |d|
  {
    && |d| > 0
    && IsLabelChar(d[0])
    && (|d| == 1 || if d[1] == '.' then |d| > 2 && IsLabels(d[2..]) else IsLabels(d[1..]))
  }

  predicate HasDot(d: string)
    decreases |d|
  {
    d != [] && (d[0] == '.' || HasDot(d[1..]))
  }

  /** Position of the first "@", or |s| when there is none. */
  function IndexOfAt(s: string): (k: nat)
    ensures k <= |s|
    ensures forall j :: 0 <= j < k ==> s[j] != '@'
    ensures k < |s| ==> s[k] == '@'
    decreases |s|
  {
    if s == [] then 0 else if s[0] == '@' then 0 else 1 + IndexOfAt(s[1..])
  }

  /** The email pattern: a non-empty local part, one "@", and a domain of at
      least two labels. */
  predicate IsWellFormed(s: string) {
    var k := IndexOfAt(s);
    0 < k < |s| && AllLocalChars(s[..k]) && IsLabels(s[k + 1..]) && HasDot(s[k + 1..])
  }

  /** Normalises an optional email: absent or empty means no email; anything
      else is lower-cased and must be well formed. */
  function NormalizeEmail(raw: Option<string>): (r: Result<string>)
    ensures r.Ok? ==> IsLowerCase(r.value)
    ensures r.Ok? ==> r.value == "" || IsEmailAddress(r.value)
    ensures r.Err? ==> r.error.kind == InvalidEmail
  {
    if raw.None? || raw.value == "" then Ok("")
    else
      var e := ToLower(raw.value);
      ToLowerFixed(raw.value);
      WellFormedMeans(e);
      if IsWellFormed(e) then Ok(e) else Err(Error(InvalidEmail, FormatMessage + raw.value))
  }

  // ---------------------------------------------------------------------
  // Reference definition: the shape stated with quantifiers.

  /** A domain: label and dot characters only, at least one dot, no dot at
      either end and no two dots in a row. */
  ghost predicate IsDomain(d: string) {
    && |d| > 0
    && (forall i :: 0 <= i < |d| ==> IsLabelChar(d[i]) || d[i] == '.')
    && d[0] != '.' && d[|d| - 1] != '.'
    && (forall i :: 0 <= i < |d| - 1 && d[i] == '.' ==> d[i + 1] != '.')
    && (exists i :: 0 <= i < |d| && d[i] == '.')
  }

  /** An address: some "@" whose left side is a non-empty run of local
      characters and whose right side is a domain. */
  ghost predicate IsEmailAddress(s: string) {
    exists k :: 0 < k < |s| && s[k] == '@'
      && (forall i :: 0 <= i < k ==> IsLocalChar(s[i]))
      && IsDomain(s[k + 1..])
  }

  lemma {:induction false} AllLocalCharsMeans(s: string)
    ensures AllLocalChars(s) <==> forall i :: 0 <= i < |s| ==> IsLocalChar(s[i])
    decreases |s|
  {
    if s != [] {
      AllLocalCharsMeans(s[1..]);
      assert forall i :: 1 <= i < |s| ==> s[i] == s[1..][i - 1];
    }
  }

  lemma {:induction false} HasDotMeans(d: string)
    ensures HasDot(d) <==> exists i :: 0 <= i < |d| && d[i] == '.'
    decreases |d|
  {
    if d != [] {
      HasDotMeans(d[1..]);
      if d[0] != '.' && exists i :: 0 <= i < |d| && d[i] == '.' {
        var i :| 0 <= i < |d| && d[i] == '.';
        assert d[1..][i - 1] == '.';
      }
    }
  }

  /** The recursive label grammar is the quantified shape, less the
      requirement of a dot. */
  lemma {:induction false} IsLabelsMeans(d: string)
    ensures IsLabels(d) <==>
      && |d| > 0
      && (forall i :: 0 <= i < |d| ==> IsLabelChar(d[i]) || d[i] == '.')
      && d[0] != '.' && d[|d| - 1] != '.'
      && (forall i :: 0 <= i < |d| - 1 && d[i] == '.' ==> d[i + 1] != '.')
    decreases |d|
  {
    if |d| > 1 {
      if d[1] == '.' {
        if |d| > 2 {
          IsLabelsMeans(d[2..]);
          assert forall i :: 2 <= i < |d| ==> d[i] == d[2..][i - 2];
        }
      } else {
        IsLabelsMeans(d[1..]);
        assert forall i :: 1 <= i < |d| ==> d[i] == d[1..][i - 1];
      }
    }
  }

  lemma DomainMeans(d: string)
    ensures IsLabels(d) && HasDot(d) <==> IsDomain(d)
  {
    IsLabelsMeans(d);
    HasDotMeans(d);
  }

  lemma WellFormedIsAddress(s: string)
    requires IsWellFormed(s)
    ensures IsEmailAddress(s)
  {
    var k := IndexOfAt(s);
    AllLocalCharsMeans(s[..k]);
    DomainMeans(s[k + 1..]);
    assert forall i :: 0 <= i < k ==> s[i] == s[..k][i];
    assert s[k] == '@';
  }

  /** `IndexOfAt` finds the first "@". */
  lemma IndexOfAtFirst(s: string, k: nat)
    requires k < |s| && s[k] == '@'
    requires forall i :: 0 <= i < k ==> s[i] != '@'
    ensures IndexOfAt(s) == k
  {
  }

  lemma LocalPartIsWellFormed(s: string, k: nat)
    requires k <= |s| && forall i :: 0 <= i < k ==> IsLocalChar(s[i])
    ensures AllLocalChars(s[..k])
  {
    AllLocalCharsMeans(s[..k]);
  }

  lemma DomainIsWellFormed(d: string)
    requires IsDomain(d)
    ensures IsLabels(d) && HasDot(d)
  {
    DomainMeans(d);
  }

  lemma AddressIsWellFormed(s: string)
    requires IsEmailAddress(s)
    ensures IsWellFormed(s)
  {
    var k :| 0 < k < |s| && s[k] == '@'
      && (forall i :: 0 <= i < k ==> IsLocalChar(s[i]))
      && IsDomain(s[k + 1..]);
    IndexOfAtFirst(s, k);
    LocalPartIsWellFormed(s, k);
    DomainIsWellFormed(s[k + 1..]);
  }

  /** The pattern check accepts exactly the addresses. */
  lemma WellFormedMeans(s: string)
    ensures IsWellFormed(s) <==> IsEmailAddress(s)
  {
    if IsWellFormed(s) {
      WellFormedIsAddress(s);
    }
    if IsEmailAddress(s) {
      AddressIsWellFormed(s);
    }
  }

  /** What normalisation returns: "" for no email, otherwise the lower-cased
      input when that is an address, and the format error carrying the
      original input when it is not. */
  lemma NormalizeEmailSpec(raw: Option<string>)
    ensures raw.None? || raw.value == "" ==> NormalizeEmail(raw) == Ok("")
    ensures raw.Some? && raw.value != "" ==>
      (NormalizeEmail(raw).Ok? <==> IsEmailAddress(ToLower(raw.value)))
    ensures raw.Some? && raw.value != "" && NormalizeEmail(raw).Ok? ==>
      NormalizeEmail(raw).value == ToLower(raw.value)
    ensures raw.Some? && raw.value != "" && NormalizeEmail(raw).Err? ==>
      NormalizeEmail(raw).error == Error(InvalidEmail, FormatMessage + raw.value)
  {
    if raw.Some? && raw.value != "" {
      WellFormedMeans(ToLower(raw.value));
    }
  }

  /** Normalising a normalised email gives it back. */
  lemma NormalizeEmailIdempotent(raw: Option<string>)
    requires NormalizeEmail(raw).Ok?
    ensures NormalizeEmail(Some(NormalizeEmail(raw).value)) == NormalizeEmail(raw)
  {
    var e := NormalizeEmail(raw).value;
    if e != "" {
      ToLowerFixed(e);
    }
  }

  /** An address assembled from a local part and a domain. */
  lemma AddressFromParts(local: string, domain: string)
    requires local != [] && forall i :: 0 <= i < |local| ==> IsLocalChar(local[i])
    requires IsDomain(domain)
    ensures IsEmailAddress(local + ['@'] + domain)
  {
    var s := local + ['@'] + domain;
    assert s[|local|] == '@';
    assert s[|local| + 1..] == domain;
    assert forall i :: 0 <= i < |local| ==> s[i] == local[i];
  }

  lemma AcceptsLowerCase(e: string)
    requires e != "" && IsLowerCase(e) && IsEmailAddress(e)
    ensures NormalizeEmail(Some(e)) == Ok(e)
  {
    ToLowerFixed(e);
    NormalizeEmailSpec(Some(e));
  }

  /** Lower-casing works piece by piece. */
  lemma ToLowerAppend(a: string, b: string)
    ensures ToLower(a + b) == ToLower(a) + ToLower(b)
  {
    assert forall i :: 0 <= i < |a + b| ==> ToLower(a + b)[i] == (ToLower(a) + ToLower(b))[i];
  }

  // Test vectors of the source, one lemma per literal fact. For each address
  // the `…LocalPart`, `…AddressSplits`, `…AddressLowerCase` and
  // `…AddressShape` lemmas (and the `…Piece…Lowers` lemmas for the
  // upper-case one) are only proof steps that split the literal into small
  // pieces; the `Accepts…` and `Rejects…` lemmas are the readable examples.

  lemma ExampleComIsDomain()
    ensures IsDomain("example.com")
  {
    assert "example.com"[7] == '.';
  }

  lemma ExampleCoUkIsDomain()
    ensures IsDomain("example.co.uk")
  {
    assert "example.co.uk"[7] == '.';
  }

  lemma PlainLocalPart()
    ensures forall i :: 0 <= i < |"test"| ==> IsLocalChar("test"[i])
  {
  }

  lemma PlainAddressSplits()
    ensures "test" + ['@'] + "example.com" == "test@example.com"
  {
  }

  lemma PlainAddressShape()
    ensures IsEmailAddress("test@example.com")
  {
    PlainLocalPart();
    ExampleComIsDomain();
    AddressFromParts("test", "example.com");
    PlainAddressSplits();
  }

  lemma PlainAddressLowerCase()
    ensures IsLowerCase("test@example.com")
  {
  }

  lemma AcceptsPlainAddress()
    ensures NormalizeEmail(Some("test@example.com")) == Ok("test@example.com")
  {
    PlainAddressShape();
    PlainAddressLowerCase();
    AcceptsLowerCase("test@example.com");
  }

  lemma DottedLocalPart()
    ensures forall i :: 0 <= i < |"test.name"| ==> IsLocalChar("test.name"[i])
  {
  }

  lemma DottedAddressSplits()
    ensures "test.name" + ['@'] + "example.com" == "test.name@example.com"
  {
  }

  lemma DottedAddressShape()
    ensures IsEmailAddress("test.name@example.com")
  {
    DottedLocalPart();
    ExampleComIsDomain();
    AddressFromParts("test.name", "example.com");
    DottedAddressSplits();
  }

  lemma DottedAddressLowerCase()
    ensures IsLowerCase("test.name@example.com")
  {
  }

  lemma AcceptsDottedAddress()
    ensures NormalizeEmail(Some("test.name@example.com")) == Ok("test.name@example.com")
  {
    DottedAddressShape();
    DottedAddressLowerCase();
    AcceptsLowerCase("test.name@example.com");
  }

  lemma TaggedLocalPart()
    ensures forall i :: 0 <= i < |"test+tag"| ==> IsLocalChar("test+tag"[i])
  {
  }

  lemma TaggedAddressSplits()
    ensures "test+tag" + ['@'] + "example.co.uk" == "test+tag@example.co.uk"
  {
  }

  lemma TaggedAddressShape()
    ensures IsEmailAddress("test+tag@example.co.uk")
  {
    TaggedLocalPart();
    ExampleCoUkIsDomain();
    AddressFromParts("test+tag", "example.co.uk");
    TaggedAddressSplits();
  }

  lemma TaggedAddressLowerCase()
    ensures IsLowerCase("test+tag@example.co.uk")
  {
  }

  lemma AcceptsTaggedAddress()
    ensures NormalizeEmail(Some("test+tag@example.co.uk")) == Ok("test+tag@example.co.uk")
  {
    TaggedAddressShape();
    TaggedAddressLowerCase();
    AcceptsLowerCase("test+tag@example.co.uk");
  }

  lemma UnderscoreLocalPart()
    ensures forall i :: 0 <= i < |"test_underscore"| ==> IsLocalChar("test_underscore"[i])
  {
  }

  lemma UnderscoreAddressSplits()
    ensures "test_underscore" + ['@'] + "example.com" == "test_underscore@example.com"
  {
  }

  lemma UnderscoreAddressShape()
    ensures IsEmailAddress("test_underscore@example.com")
  {
    UnderscoreLocalPart();
    ExampleComIsDomain();
    AddressFromParts("test_underscore", "example.com");
    UnderscoreAddressSplits();
  }

  lemma UnderscoreAddressLowerCase()
    ensures IsLowerCase("test_underscore@example.com")
  {
  }

  lemma AcceptsUnderscoreAddress()
    ensures NormalizeEmail(Some("test_underscore@example.com")) == Ok("test_underscore@example.com")
  {
    UnderscoreAddressShape();
    UnderscoreAddressLowerCase();
    AcceptsLowerCase("test_underscore@example.com");
  }

  lemma CustomerLocalPart()
    ensures forall i :: 0 <= i < |"joao.silva"| ==> IsLocalChar("joao.silva"[i])
  {
  }

  lemma CustomerAddressSplits()
    ensures "joao.silva" + ['@'] + "example.com" == "joao.silva@example.com"
  {
  }

  lemma CustomerAddressShape()
    ensures IsEmailAddress("joao.silva@example.com")
  {
    CustomerLocalPart();
    ExampleComIsDomain();
    AddressFromParts("joao.silva", "example.com");
    CustomerAddressSplits();
  }

  lemma CustomerAddressLowerCase()
    ensures IsLowerCase("joao.silva@example.com")
  {
  }

  lemma AcceptsCustomerAddress()
    ensures NormalizeEmail(Some("joao.silva@example.com")) == Ok("joao.silva@example.com")
  {
    CustomerAddressShape();
    CustomerAddressLowerCase();
    AcceptsLowerCase("joao.silva@example.com");
  }

  lemma EmailComIsDomain()
    ensures IsDomain("email.com")
  {
    assert "email.com"[5] == '.';
  }

  lemma DifferentLocalPart()
    ensures forall i :: 0 <= i < |"different"| ==> IsLocalChar("different"[i])
  {
  }

  lemma DifferentAddressSplits()
    ensures "different" + ['@'] + "email.com" == "different@email.com"
  {
  }

  lemma DifferentAddressShape()
    ensures IsEmailAddress("different@email.com")
  {
    DifferentLocalPart();
    EmailComIsDomain();
    AddressFromParts("different", "email.com");
    DifferentAddressSplits();
  }

  lemma DifferentAddressLowerCase()
    ensures IsLowerCase("different@email.com")
  {
  }

  lemma AcceptsDifferentAddress()
    ensures NormalizeEmail(Some("different@email.com")) == Ok("different@email.com")
  {
    DifferentAddressShape();
    DifferentAddressLowerCase();
    AcceptsLowerCase("different@email.com");
  }

  lemma UpperPiece0Lowers()
    ensures ToLower("JOAO.") == "joao."
  {
    assert forall i :: 0 <= i < 5 ==> ToLower("JOAO.")[i] == "joao."[i];
  }

  lemma UpperPiece1Lowers()
    ensures ToLower("SILVA@") == "silva@"
  {
    assert forall i :: 0 <= i < 6 ==> ToLower("SILVA@")[i] == "silva@"[i];
  }

  lemma UpperPiece2Lowers()
    ensures ToLower("EXAMPLE.") == "example."
  {
    assert "EXAM" + "PLE." == "EXAMPLE.";
    assert "exam" + "ple." == "example.";
    ToLowerAppend("EXAM", "PLE.");
    ExamLowers();
    PleLowers();
  }

  lemma ExamLowers()
    ensures ToLower("EXAM") == "exam"
  {
    assert forall i :: 0 <= i < 4 ==> ToLower("EXAM")[i] == "exam"[i];
  }

  lemma PleLowers()
    ensures ToLower("PLE.") == "ple."
  {
    assert forall i :: 0 <= i < 4 ==> ToLower("PLE.")[i] == "ple."[i];
  }

  lemma UpperPiece3Lowers()
    ensures ToLower("COM") == "com"
  {
    assert forall i :: 0 <= i < 3 ==> ToLower("COM")[i] == "com"[i];
  }

  lemma UpperCaseSplits()
    ensures "JOAO." + "SILVA@" + "EXAMPLE." + "COM" == "JOAO.SILVA@EXAMPLE.COM"
    ensures "joao." + "silva@" + "example." + "com" == "joao.silva@example.com"
  {
  }

  lemma UpperCaseLowers()
    ensures ToLower("JOAO.SILVA@EXAMPLE.COM") == "joao.silva@example.com"
  {
    UpperCaseSplits();
    ToLowerAppend("JOAO." + "SILVA@" + "EXAMPLE.", "COM");
    ToLowerAppend("JOAO." + "SILVA@", "EXAMPLE.");
    ToLowerAppend("JOAO.", "SILVA@");
    UpperPiece0Lowers();
    UpperPiece1Lowers();
    UpperPiece2Lowers();
    UpperPiece3Lowers();
  }

  /** An upper-case address is stored lower-cased. */
  lemma AcceptsUpperCaseAddress()
    ensures NormalizeEmail(Some("JOAO.SILVA@EXAMPLE.COM")) == Ok("joao.silva@example.com")
  {
    UpperCaseLowers();
    CustomerAddressShape();
    NormalizeEmailSpec(Some("JOAO.SILVA@EXAMPLE.COM"));
  }

  lemma NoAtSignLowerCase()
    ensures IsLowerCase("invalid-email")
  {
  }

  lemma NoAtSign()
    ensures !IsEmailAddress("invalid-email")
  {
    assert forall k :: 0 <= k < 13 ==> "invalid-email"[k] != '@';
  }

  lemma RejectsAddressWithoutAt()
    ensures NormalizeEmail(Some("invalid-email"))
         == Err(Error(InvalidEmail, FormatMessage + "invalid-email"))
  {
    NoAtSignLowerCase();
    ToLowerFixed("invalid-email");
    NoAtSign();
    NormalizeEmailSpec(Some("invalid-email"));
  }

  lemma NoDomainLowerCase()
    ensures IsLowerCase("test@")
  {
  }

  lemma NoDomain()
    ensures !IsEmailAddress("test@")
  {
    assert forall k :: 0 <= k < 4 ==> "test@"[k] != '@';
  }

  lemma RejectsAddressWithoutDomain()
    ensures NormalizeEmail(Some("test@")) == Err(Error(InvalidEmail, FormatMessage + "test@"))
  {
    NoDomainLowerCase();
    ToLowerFixed("test@");
    NoDomain();
    NormalizeEmailSpec(Some("test@"));
  }

  lemma AcceptsMissingEmail()
    ensures NormalizeEmail(None) == Ok("") && NormalizeEmail(Some("")) == Ok("")
  {
  }
}
