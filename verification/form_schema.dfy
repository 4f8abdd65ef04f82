/** The lead record collected by the contact form, its default values, and the
    declarative schema every record is checked against before it may be sent. */
module FormSchema {

  datatype PropertyType = PropertyType(isResidential: bool, isCommercial: bool)

  /** One lead submission, field for field as the form holds it. */
  datatype FormData = FormData(
    firstName: string,
    lastName: string,
    email: string,
    phoneNumber: string,
    propertyType: PropertyType,
    address: string,
    zipCode: string,
    selectProducts: seq<string>,
    message: string,
    consentValidity: bool)

  /** One schema violation: the path of the offending field and the text shown beneath it. */
  datatype Issue = Issue(path: string, message: string)

  /** The free-text inputs of the form. */
  datatype TextField = FirstName | LastName | Email | PhoneNumber | Address | ZipCode | Message

  /** The single checkboxes of the form (the product checklist is handled apart). */
  datatype FlagField = IsResidential | IsCommercial | ConsentValidity

  const FirstNameRequired := "First Name is required"
  const LastNameRequired := "Last Name is required"
  const InvalidEmail := "Invalid email address"
  const PhoneTooShort := "Phone number must be at least 10 digits"
  const PropertyTypeRequired := "You must choose at least one: Residential or Commercial"
  // The zip-code rule carries no message of its own; this is the schema library's default text.
  const ZipCodeTooShort := "String must contain at least 4 character(s)"
  const ProductRequired := "Select at least one product"
  const ConsentRequired := "This field is required."

  /** The values the form is mounted with and reset to: every text empty, both
      property flags off, no product, and the consent box already ticked. */
  function Defaults(): (d: FormData)
    ensures d.consentValidity
    ensures d.selectProducts == []
  {
    FormData("", "", "", "", PropertyType(false, false), "", "", [], "", true)
  }

  /** The schema as a single condition on a record. `isEmail` stands for the
      schema library's e-mail address syntax check, which is not modelled. */
  predicate IsValid(d: FormData, isEmail: string -> bool)
  {
    && |d.firstName| >= 1
    && |d.lastName| >= 1
    && isEmail(d.email)
    && |d.phoneNumber| >= 10
    && (d.propertyType.isResidential || d.propertyType.isCommercial)
    && |d.zipCode| >= 4
    && |d.selectProducts| != 0
    && d.consentValidity == true
  }

  /** One rule of the schema: whether the record passes it, and the issue it
      reports otherwise. */
  datatype Rule = Rule(ok: bool, issue: Issue)

  /** The rules of the schema, in the order the schema declares its keys.
      Address and message carry no rule. */
  function Rules(d: FormData, isEmail: string -> bool): (rs: seq<Rule>)
    ensures |rs| == 8
  {
    [ Rule(|d.firstName| >= 1, Issue("firstName", FirstNameRequired)),
      Rule(|d.lastName| >= 1, Issue("lastName", LastNameRequired)),
      Rule(isEmail(d.email), Issue("email", InvalidEmail)),
      Rule(|d.phoneNumber| >= 10, Issue("phoneNumber", PhoneTooShort)),
      Rule(d.propertyType.isResidential || d.propertyType.isCommercial, Issue("propertyType", PropertyTypeRequired)),
      Rule(|d.zipCode| >= 4, Issue("zipCode", ZipCodeTooShort)),
      Rule(|d.selectProducts| != 0, Issue("selectProducts", ProductRequired)),
      Rule(d.consentValidity == true, Issue("consentValidity", ConsentRequired)) ]
  }

  /** Some rule of `rs` fails and reports `x`. */
  predicate Reported(rs: seq<Rule>, x: Issue)
  {
    exists i :: 0 <= i < |rs| && !rs[i].ok && rs[i].issue == x
  }

  /** The issues of the rules that do not hold, in rule order. */
  function Failing(rs: seq<Rule>): (r: seq<Issue>)
    ensures |r| <= |rs|
    ensures r == [] <==> forall i :: 0 <= i < |rs| ==> rs[i].ok
    ensures forall x :: x in r <==> Reported(rs, x)
  {
    if rs == [] then []
    else
      var rest := Failing(rs[1..]);
      assert forall x :: Reported(rs, x) <==> (!rs[0].ok && rs[0].issue == x) || Reported(rs[1..], x) by {
        forall x ensures Reported(rs, x) <==> (!rs[0].ok && rs[0].issue == x) || Reported(rs[1..], x) {
          if Reported(rs[1..], x) {
            var i :| 0 <= i < |rs[1..]| && !rs[1..][i].ok && rs[1..][i].issue == x;
            assert rs[i + 1] == rs[1..][i];
          }
          if Reported(rs, x) && !(!rs[0].ok && rs[0].issue == x) {
            var i :| 0 <= i < |rs| && !rs[i].ok && rs[i].issue == x;
            assert rs[1..][i - 1] == rs[i];
          }
        }
      }
      (if rs[0].ok then [] else [rs[0].issue]) + rest
  }

  /** Runs every rule of the schema and collects the issues found. */
  function Validate(d: FormData, isEmail: string -> bool): (r: seq<Issue>)
    ensures r == [] <==> IsValid(d, isEmail)
    ensures forall x :: x in r <==> Reported(Rules(d, isEmail), x)
  {
    var rs := Rules(d, isEmail);
    assert IsValid(d, isEmail) <==> forall i :: 0 <= i < |rs| ==> rs[i].ok by {
      if !IsValid(d, isEmail) {
        if !rs[0].ok {} else if !rs[1].ok {} else if !rs[2].ok {} else if !rs[3].ok {}
        else if !rs[4].ok {} else if !rs[5].ok {} else if !rs[6].ok {} else { assert !rs[7].ok; }
      }
    }
    Failing(rs)
  }

  /** Rule `k`'s issue is among those reported exactly when rule `k` fails: no
      two rules share a path, so no other rule can report it. */
  lemma IssueOfRule(d: FormData, isEmail: string -> bool, k: nat)
    requires k < 8
    ensures Rules(d, isEmail)[k].issue in Validate(d, isEmail) <==> !Rules(d, isEmail)[k].ok
  {
  }

  /** Each rule reports its own issue exactly when the field breaks it. */
  lemma IssueExactlyWhenRuleBroken(d: FormData, isEmail: string -> bool)
    ensures Issue("firstName", FirstNameRequired) in Validate(d, isEmail) <==> d.firstName == ""
    ensures Issue("lastName", LastNameRequired) in Validate(d, isEmail) <==> d.lastName == ""
    ensures Issue("email", InvalidEmail) in Validate(d, isEmail) <==> !isEmail(d.email)
    ensures Issue("phoneNumber", PhoneTooShort) in Validate(d, isEmail) <==> |d.phoneNumber| < 10
    ensures Issue("propertyType", PropertyTypeRequired) in Validate(d, isEmail)
        <==> !d.propertyType.isResidential && !d.propertyType.isCommercial
    ensures Issue("zipCode", ZipCodeTooShort) in Validate(d, isEmail) <==> |d.zipCode| < 4
    ensures Issue("selectProducts", ProductRequired) in Validate(d, isEmail) <==> d.selectProducts == []
    ensures Issue("consentValidity", ConsentRequired) in Validate(d, isEmail) <==> !d.consentValidity
  {
    IssueOfRule(d, isEmail, 0);
    IssueOfRule(d, isEmail, 1);
    IssueOfRule(d, isEmail, 2);
    IssueOfRule(d, isEmail, 3);
    IssueOfRule(d, isEmail, 4);
    IssueOfRule(d, isEmail, 5);
    IssueOfRule(d, isEmail, 6);
    IssueOfRule(d, isEmail, 7);
  }

  /** A valid record has both names, a phone of ten characters or more and a zip
      of four or more. */
  lemma ValidHasIdentityAndContact(d: FormData, isEmail: string -> bool)
    requires Validate(d, isEmail) == []
    ensures d.firstName != "" && d.lastName != ""
    ensures |d.phoneNumber| >= 10 && |d.zipCode| >= 4
    ensures isEmail(d.email)
  {
  }

  /** The property-type group only asks for at least one flag: a valid record
      has one set, and which of them is set, or both, makes no difference to
      the issues reported. */
  lemma PropertyTypeNeedsOneFlag(d: FormData, isEmail: string -> bool)
    ensures Validate(d, isEmail) == [] ==> d.propertyType.isResidential || d.propertyType.isCommercial
    ensures var residential := Validate(d.(propertyType := PropertyType(true, false)), isEmail);
            && Validate(d.(propertyType := PropertyType(false, true)), isEmail) == residential
            && Validate(d.(propertyType := PropertyType(true, true)), isEmail) == residential
  {
  }

  /** No product, or consent withdrawn, is never valid. */
  lemma ProductsAndConsentRequired(d: FormData, isEmail: string -> bool)
    requires d.selectProducts == [] || !d.consentValidity
    ensures !IsValid(d, isEmail)
  {
  }

  /** Address and message are free text: no value of them changes the verdict. */
  lemma AddressAndMessageUnconstrained(d: FormData, isEmail: string -> bool, address: string, message: string)
    ensures Validate(d.(address := address, message := message), isEmail) == Validate(d, isEmail)
  {
  }

  /** The record the form starts from is rejected, whatever the address check
      says of the empty e-mail: it lacks names, phone, zip, property type and
      product. Only the consent rule passes on it. */
  lemma DefaultsRejected(isEmail: string -> bool)
    ensures !IsValid(Defaults(), isEmail)
    ensures Issue("firstName", FirstNameRequired) in Validate(Defaults(), isEmail)
    ensures Issue("propertyType", PropertyTypeRequired) in Validate(Defaults(), isEmail)
    ensures Issue("selectProducts", ProductRequired) in Validate(Defaults(), isEmail)
    ensures Issue("consentValidity", ConsentRequired) !in Validate(Defaults(), isEmail)
  {
    IssueExactlyWhenRuleBroken(Defaults(), isEmail);
  }

  function GetText(d: FormData, f: TextField): string
  {
    match f
    case FirstName => d.firstName
    case LastName => d.lastName
    case Email => d.email
    case PhoneNumber => d.phoneNumber
    case Address => d.address
    case ZipCode => d.zipCode
    case Message => d.message
  }

  function GetFlag(d: FormData, f: FlagField): bool
  {
    match f
    case IsResidential => d.propertyType.isResidential
    case IsCommercial => d.propertyType.isCommercial
    case ConsentValidity => d.consentValidity
  }

  /** What a text input's change handler stores: the new text in its field and
      every other field as it was. */
  function WithText(d: FormData, f: TextField, s: string): (r: FormData)
    ensures GetText(r, f) == s
    ensures forall g :: g != f ==> GetText(r, g) == GetText(d, g)
    ensures forall g :: GetFlag(r, g) == GetFlag(d, g)
    ensures r.selectProducts == d.selectProducts
  {
    match f
    case FirstName => d.(firstName := s)
    case LastName => d.(lastName := s)
    case Email => d.(email := s)
    case PhoneNumber => d.(phoneNumber := s)
    case Address => d.(address := s)
    case ZipCode => d.(zipCode := s)
    case Message => d.(message := s)
  }

  /** What a checkbox's change handler stores: the new state in its flag and
      every other field as it was. */
  function WithFlag(d: FormData, f: FlagField, b: bool): (r: FormData)
    ensures GetFlag(r, f) == b
    ensures forall g :: g != f ==> GetFlag(r, g) == GetFlag(d, g)
    ensures forall g :: GetText(r, g) == GetText(d, g)
    ensures r.selectProducts == d.selectProducts
  {
    match f
    case IsResidential => d.(propertyType := d.propertyType.(isResidential := b))
    case IsCommercial => d.(propertyType := d.propertyType.(isCommercial := b))
    case ConsentValidity => d.(consentValidity := b)
  }
}
