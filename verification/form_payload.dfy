/** The flat record handed to the mail relay: every boolean spelled "Yes" or
    "No", the product list joined into one string, and the form's name added. */
module FormPayload {
  import opened FormSchema

  datatype PayloadPropertyType = PayloadPropertyType(isResidential: string, isCommercial: string)

  datatype Payload = Payload(
    formName: string,
    firstName: string,
    lastName: string,
    email: string,
    phoneNumber: string,
    propertyType: PayloadPropertyType,
    address: string,
    zipCode: string,
    consentValidity: string,
    selectProducts: string,
    message: string)

  const FormName := "Contact Form"
  const ProductSeparator := ", "

  function YesNo(b: bool): (s: string)
    ensures s == "Yes" || s == "No"
    ensures s == "Yes" <==> b
  {
    if b then "Yes" else "No"
  }

  /** The elements of `xs` with `sep` between each neighbouring pair, as the
      script language's array join writes them. */
  function Join(xs: seq<string>, sep: string): string
  {
    if |xs| == 0 then ""
    else if |xs| == 1 then xs[0]
    else xs[0] + sep + Join(xs[1..], sep)
  }

  /** The record sent for a validated form. */
  function Format(d: FormData): (p: Payload)
    ensures p.formName == FormName
    ensures && p.firstName == d.firstName && p.lastName == d.lastName && p.email == d.email
            && p.phoneNumber == d.phoneNumber && p.address == d.address && p.zipCode == d.zipCode
            && p.message == d.message
    ensures p.selectProducts == Join(d.selectProducts, ProductSeparator)
    ensures p.propertyType.isResidential == "Yes" <==> d.propertyType.isResidential
    ensures p.propertyType.isCommercial == "Yes" <==> d.propertyType.isCommercial
    ensures p.consentValidity == "Yes" <==> d.consentValidity
  {
    Payload(
      FormName,
      d.firstName,
      d.lastName,
      d.email,
      d.phoneNumber,
      PayloadPropertyType(YesNo(d.propertyType.isResidential), YesNo(d.propertyType.isCommercial)),
      d.address,
      d.zipCode,
      YesNo(d.consentValidity),
      Join(d.selectProducts, ProductSeparator),
      d.message)
  }

  // ---------------------------------------------------------------------------
  // Reading a payload back. Not part of the form: it is the reference against
  // which the serialiser is shown to lose nothing.

  /** Position of the first comma in `s`. */
  function FirstComma(s: string): (i: nat)
    requires ',' in s
    ensures i < |s| && s[i] == ','
    ensures forall j :: 0 <= j < i ==> s[j] != ','
  {
    if s[0] == ',' then 0
    else
      assert ',' in s[1..] by {
        var k :| 0 <= k < |s| && s[k] == ',';
        assert s[1..][k - 1] == ',';
      }
      FirstComma(s[1..]) + 1
  }

  /** Splits a joined product string at each ", " back into names. */
  function SplitProducts(s: string): seq<string>
    decreases |s|
  {
    if s == "" then []
    else if ',' !in s then [s]
    else
      var i := FirstComma(s);
      [s[..i]] + SplitProducts(if i + 2 <= |s| then s[i + 2..] else "")
  }

  /** Product names that can be told apart once joined: none empty, none
      holding a comma. */
  predicate Separable(xs: seq<string>)
  {
    forall k :: 0 <= k < |xs| ==> xs[k] != "" && ',' !in xs[k]
  }

  /** The form record a payload describes. */
  function Unformat(p: Payload): FormData
  {
    FormData(
      p.firstName,
      p.lastName,
      p.email,
      p.phoneNumber,
      PropertyType(p.propertyType.isResidential == "Yes", p.propertyType.isCommercial == "Yes"),
      p.address,
      p.zipCode,
      SplitProducts(p.selectProducts),
      p.message,
      p.consentValidity == "Yes")
  }

  // ---------------------------------------------------------------------------
  // Properties of the join.

  /** A one-product list is sent as exactly that product's name. */
  lemma JoinSingleton(x: string, sep: string)
    ensures Join([x], sep) == x
  {
  }

  /** Joining two non-empty lists is joining each and putting one separator between. */
  lemma {:induction false} JoinAppend(xs: seq<string>, ys: seq<string>, sep: string)
    requires |xs| >= 1 && |ys| >= 1
    ensures Join(xs + ys, sep) == Join(xs, sep) + sep + Join(ys, sep)
    decreases |xs|
  {
    if |xs| == 1 {
      assert (xs + ys)[1..] == ys;
    } else {
      assert (xs + ys)[1..] == xs[1..] + ys;
      JoinAppend(xs[1..], ys, sep);
    }
  }

  /** Number of times `c` occurs in `s`. */
  function Count(s: string, c: char): nat
  {
    if s == "" then 0 else (if s[0] == c then 1 else 0) + Count(s[1..], c)
  }

  /** Number of times `c` occurs in all the elements of `xs` together. */
  function CountAll(xs: seq<string>, c: char): nat
  {
    if xs == [] then 0 else Count(xs[0], c) + CountAll(xs[1..], c)
  }

  lemma {:induction false} CountConcat(a: string, b: string, c: char)
    ensures Count(a + b, c) == Count(a, c) + Count(b, c)
    decreases |a|
  {
    if a == "" {
      assert a + b == b;
    } else {
      assert (a + b)[1..] == a[1..] + b;
      CountConcat(a[1..], b, c);
    }
  }

  /** An n-element list is joined with n - 1 separators: every occurrence of a
      character in the result comes from an element or from one of the n - 1
      separators. */
  lemma {:induction false} JoinCount(xs: seq<string>, sep: string, c: char)
    requires |xs| >= 1
    ensures Count(Join(xs, sep), c) == CountAll(xs, c) + (|xs| - 1) * Count(sep, c)
    decreases |xs|
  {
    if |xs| == 1 {
      assert xs[1..] == [];
    } else {
      JoinCount(xs[1..], sep, c);
      CountConcat(xs[0] + sep, Join(xs[1..], sep), c);
      CountConcat(xs[0], sep, c);
    }
  }

  /** With comma-free product names, the joined string holds exactly one comma
      fewer than there are products. */
  lemma {:induction false} SeparatorCount(xs: seq<string>)
    requires |xs| >= 1 && Separable(xs)
    ensures Count(Join(xs, ProductSeparator), ',') == |xs| - 1
  {
    JoinCount(xs, ProductSeparator, ',');
    NoCommaCountAll(xs);
    assert Count(ProductSeparator, ',') == 1;
  }

  lemma {:induction false} NoCommaCountAll(xs: seq<string>)
    requires Separable(xs)
    ensures CountAll(xs, ',') == 0
    decreases |xs|
  {
    if xs != [] {
      NoCommaCount(xs[0]);
      NoCommaCountAll(xs[1..]);
    }
  }

  lemma {:induction false} NoCommaCount(s: string)
    requires ',' !in s
    ensures Count(s, ',') == 0
    decreases |s|
  {
    if s != "" {
      NoCommaCount(s[1..]);
    }
  }

  /** A comma-free first name followed by the separator is split off whole. */
  lemma SplitHead(head: string, rest: string)
    requires head != "" && ',' !in head
    ensures SplitProducts(head + ProductSeparator + rest) == [head] + SplitProducts(rest)
  {
    var s := head + ProductSeparator + rest;
    assert s[|head|] == ',';
    var i := FirstComma(s);
    assert forall j :: 0 <= j < |head| ==> s[j] == head[j];
    assert i == |head|;
    assert s[..i] == head;
    assert s[i + 2..] == rest;
  }

  /** Splitting the joined string gives the product names back. */
  lemma {:induction false} SplitJoin(xs: seq<string>)
    requires Separable(xs)
    ensures SplitProducts(Join(xs, ProductSeparator)) == xs
    decreases |xs|
  {
    if |xs| == 0 {
    } else if |xs| == 1 {
      assert Join(xs, ProductSeparator) == xs[0];
    } else {
      SplitHead(xs[0], Join(xs[1..], ProductSeparator));
      SplitJoin(xs[1..]);
      assert xs == [xs[0]] + xs[1..];
    }
  }

  /** The payload loses nothing: for a record whose product names are
      separable, reading the payload back gives the record itself. */
  lemma FormatRoundTrip(d: FormData)
    requires Separable(d.selectProducts)
    ensures Unformat(Format(d)) == d
  {
    SplitJoin(d.selectProducts);
  }

  /** A sample lead: the booleans go out as "Yes"/"No" and the single product
      as a plain string. */
  lemma ExampleLead(isEmail: string -> bool)
    requires isEmail("jane@example.com")
    ensures var d := FormData("Jane", "Doe", "jane@example.com", "5551234567",
                              PropertyType(true, false), "1 Main St", "90001",
                              ["Solar Panel"], "Hi", true);
            && IsValid(d, isEmail)
            && Format(d).propertyType == PayloadPropertyType("Yes", "No")
            && Format(d).selectProducts == "Solar Panel"
            && Format(d).consentValidity == "Yes"
            && Format(d).formName == "Contact Form"
  {
  }
}
