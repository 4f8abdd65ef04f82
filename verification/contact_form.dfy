/** The contact form as a state machine: the field values, the two submission
    flags that drive the button, the issues shown under the fields, and the
    calls made to the mail relay. The relay's answer arrives as an event. */
module ContactForm {
  import opened FormSchema
  import opened FormPayload
  import opened ProductSelection
  import opened Sequences

  /** How a relay call ended. */
  datatype RelayOutcome = Delivered | Rejected

  datatype FormState = FormState(
    values: FormData,
    isSubmitting: bool,
    isSubmitSuccessful: bool,
    errors: seq<Issue>,
    outbox: seq<Payload>,   // every payload handed to the relay, oldest first
    pending: nat)           // relay calls whose answer has not arrived

  /** The form as it is mounted. */
  function Mounted(): (st: FormState)
    ensures st.values == Defaults() && st.outbox == [] && st.pending == 0
    ensures !st.isSubmitting && !st.isSubmitSuccessful
  {
    FormState(Defaults(), false, false, [], [], 0)
  }

  /** The text on the submit button. */
  function Label(st: FormState): string
  {
    if st.isSubmitting then "Please wait"
    else if st.isSubmitSuccessful then "Submitted"
    else "Submit"
  }

  /** Typing into a text input. */
  function EditText(st: FormState, f: TextField, s: string): FormState
  {
    st.(values := WithText(st.values, f, s))
  }

  /** Ticking or unticking one of the single checkboxes. */
  function EditFlag(st: FormState, f: FlagField, b: bool): FormState
  {
    st.(values := WithFlag(st.values, f, b))
  }

  /** Clicking a product's box in the checklist. */
  function EditProduct(st: FormState, name: string): FormState
  {
    st.(values := st.values.(selectProducts := Click(st.values.selectProducts, name)))
  }

  /** A submit attempt starts: the button shows it is busy while the schema runs. */
  function BeginSubmit(st: FormState): FormState
  {
    st.(isSubmitting := true)
  }

  /** The schema has run. A valid record is formatted and handed to the relay
      once; an invalid one only has its issues shown. Either way the attempt is
      over as soon as the submit handler returns, which it does without waiting
      for the relay, so a valid attempt counts as successful at once. */
  function EndSubmit(st: FormState, isEmail: string -> bool): FormState
  {
    var issues := Validate(st.values, isEmail);
    if issues == [] then
      st.(isSubmitting := false, isSubmitSuccessful := true, errors := [],
          outbox := st.outbox + [Format(st.values)], pending := st.pending + 1)
    else
      st.(isSubmitting := false, isSubmitSuccessful := false, errors := issues)
  }

  /** The relay answers one outstanding call. Delivery resets the form, which
      restores the default values and clears the issues and submission flags;
      rejection changes nothing but the count of outstanding calls. */
  function Settle(st: FormState, outcome: RelayOutcome): FormState
    requires st.pending > 0
  {
    match outcome
    case Delivered =>
      st.(values := Defaults(), isSubmitting := false, isSubmitSuccessful := false,
          errors := [], pending := st.pending - 1)
    case Rejected =>
      st.(pending := st.pending - 1)
  }

  /** What holds of the form in every reachable state: the checklist never
      repeats a product, and every payload handed to the relay came from a
      record with consent, a property type, both names, a long enough phone
      number and a long enough zip code. */
  predicate Invariant(st: FormState)
  {
    && NoDuplicates(st.values.selectProducts)
    && forall k :: 0 <= k < |st.outbox| ==> Sendable(st.outbox[k])
  }

  predicate Sendable(p: Payload)
  {
    && p.formName == FormName
    && p.consentValidity == "Yes"
    && (p.propertyType.isResidential == "Yes" || p.propertyType.isCommercial == "Yes")
    && |p.phoneNumber| >= 10 && |p.zipCode| >= 4
    && p.firstName != "" && p.lastName != ""
  }

  // ---------------------------------------------------------------------------
  // Properties of the transitions.

  lemma MountedInvariant()
    ensures Invariant(Mounted())
    ensures Label(Mounted()) == "Submit"
  {
  }

  /** Every event keeps the invariant. */
  lemma EditsKeepInvariant(st: FormState, f: TextField, s: string, g: FlagField, b: bool, name: string)
    requires Invariant(st)
    ensures Invariant(EditText(st, f, s))
    ensures Invariant(EditFlag(st, g, b))
    ensures Invariant(EditProduct(st, name))
    ensures Invariant(BeginSubmit(st))
  {
    ClickKeepsNoDuplicates(st.values.selectProducts, name);
  }

  lemma EndSubmitKeepsInvariant(st: FormState, isEmail: string -> bool)
    requires Invariant(st)
    ensures Invariant(EndSubmit(st, isEmail))
  {
  }

  lemma SettleKeepsInvariant(st: FormState, outcome: RelayOutcome)
    requires Invariant(st) && st.pending > 0
    ensures Invariant(Settle(st, outcome))
  {
  }

  /** An invalid record is never sent: the attempt ends with the issues shown,
      the values untouched, no relay call, and the button back at "Submit". */
  lemma InvalidIsNotSent(st: FormState, isEmail: string -> bool)
    requires !IsValid(st.values, isEmail)
    ensures EndSubmit(st, isEmail).outbox == st.outbox
    ensures EndSubmit(st, isEmail).pending == st.pending
    ensures EndSubmit(st, isEmail).values == st.values
    ensures EndSubmit(st, isEmail).errors == Validate(st.values, isEmail) != []
    ensures Label(EndSubmit(st, isEmail)) == "Submit"
  {
  }

  /** In particular no payload leaves with both property flags off, without
      consent, or without a product. */
  lemma RejectedBeforeAnyCall(st: FormState, isEmail: string -> bool)
    requires || (!st.values.propertyType.isResidential && !st.values.propertyType.isCommercial)
             || !st.values.consentValidity
             || st.values.selectProducts == []
    ensures EndSubmit(st, isEmail).outbox == st.outbox
  {
    InvalidIsNotSent(st, isEmail);
  }

  /** A valid record is sent exactly once, as its formatted payload, and the
      button reads "Submitted" while the relay call is outstanding. */
  lemma ValidIsSentOnce(st: FormState, isEmail: string -> bool)
    requires IsValid(st.values, isEmail)
    ensures EndSubmit(st, isEmail).outbox == st.outbox + [Format(st.values)]
    ensures EndSubmit(st, isEmail).pending == st.pending + 1
    ensures EndSubmit(st, isEmail).values == st.values
    ensures Label(EndSubmit(st, isEmail)) == "Submitted"
  {
  }

  /** Delivery resets every field to its default and the button to "Submit". */
  lemma DeliveredResets(st: FormState)
    requires st.pending > 0
    ensures Settle(st, Delivered).values == Defaults()
    ensures Settle(st, Delivered).errors == []
    ensures Label(Settle(st, Delivered)) == "Submit"
    ensures Settle(st, Delivered).outbox == st.outbox
  {
  }

  /** Rejection leaves every field value, issue and flag as it was. */
  lemma RejectedKeepsValues(st: FormState)
    requires st.pending > 0
    ensures Settle(st, Rejected).values == st.values
    ensures Settle(st, Rejected).errors == st.errors
    ensures Label(Settle(st, Rejected)) == Label(st)
    ensures Settle(st, Rejected).outbox == st.outbox
  {
  }

  /** The button's three labels along one valid submission: busy while the
      schema runs, "Submitted" once the record is handed over, and then
      "Submit" with empty fields if the relay delivers, or "Submitted" with the
      fields intact if it rejects. */
  lemma LabelsAlongSubmission(st: FormState, isEmail: string -> bool)
    requires IsValid(st.values, isEmail)
    ensures Label(BeginSubmit(st)) == "Please wait"
    ensures var sent := EndSubmit(BeginSubmit(st), isEmail);
            && Label(sent) == "Submitted"
            && sent.pending > 0
            && Label(Settle(sent, Delivered)) == "Submit"
            && Settle(sent, Delivered).values == Defaults()
            && Label(Settle(sent, Rejected)) == "Submitted"
            && Settle(sent, Rejected).values == st.values
  {
  }

  /** The three labels are exclusive and cover every state: busy exactly while
      submitting; otherwise "Submitted" exactly when the last attempt succeeded. */
  lemma LabelCases(st: FormState)
    ensures Label(st) == "Please wait" <==> st.isSubmitting
    ensures Label(st) == "Submitted" <==> !st.isSubmitting && st.isSubmitSuccessful
    ensures Label(st) == "Submit" <==> !st.isSubmitting && !st.isSubmitSuccessful
  {
  }

  /** The form as the page holds it: its fields change in place as events arrive.
      A submit attempt runs from StartSubmit to FinishSubmit without a break in
      which the visitor or the network could act, so no other event arrives
      while `isSubmitting` is set. */
  class Form {
    var values: FormData
    var isSubmitting: bool
    var isSubmitSuccessful: bool
    var errors: seq<Issue>
    var outbox: seq<Payload>
    var pending: nat

    function State(): FormState
      reads this
    {
      FormState(values, isSubmitting, isSubmitSuccessful, errors, outbox, pending)
    }

    ghost predicate Valid()
      reads this
    {
      Invariant(State())
    }

    constructor ()
      ensures Valid() && State() == Mounted()
    {
      values := Defaults();
      isSubmitting, isSubmitSuccessful := false, false;
      errors, outbox, pending := [], [], 0;
    }

    method ChangeText(f: TextField, s: string)
      requires Valid() && !isSubmitting
      modifies this
      ensures Valid() && State() == EditText(old(State()), f, s)
    {
      EditsKeepInvariant(State(), f, s, IsResidential, false, "");
      values := WithText(values, f, s);
    }

    method ChangeFlag(f: FlagField, b: bool)
      requires Valid() && !isSubmitting
      modifies this
      ensures Valid() && State() == EditFlag(old(State()), f, b)
    {
      EditsKeepInvariant(State(), FirstName, "", f, b, "");
      values := WithFlag(values, f, b);
    }

    method ClickProduct(name: string)
      requires Valid() && !isSubmitting
      modifies this
      ensures Valid() && State() == EditProduct(old(State()), name)
    {
      ClickKeepsNoDuplicates(values.selectProducts, name);
      var checked := name !in values.selectProducts;
      values := values.(selectProducts := Toggle(values.selectProducts, name, checked));
    }

    method StartSubmit()
      requires Valid() && !isSubmitting
      modifies this
      ensures Valid() && State() == BeginSubmit(old(State()))
    {
      isSubmitting := true;
    }

    method FinishSubmit(isEmail: string -> bool)
      requires Valid() && isSubmitting
      modifies this
      ensures Valid() && State() == EndSubmit(old(State()), isEmail)
    {
      EndSubmitKeepsInvariant(State(), isEmail);
      var issues := Validate(values, isEmail);
      if issues == [] {
        outbox := outbox + [Format(values)];
        pending := pending + 1;
        errors := [];
        isSubmitSuccessful := true;
      } else {
        errors := issues;
        isSubmitSuccessful := false;
      }
      isSubmitting := false;
    }

    method RelayAnswered(outcome: RelayOutcome)
      requires Valid() && !isSubmitting && pending > 0
      modifies this
      ensures Valid() && State() == Settle(old(State()), outcome)
    {
      SettleKeepsInvariant(State(), outcome);
      pending := pending - 1;
      if outcome == Delivered {
        values := Defaults();
        errors := [];
        isSubmitting, isSubmitSuccessful := false, false;
      }
    }
  }
}
