# Contact form and hover menu of a marketing front end

This project models the two pieces of behaviour in the site's front end that are
more than markup.

- **The lead-capture contact form** (`components/contact-form.tsx`). It has:
  - a record of ten fields;
  - a declarative schema that decides whether the record may be sent;
  - a serialiser that builds the flat payload given to the mail relay;
  - a product checklist that adds and removes names;
  - the submit flow with its two flags, `isSubmitting` and `isSubmitSuccessful`, which pick the button's label.
- **The hover navigation menu** (`components/ui/navbar-menu.tsx`). It is a single `active` value that names the item whose panel is open, or is null. Hovering an item sets it and leaving the menu clears it.

Modules:

- `FormSchema` (form_schema.dfy): the record `FormData`, its default values, and the schema in two forms.
  - `Validate` runs the rules in the schema's key order and returns the issues found, as (path, message) pairs, with the messages the form shows.
  - `IsValid` states the same rules as one condition.
  - The e-mail syntax rule is the schema library's own check. It is passed in as the parameter `isEmail` and is not modelled.
- `FormPayload` (form_payload.dfy): `Format` builds the payload. Every boolean becomes "Yes" or "No", the products are joined with ", ", and `formName` is "Contact Form". It is paired with a reader, `Unformat`, that is not part of the site. `FormatRoundTrip` proves that the payload loses nothing.
- `ProductSelection` (product_selection.dfy): ticking a box appends the name. Unticking keeps every other name and drops every copy of this one. A click flips the box's shown state.
- `ContactForm` (contact_form.dfy): the form as a state machine.
  - `FormState` and its pure transitions: edits, the start and end of a submit attempt, and the relay's answer.
  - The class `Form`, whose methods change its fields in place. Each method is proved to produce the transition's state and to keep `Invariant`.
  - A submit attempt runs from `StartSubmit` to `FinishSubmit` without a break in which the visitor or the network could act. So edits and relay answers require `!isSubmitting`, and `FinishSubmit` requires it set.
  - The relay call is not made. It appears as a payload appended to `outbox`, and its answer is the event `RelayAnswered(Delivered | Rejected)`.
- `Sequences` (sequences.dfy): `NoDuplicates`, used by both the product checklist and the menu.
- `NavbarMenu` (navbar_menu.dfy): `active` as `Option<string>`, the two events, panel visibility, and the class `MenuState` for the page-owned variable.

How the submit flags behave. `onSubmit` (contact-form.tsx:80-121) starts the relay call but does not return its promise. The form library's submit handler (line 131) therefore ends the attempt when `onSubmit` returns:

- `isSubmitting` goes back to false.
- `isSubmitSuccessful` becomes true as soon as a valid record has been handed over, before the relay answers.

`reset()` (line 113) restores the default values and also clears `isSubmitSuccessful`. So along one valid submission the button reads:

1. "Please wait" while the schema runs;
2. then "Submitted";
3. then "Submit", with empty fields, once the relay delivers; if the relay rejects, it stays on "Submitted" with the fields intact.

One might expect "Submitted" after delivery and "Submit" after a rejection. The code does the reverse, and the model follows the code; `LabelsAlongSubmission` states the sequence above.

## Model

| member | source | states |
|---|---|---|
| FormSchema.Defaults | components/contact-form.tsx:56-70 | the mount/reset record has no products and consent already ticked |
| FormSchema.Validate | components/contact-form.tsx:25-47 | no issue is reported exactly when the record satisfies every rule of the schema; an issue is reported only if its rule fails |
| FormSchema.IssueExactlyWhenRuleBroken | components/contact-form.tsx:26-46 | each rule's (path, message) issue appears if and only if that field breaks the rule: empty first/last name, e-mail failing the address check, phone under 10, no property flag, zip under 4, no product, consent false |
| FormSchema.ValidHasIdentityAndContact | components/contact-form.tsx:26-39 | a record without issues has both names non-empty, a phone of 10 or more characters, a zip of 4 or more and an accepted e-mail |
| FormSchema.PropertyTypeNeedsOneFlag | components/contact-form.tsx:30-37 | a valid record has at least one of residential/commercial; which flag is set, or both, gives the same issues |
| FormSchema.ProductsAndConsentRequired | components/contact-form.tsx:40-46 | an empty product list or consent false is never valid |
| FormSchema.AddressAndMessageUnconstrained | components/contact-form.tsx:38-43 | changing address and message never changes the issues reported |
| FormSchema.DefaultsRejected | components/contact-form.tsx:56-70 | the default record is invalid (name, property-type and product issues) while its consent rule passes |
| FormSchema.WithText | components/contact-form.tsx:136-192 | a text input's change stores the new text in its own field and leaves every other field as it was |
| FormSchema.WithFlag | components/contact-form.tsx:200-235 | a checkbox change stores the new state in its own flag and leaves every other field as it was |
| FormPayload.YesNo | components/contact-form.tsx:89-94 | a boolean is sent as "Yes" exactly when it is true, and "No" otherwise |
| FormPayload.Format | components/contact-form.tsx:82-97 | the payload's formName is "Contact Form"; its seven text fields are the record's unchanged; selectProducts is the ", "-join of the list; each of its three Yes/No fields is "Yes" exactly when the record's flag is set |
| FormPayload.FormatRoundTrip | components/contact-form.tsx:82-97 | reading the payload back gives the record: strings copied unchanged, flags recoverable, products recoverable when names are non-empty and comma-free |
| FormPayload.JoinSingleton | components/contact-form.tsx:95 | a one-product list is sent as exactly that name |
| FormPayload.JoinAppend | components/contact-form.tsx:95 | joining two non-empty lists is joining each with one separator between |
| FormPayload.JoinCount | components/contact-form.tsx:95 | each character count of the joined string is the elements' count plus n - 1 times the separator's |
| FormPayload.SeparatorCount | components/contact-form.tsx:95 | with comma-free names, an n-product string holds exactly n - 1 commas |
| FormPayload.SplitJoin | components/contact-form.tsx:95 | splitting the joined product string at ", " gives back the list |
| FormPayload.ExampleLead | components/contact-form.tsx:82-97 | the sample lead (Jane Doe, residential, "Solar Panel") is valid and goes out with "Yes"/"No" flags and "Solar Panel" as a plain string |
| ProductSelection.Check | components/contact-form.tsx:284-285 | ticking appends the name at the end and keeps the list before it |
| ProductSelection.Uncheck | components/contact-form.tsx:286-291 | unticking removes every copy of the name and keeps every other name's number of copies |
| ProductSelection.Click | components/contact-form.tsx:281-292 | after a click the name is present exactly when it was absent before |
| ProductSelection.UncheckAppend | components/contact-form.tsx:288-290 | unticking distributes over concatenation, so kept names stay in their order |
| ProductSelection.UncheckAbsent | components/contact-form.tsx:288-290 | unticking a name not in the list leaves the list unchanged |
| ProductSelection.CheckThenUncheck | components/contact-form.tsx:283-292 | tick then untick of a name not already present restores the original list |
| ProductSelection.CheckThenUncheckPresent | components/contact-form.tsx:283-292 | tick then untick of a name already present does not restore the list: all its copies are gone |
| ProductSelection.ClickTwice | components/contact-form.tsx:281-292 | two clicks on an unselected product leave the list as it was |
| ProductSelection.ClickKeepsNoDuplicates | components/contact-form.tsx:281-292 | clicking never makes a name appear twice |
| ContactForm.Mounted | components/contact-form.tsx:54-77 | the mounted form holds the defaults, has made no relay call and has neither flag set |
| ContactForm.MountedInvariant | components/contact-form.tsx:54-77 | the mounted form satisfies the invariant and its button reads "Submit" |
| ContactForm.EditsKeepInvariant | components/contact-form.tsx:136-346 | text, checkbox and product edits and the start of a submit keep the invariant |
| ContactForm.EndSubmitKeepsInvariant | components/contact-form.tsx:80-131 | ending a submit attempt keeps the invariant: every payload sent had consent, a property type, both names, a phone of 10+ and a zip of 4+ |
| ContactForm.SettleKeepsInvariant | components/contact-form.tsx:108-119 | the relay's answer keeps the invariant |
| ContactForm.InvalidIsNotSent | components/contact-form.tsx:131 | an invalid record makes no relay call, keeps the values, shows the issues, and the button reads "Submit" |
| ContactForm.RejectedBeforeAnyCall | components/contact-form.tsx:30-46 | both property flags off, consent false or no product: no payload is sent |
| ContactForm.ValidIsSentOnce | components/contact-form.tsx:80-107 | a valid record is sent exactly once as its formatted payload, the values stay, and the button reads "Submitted" |
| ContactForm.DeliveredResets | components/contact-form.tsx:109-114 | on delivery every field returns to its default, issues clear, and the button reads "Submit" |
| ContactForm.RejectedKeepsValues | components/contact-form.tsx:115-119 | on rejection values, issues and the label are unchanged |
| ContactForm.LabelsAlongSubmission | components/contact-form.tsx:354-363 | along a valid submission the label goes "Please wait", "Submitted", then "Submit" (delivered, fields reset) or stays "Submitted" (rejected, fields kept) |
| ContactForm.LabelCases | components/contact-form.tsx:354-363 | "Please wait" exactly while submitting; otherwise "Submitted" exactly when the last attempt succeeded, else "Submit" |
| ContactForm.Form.constructor | components/contact-form.tsx:54-71 | the form starts in the mounted state |
| ContactForm.Form.ChangeText | components/contact-form.tsx:136-192 | outside a submit attempt, the field's change handler leaves the form in the EditText state and keeps the invariant |
| ContactForm.Form.ChangeFlag | components/contact-form.tsx:200-235 | outside a submit attempt, the checkbox's change handler leaves the form in the EditFlag state and keeps the invariant |
| ContactForm.Form.ClickProduct | components/contact-form.tsx:281-292 | outside a submit attempt, a product click leaves the form in the EditProduct state and keeps the invariant |
| ContactForm.Form.StartSubmit | components/contact-form.tsx:131 | a submit attempt, started when none is running, sets isSubmitting |
| ContactForm.Form.FinishSubmit | components/contact-form.tsx:80-121 | the running attempt ends in the EndSubmit state: one relay call for a valid record, issues otherwise |
| ContactForm.Form.RelayAnswered | components/contact-form.tsx:108-120 | the relay's answer, arriving outside a submit attempt, leaves the form in the Settle state: reset on delivery, unchanged on rejection |
| NavbarMenu.StepIgnoresPrevious | components/ui/navbar-menu.tsx:32-79 | entering an item makes it active and leaving clears `active`, whatever was active before |
| NavbarMenu.PanelShownIffActive | components/ui/navbar-menu.tsx:42-48 | an item's panel shows if and only if `active` equals its name; no panel shows while `active` is null |
| NavbarMenu.VisiblePanels | components/ui/navbar-menu.tsx:42-48 | every panel listed as visible belongs to the active item |
| NavbarMenu.AtMostOnePanel | components/ui/navbar-menu.tsx:18-48 | among distinct item names, at most one panel is visible: the active item's, when it is in the menu |
| NavbarMenu.LastEventDecides | components/ui/navbar-menu.tsx:32-79 | after any non-empty sequence of hover events, `active` is whatever the last event set |
| NavbarMenu.TraceFollowsEvents | components/ui/navbar-menu.tsx:32-79 | along a sequence of events, `active` is null after an event exactly when that event was leaving the menu |
| NavbarMenu.EnterThenEnter | components/ui/navbar-menu.tsx:32 | hovering A then B goes from A straight to B with no null state between |
| NavbarMenu.MenuState.OnMouseEnter | components/ui/navbar-menu.tsx:32 | the item's mouse-enter handler sets `active` to the item |
| NavbarMenu.MenuState.OnMouseLeave | components/ui/navbar-menu.tsx:79 | the menu's mouse-leave handler sets `active` to null |
| NavbarMenu.MenuState.IsPanelShown | components/ui/navbar-menu.tsx:42-48 | reports exactly PanelShown for the current `active` and the item: shown when `active` is non-null and equals the item's name |

## Left out

- The mail relay call: its service, template and key identifiers, its promise and its timing. A call is a payload appended to `outbox`. Its answer is an event, `RelayAnswered`, and the model does not follow which outstanding call it answers.
- The toast notifications ("Sending your message...", success and failure texts), and all rendering, styling and form-field plumbing.
- The e-mail syntax check is library code. It is the parameter `isEmail` of `Validate` and `IsValid`.
- FormSchema.Validate: once any attempt has been made, the library re-checks fields on every change until a reset. That includes a valid attempt whose relay call was rejected, where issues can show again. This is not modelled: issues are set only when an attempt ends, and cleared by a reset.
- Lengths are counted in Dafny characters (Unicode scalar values), not in the UTF-16 code units the script language counts. Only characters outside the Basic Multilingual Plane tell the two apart.
- The zip-code rule has no message of its own in the source. Its issue carries the schema library's default text.
- The product checkbox can also report an "indeterminate" state, which the handler would treat as ticked. A controlled checkbox never reports it, so only true and false are modelled.
- The animation parameters and motion components of the menu, `ProductItem`, `HoveredLink`, and the menu's `onClick` callback.
- components/free-product.tsx (product page markup and its tab state) and the product catalog. Product names are arbitrary strings.
- The page that owns `active`: it is not part of this model. `MenuState`'s constructor assumes that it starts at null.
