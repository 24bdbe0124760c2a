/** The organ inventory page's submit handler: the ordered validation chain
    (counterparty for the chosen direction, positive quantity, no overdraft
    for OUT), the multipart payload it posts, and the page state after the
    server's reply (src/pages/OrganInventoryPage.jsx). */
module OrganInventoryPage {
  import opened Common
  import opened OrganLedger

  /** The page's form. `quantity` is the number the page compares, i.e. the
      field after numeric conversion. */
  datatype Form = Form(
    organType: string,
    bloodGroup: string,
    quantity: int,
    donor: string,
    hospital: string,
    inOrOut: string,
    donorReceiverName: string,
    age: string,
    email: string,
    phone: string)

  /** The form on load and after a reset: every field empty (the empty
      quantity field converts to 0). */
  const EmptyForm: Form := Form("", "", 0, "", "", "", "", "", "", "")

  const DefaultFailure: string := "Submission failed."

  /** Why a submission did not go through. */
  datatype SubmitError =
    | DonorRequired
    | HospitalRequired
    | NonPositiveQuantity
    | InsufficientStock(available: int)
    | SubmissionFailed(message: string)

  /** The add-organ endpoint's answer: success, or a failure with an optional message. */
  datatype Reply = Accepted | Refused(message: string)

  /** Everything the handler reads and writes. The two documents are presence flags. */
  datatype Page = Page(form: Form, medicalDocument: bool, identityProof: bool, organs: Ledger, error: Option<SubmitError>)

  function FormKey(f: Form): Key
  {
    Key(f.organType, f.bloodGroup)
  }

  /** The record the server stores for an accepted form. */
  function RecordOf(f: Form): (r: OrganRecord)
    ensures KeyOf(r) == FormKey(f) && r.inOrOut == f.inOrOut && r.quantity == f.quantity
  {
    OrganRecord(f.organType, f.bloodGroup, f.inOrOut, f.quantity)
  }

  /** The counterparty the chosen direction needs is filled in: a donor for
      "in", a hospital for "out", nothing for any other direction. */
  predicate CounterpartyPresent(f: Form)
  {
    && (f.inOrOut == InDir ==> f.donor != "")
    && (f.inOrOut == OutDir ==> f.hospital != "")
  }

  /** The handler's checks, in order, against the ledger currently on the page. */
  function Validate(f: Form, organs: Ledger): (r: Result<OrganRecord, SubmitError>)
    // the counterparty checks run first, whatever the quantity
    ensures f.inOrOut == InDir && f.donor == "" ==> r == Err(DonorRequired)
    ensures f.inOrOut == OutDir && f.hospital == "" ==> r == Err(HospitalRequired)
    // then the quantity check
    ensures r == Err(NonPositiveQuantity) <==> CounterpartyPresent(f) && f.quantity <= 0
    // then the stock check, which only an "out" submission is subject to
    ensures (r.Err? && r.error.InsufficientStock?) <==>
      CounterpartyPresent(f) && f.quantity > 0 && f.inOrOut == OutDir && f.quantity > Available(organs, FormKey(f))
    ensures r.Err? && r.error.InsufficientStock? ==> r.error.available == Available(organs, FormKey(f))
    ensures r.Err? ==> !r.error.SubmissionFailed?
    // and what passes all of them
    ensures r.Ok? <==>
      CounterpartyPresent(f) && f.quantity > 0 && (f.inOrOut == OutDir ==> f.quantity <= Available(organs, FormKey(f)))
    ensures r.Ok? ==> r.value == RecordOf(f)
  {
    var isIn := f.inOrOut == InDir;
    var isOut := f.inOrOut == OutDir;
    if isIn && f.donor == "" then Err(DonorRequired)
    else if isOut && f.hospital == "" then Err(HospitalRequired)
    else if f.quantity <= 0 then Err(NonPositiveQuantity)
    else
      var availableQty := Available(organs, FormKey(f));
      if isOut && f.quantity > availableQty then Err(InsufficientStock(availableQty))
      else Ok(RecordOf(f))
  }

  /** The form's field called `name`, as `formData[name]` reads it; `None`
      for a name the form does not have. */
  function FieldValue(f: Form, name: string): Option<Value>
  {
    if name == "organType" then Some(Text(f.organType))
    else if name == "bloodGroup" then Some(Text(f.bloodGroup))
    else if name == "quantity" then Some(Number(f.quantity))
    else if name == "donor" then Some(Text(f.donor))
    else if name == "hospital" then Some(Text(f.hospital))
    else if name == "inOrOut" then Some(Text(f.inOrOut))
    else if name == "donorReceiverName" then Some(Text(f.donorReceiverName))
    else if name == "age" then Some(Text(f.age))
    else if name == "email" then Some(Text(f.email))
    else if name == "phone" then Some(Text(f.phone))
    else None
  }

  /** The form's fields in declaration order, as `Object.entries` lists them:
      each entry is a field of the form under its own name. */
  function FormEntries(f: Form): (es: seq<Entry>)
    ensures |es| == 10
    ensures forall i :: 0 <= i < |es| ==> FieldValue(f, es[i].name) == Some(es[i].value)
  {
    [ Entry("organType", Text(f.organType)),
      Entry("bloodGroup", Text(f.bloodGroup)),
      Entry("quantity", Number(f.quantity)),
      Entry("donor", Text(f.donor)),
      Entry("hospital", Text(f.hospital)),
      Entry("inOrOut", Text(f.inOrOut)),
      Entry("donorReceiverName", Text(f.donorReceiverName)),
      Entry("age", Text(f.age)),
      Entry("email", Text(f.email)),
      Entry("phone", Text(f.phone)) ]
  }

  /** The chosen documents appended after the form fields. */
  function WithDocuments(fields: seq<Entry>, medicalDocument: bool, identityProof: bool): (r: seq<Entry>)
    ensures forall e :: e in r <==> e in fields || (medicalDocument && e == MedicalDocument) || (identityProof && e == IdentityProof)
    ensures |r| <= |fields| + 2
  {
    fields + (if medicalDocument then [MedicalDocument] else []) + (if identityProof then [IdentityProof] else [])
  }

  /** The multipart body posted for an accepted form: every non-empty field,
      then each document that was chosen. */
  function FormData(f: Form, medicalDocument: bool, identityProof: bool): (r: seq<Entry>)
    // nothing empty is sent, and nothing but form fields and the documents
    ensures forall e :: e in r ==> Truthy(e.value)
    ensures forall e :: e in r ==>
      e == MedicalDocument || e == IdentityProof || FieldValue(f, e.name) == Some(e.value)
    // each field is sent exactly when it is filled in
    ensures forall i :: 0 <= i < |FormEntries(f)| ==> (FormEntries(f)[i] in r <==> Truthy(FormEntries(f)[i].value))
    // each document is sent exactly when it was chosen
    ensures MedicalDocument in r <==> medicalDocument
    ensures IdentityProof in r <==> identityProof
  {
    var entries := FormEntries(f);
    var kept := KeepTruthy(entries);
    assert forall e :: e in kept ==> FieldValue(f, e.name) == Some(e.value);
    WithDocuments(kept, medicalDocument, identityProof)
  }

  /** `handleSubmit`: validate; on success post, and on the server's success
      reset the form and reload the ledger, which now ends with the new record. */
  function HandleSubmit(p: Page, reply: Reply): (p': Page)
    // a refused submission leaves the ledger as it was and reports why
    ensures Validate(p.form, p.organs).Err? ==>
      p' == p.(error := Some(Validate(p.form, p.organs).error))
    // the ledger grows by exactly the submitted record, and only on full success
    ensures p'.error.None? <==> Validate(p.form, p.organs).Ok? && reply.Accepted?
    ensures p'.error.None? ==> p'.organs == p.organs + [RecordOf(p.form)]
    ensures p'.error.Some? ==> p' == p.(error := p'.error)
    // a server refusal is reported with its message or the default one
    ensures Validate(p.form, p.organs).Ok? && reply.Refused? ==>
      p'.error == Some(SubmissionFailed(if reply.message == "" then DefaultFailure else reply.message))
    // success clears the form and both documents
    ensures p'.error.None? ==> p'.form == EmptyForm && !p'.medicalDocument && !p'.identityProof
  {
    match Validate(p.form, p.organs)
    case Err(e) => p.(error := Some(e))
    case Ok(record) =>
      match reply
      case Accepted => Page(EmptyForm, false, false, p.organs + [record], None)
      case Refused(message) =>
        p.(error := Some(SubmissionFailed(if message == "" then DefaultFailure else message)))
  }

  // ---------------------------------------------------------------------
  // Stock properties of the handler
  // ---------------------------------------------------------------------

  /** An accepted "out" lowers its own key by exactly the quantity, so the key
      stays non-negative, and leaves every other key as it was. */
  lemma {:induction false} AcceptedOutDebitsOwnKey(p: Page, reply: Reply, k: Key)
    requires p.form.inOrOut == OutDir
    requires HandleSubmit(p, reply).error.None?
    ensures Available(HandleSubmit(p, reply).organs, FormKey(p.form)) == Available(p.organs, FormKey(p.form)) - p.form.quantity
    ensures Available(HandleSubmit(p, reply).organs, FormKey(p.form)) >= 0
    ensures k != FormKey(p.form) ==> Available(HandleSubmit(p, reply).organs, k) == Available(p.organs, k)
  {
    AvailableAppend(p.organs, RecordOf(p.form), FormKey(p.form));
    AvailableAppend(p.organs, RecordOf(p.form), k);
  }

  /** An accepted "in" raises its own key by exactly the (positive) quantity
      and leaves every other key as it was. */
  lemma {:induction false} AcceptedInCreditsOwnKey(p: Page, reply: Reply, k: Key)
    requires p.form.inOrOut == InDir
    requires HandleSubmit(p, reply).error.None?
    ensures Available(HandleSubmit(p, reply).organs, FormKey(p.form)) == Available(p.organs, FormKey(p.form)) + p.form.quantity
    ensures Available(HandleSubmit(p, reply).organs, FormKey(p.form)) > Available(p.organs, FormKey(p.form))
    ensures k != FormKey(p.form) ==> Available(HandleSubmit(p, reply).organs, k) == Available(p.organs, k)
  {
    AvailableAppend(p.organs, RecordOf(p.form), FormKey(p.form));
    AvailableAppend(p.organs, RecordOf(p.form), k);
  }

  /** A submission with direction "in" or "out" never drives any key negative. */
  lemma {:induction false} HandleSubmitKeepsStock(p: Page, reply: Reply)
    requires WellStocked(p.organs)
    requires p.form.inOrOut == InDir || p.form.inOrOut == OutDir
    ensures WellStocked(HandleSubmit(p, reply).organs)
  {
    var p' := HandleSubmit(p, reply);
    forall k ensures Available(p'.organs, k) >= 0
    {
      if p'.error.None? {
        if p.form.inOrOut == OutDir {
          AcceptedOutDebitsOwnKey(p, reply, k);
        } else {
          AcceptedInCreditsOwnKey(p, reply, k);
        }
      }
    }
  }

  /** A session of submissions: each form is submitted against the page as
      the previous ones left it, each with the server's reply. */
  function Session(p: Page, steps: seq<(Form, Reply)>): Page
    decreases |steps|
  {
    if steps == [] then p
    else Session(HandleSubmit(p.(form := steps[0].0), steps[0].1), steps[1..])
  }

  /** However many submissions are made, as long as each picks "in" or "out"
      the ledger never holds a negative balance for any key. */
  lemma {:induction false} SessionKeepsStock(p: Page, steps: seq<(Form, Reply)>)
    requires WellStocked(p.organs)
    requires forall i :: 0 <= i < |steps| ==> steps[i].0.inOrOut == InDir || steps[i].0.inOrOut == OutDir
    ensures WellStocked(Session(p, steps).organs)
    decreases |steps|
  {
    if steps != [] {
      HandleSubmitKeepsStock(p.(form := steps[0].0), steps[0].1);
      SessionKeepsStock(HandleSubmit(p.(form := steps[0].0), steps[0].1), steps[1..]);
    }
  }

  /** Neither check looks at a direction other than "in" and "out", yet every
      derived figure counts such a record as outgoing: a form whose direction
      is still the empty placeholder passes on an empty ledger and leaves its
      key at a negative balance (only the select's `required` attribute keeps
      a browser from sending it). */
  lemma {:induction false} UnsetDirectionBypassesStockCheck()
    ensures
      var f := Form("Kidney", "A-", 1, "", "", "", "Ann", "40", "a@b.c", "123");
      var p := Page(f, true, true, [], None);
      && HandleSubmit(p, Accepted).error.None?
      && Available(HandleSubmit(p, Accepted).organs, Key("Kidney", "A-")) == -1
      && !WellStocked(HandleSubmit(p, Accepted).organs)
  {
    var f := Form("Kidney", "A-", 1, "", "", "", "Ann", "40", "a@b.c", "123");
    var p := Page(f, true, true, [], None);
    AvailableAppend([], RecordOf(f), Key("Kidney", "A-"));
  }

  // ---------------------------------------------------------------------
  // Record display
  // ---------------------------------------------------------------------

  function UpperChar(c: char): (u: char)
    ensures 'a' <= c <= 'z' ==> 'A' <= u <= 'Z' && u as int == c as int - 32
    ensures !('a' <= c <= 'z') ==> u == c
  {
    if 'a' <= c <= 'z' then (c as int - 32) as char else c
  }

  function Upper(s: string): (u: string)
    ensures |u| == |s|
    ensures forall i :: 0 <= i < |s| ==> u[i] == UpperChar(s[i])
  {
    if s == [] then [] else [UpperChar(s[0])] + Upper(s[1..])
  }

  /** `formatType`: the direction upper-cased, or "N/A" when the record's
      direction is not a string (`None` here). */
  function FormatType(t: Option<string>): (r: string)
    ensures t.None? ==> r == "N/A"
    ensures t.Some? ==> |r| == |t.value| && forall i :: 0 <= i < |r| ==> !('a' <= r[i] <= 'z')
    ensures t.Some? ==> forall i :: 0 <= i < |r| ==> r[i] == UpperChar(t.value[i])
  {
    match t
    case None => "N/A"
    case Some(s) => Upper(s)
  }

  /** Formatting is idempotent, and the two directions read "IN" and "OUT". */
  lemma {:induction false} FormatTypeProperties(s: string)
    ensures FormatType(Some(FormatType(Some(s)))) == FormatType(Some(s))
    ensures FormatType(Some(InDir)) == "IN"
    ensures FormatType(Some(OutDir)) == "OUT"
  {
    assert Upper(InDir) == "IN";
    assert Upper(OutDir) == "OUT";
  }
}
