/** The "Add Organ" modal's submit handler: a required-field check in a fixed
    order, a check that both documents are attached, and the multipart payload
    naming the signed-in user as donor or as hospital by direction
    (src/components/shared/modal/OrganModal.js). */
module OrganModal {
  import opened Common

  /** The modal's form. Fields are dynamically typed: the quantity starts as
      the number 1, and every field the user edits holds the input's string. */
  datatype ModalForm = ModalForm(
    organType: Value,
    bloodGroup: Value,
    quantity: Value,
    inOrOut: Value,
    donorReceiverName: Value,
    age: Value,
    email: Value,
    phone: Value)

  /** The form when the modal opens: direction "in", quantity 1, the rest empty. */
  const InitialForm: ModalForm :=
    ModalForm(Text(""), Text(""), Number(1), Text("in"), Text(""), Text(""), Text(""), Text(""))

  /** The fields that must be filled, in the order they are checked. */
  const RequiredFields: seq<string> :=
    ["organType", "bloodGroup", "quantity", "inOrOut", "donorReceiverName", "age", "email", "phone"]

  const DonorField: string := "donor"
  const HospitalField: string := "hospital"

  datatype ModalError = MissingField(field: string) | MissingDocuments

  /** The form's fields in key order; the required-field list names every
      field of the form, in that same order. */
  function Fields(f: ModalForm): (es: seq<Entry>)
    ensures |es| == |RequiredFields|
    ensures forall i :: 0 <= i < |es| ==> es[i].name == RequiredFields[i]
  {
    [ Entry("organType", f.organType),
      Entry("bloodGroup", f.bloodGroup),
      Entry("quantity", f.quantity),
      Entry("inOrOut", f.inOrOut),
      Entry("donorReceiverName", f.donorReceiverName),
      Entry("age", f.age),
      Entry("email", f.email),
      Entry("phone", f.phone) ]
  }

  /** Field `i` is the first required field that is not filled. */
  ghost predicate FirstMissing(f: ModalForm, i: int)
  {
    && 0 <= i < |RequiredFields|
    && !Truthy(Fields(f)[i].value)
    && forall j :: 0 <= j < i ==> Truthy(Fields(f)[j].value)
  }

  ghost predicate AllFilled(f: ModalForm)
  {
    forall i :: 0 <= i < |RequiredFields| ==> Truthy(Fields(f)[i].value)
  }

  /** The counterparty entry: the user is the donor of an "in" and the
      hospital of anything else. */
  function Counterparty(f: ModalForm, userId: string): (e: Entry)
    ensures e.value == Text(userId)
    ensures e.name == DonorField <==> f.inOrOut == Text("in")
    ensures e.name == HospitalField <==> f.inOrOut != Text("in")
  {
    if f.inOrOut == Text("in") then Entry(DonorField, Text(userId))
    else Entry(HospitalField, Text(userId))
  }

  /** The multipart body: every field unchanged and in order, then exactly
      one of donor/hospital, then both documents. */
  function Payload(f: ModalForm, userId: string): (r: seq<Entry>)
    ensures |r| == |Fields(f)| + 3
    ensures r[..|Fields(f)|] == Fields(f)
    ensures r[|Fields(f)|] == Counterparty(f, userId)
    ensures r[|Fields(f)| + 1..] == [MedicalDocument, IdentityProof]
    ensures forall i :: 0 <= i < |r| && i != |Fields(f)| ==> r[i].name != DonorField && r[i].name != HospitalField
  {
    var fields := Fields(f);
    assert forall i :: 0 <= i < |fields| ==> fields[i].name != DonorField && fields[i].name != HospitalField;
    fields + [Counterparty(f, userId), MedicalDocument, IdentityProof]
  }

  /** `handleSubmit`: stop at the first empty required field, then at a missing
      document; otherwise build the payload. */
  method HandleSubmit(f: ModalForm, hasMedicalDocument: bool, hasIdentityProof: bool, userId: string)
    returns (r: Result<seq<Entry>, ModalError>)
    ensures r.Err? && r.error.MissingField? <==> !AllFilled(f)
    ensures r.Err? && r.error.MissingField? ==>
      exists i :: FirstMissing(f, i) && r.error.field == RequiredFields[i]
    ensures r == Err(MissingDocuments) <==> AllFilled(f) && !(hasMedicalDocument && hasIdentityProof)
    ensures r.Ok? <==> AllFilled(f) && hasMedicalDocument && hasIdentityProof
    ensures r.Ok? ==> r.value == Payload(f, userId)
  {
    var fields := Fields(f);
    var i := 0;
    while i < |RequiredFields|
      invariant 0 <= i <= |RequiredFields|
      invariant forall j :: 0 <= j < i ==> Truthy(fields[j].value)
    {
      if !Truthy(fields[i].value) {
        assert FirstMissing(f, i);
        return Err(MissingField(RequiredFields[i]));
      }
      i := i + 1;
    }
    if !hasMedicalDocument || !hasIdentityProof {
      return Err(MissingDocuments);
    }
    return Ok(Payload(f, userId));
  }

  /** The modal opens on an "in" of quantity 1; a falsy quantity (the number
      0 or the empty string) is reported as the missing field once the two
      fields before it are filled, and the string "0" is not falsy. */
  lemma {:induction false} QuantityChecks(organType: string, bloodGroup: string)
    requires organType != "" && bloodGroup != ""
    ensures InitialForm.inOrOut == Text("in") && InitialForm.quantity == Number(1)
    ensures FirstMissing(InitialForm, 0)
    ensures FirstMissing(InitialForm.(organType := Text(organType), bloodGroup := Text(bloodGroup), quantity := Number(0)), 2)
    ensures FirstMissing(InitialForm.(organType := Text(organType), bloodGroup := Text(bloodGroup), quantity := Text("")), 2)
    ensures FirstMissing(InitialForm.(organType := Text(organType), bloodGroup := Text(bloodGroup), quantity := Text("0")), 4)
  {
  }
}
