/** The "Manage Blood Record" modal's submit handler: a presence check of the
    three inputs, then the create-inventory payload whose donor or hospital is
    chosen by the inventory type (src/components/shared/modal/Modal.js). */
module BloodModal {
  import opened Common
  import opened Numbers
  import opened AuthSlice

  /** The fixed donor and hospital the modal attaches to every record. */
  const TestDonorId: string := "66535d9715d2c9f4c2a6d45a"
  const TestHospitalId: string := "66535c8215d2c9f4c2a6d23b"

  /** The modal's inputs, as the strings the controls hold. */
  datatype BloodForm = BloodForm(inventoryType: string, bloodGroup: string, quantity: string, email: string)

  /** The form when the modal opens: type "in", everything else empty. */
  const InitialForm: BloodForm := BloodForm("in", "", "", "")

  /** The create-inventory request body. An absent property is `None`; a
      quantity of `None` is NaN. */
  datatype BloodPayload = BloodPayload(
    email: string,
    organisation: Option<string>,
    inventoryType: string,
    bloodGroup: string,
    quantity: Option<int>,
    donar: Option<string>,
    hospital: Option<string>)

  datatype BloodError = FillAllFields

  /** `handleModalSubmit`, for the signed-in `user` of the auth slice. */
  function Submit(f: BloodForm, user: Option<User>): (r: Result<BloodPayload, BloodError>)
    // rejected exactly when one of the three inputs is empty
    ensures r.Err? <==> f.email == "" || f.bloodGroup == "" || f.quantity == ""
    // the inputs are carried over, the quantity as `parseInt` reads it
    ensures r.Ok? ==>
      && r.value.email == f.email
      && r.value.inventoryType == f.inventoryType
      && r.value.bloodGroup == f.bloodGroup
      && r.value.quantity == ParseInt(f.quantity)
    // the organisation is the signed-in user, absent when nobody is
    ensures r.Ok? ==> (r.value.organisation.Some? <==> user.Some?)
    ensures r.Ok? && user.Some? ==> r.value.organisation == Some(user.value.id)
    // the donor for "in", the hospital for "out", never both
    ensures r.Ok? ==> (r.value.donar.Some? <==> f.inventoryType == "in")
    ensures r.Ok? ==> (r.value.hospital.Some? <==> f.inventoryType == "out")
    ensures r.Ok? ==> r.value.donar.Some? ==> r.value.donar.value == TestDonorId
    ensures r.Ok? ==> r.value.hospital.Some? ==> r.value.hospital.value == TestHospitalId
    ensures r.Ok? ==> !(r.value.donar.Some? && r.value.hospital.Some?)
  {
    if f.email == "" || f.bloodGroup == "" || f.quantity == "" then Err(FillAllFields)
    else
      var organisation := if user.Some? then Some(user.value.id) else None;
      var base := BloodPayload(f.email, organisation, f.inventoryType, f.bloodGroup, ParseInt(f.quantity), None, None);
      if f.inventoryType == "in" then Ok(base.(donar := Some(TestDonorId)))
      else if f.inventoryType == "out" then Ok(base.(hospital := Some(TestHospitalId)))
      else Ok(base)
  }

  /** The check is about presence only: a filled form passes whatever its
      quantity says, and the payload's quantity is the number written in it,
      signed or not, with any fractional part dropped ("0" passes as 0). */
  lemma {:induction false} PresenceOnly(email: string, bloodGroup: string, inventoryType: string, d: string, user: Option<User>)
    requires email != "" && bloodGroup != ""
    requires AllDigits(d) && d != []
    ensures var r := Submit(BloodForm(inventoryType, bloodGroup, d, email), user);
      r.Ok? && r.value.quantity == Some(DigitsValue(d) as int)
    ensures var r := Submit(BloodForm(inventoryType, bloodGroup, "-" + (d + ".5"), email), user);
      r.Ok? && r.value.quantity == Some(-(DigitsValue(d) as int))
  {
    ParseIntUnsigned(d, "");
    assert d + "" == d;
    ParseIntNegative(d, ".5");
  }

  /** The modal opens on an "in" record, and submitting it untouched is refused. */
  lemma {:induction false} InitialFormIsIncomingAndRefused(user: Option<User>)
    ensures InitialForm.inventoryType == "in"
    ensures Submit(InitialForm, user) == Err(FillAllFields)
  {
  }
}
