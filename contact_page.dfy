/**
 * The contact form controller: five controlled inputs, a submit handler that
 * validates, posts the fields as URL-encoded pairs and reads a JSON reply,
 * and a success modal.
 */
module Contact {
  import opened FormFields

  /** The inputs of the form, in the order the request lists them. */
  const ContactOrder: seq<string> := ["name", "email", "phone", "subject", "message"]

  const ContactKeys: set<string> := set k | k in ContactOrder

  /** The fields the submit handler refuses to send empty; `phone` is not one. */
  const RequiredKeys: set<string> := {"name", "email", "subject", "message"}

  const RequiredAlert: string := "Please fill in all required fields"
  const ErrorAlert: string := "There was an error submitting the form. Please try again."

  /** How the awaited request settled: a parsed JSON body, or a thrown error. */
  datatype Reply =
    | Replied(result: Option<string>)  // the body's `result` member, if it is a string
    | Threw                            // fetch rejected, or the body was not JSON

  /** The handler's validation: some required field is the empty string. */
  predicate MissingRequired(fields: Fields)
    requires ContactKeys <= fields.Keys
  {
    fields["name"] == "" || fields["email"] == "" || fields["subject"] == "" || fields["message"] == ""
  }

  /** A reply counts as success only when its `result` is exactly "success". */
  predicate Succeeded(reply: Reply) {
    reply.Replied? && reply.result == Some("success")
  }

  /** The phone number never decides whether the form is sent. */
  lemma PhoneIsOptional(fields: Fields, phone: string)
    requires ContactKeys <= fields.Keys
    ensures MissingRequired(fields["phone" := phone]) == MissingRequired(fields)
  {
  }

  /**
   * Builds the request body one append at a time, as the handler fills its
   * URLSearchParams buffer.
   */
  method BuildParams(fields: Fields) returns (params: Pairs)
    requires ContactKeys <= fields.Keys
    ensures params == Serialize(fields, ContactOrder)
  {
    params := [];
    params := params + [("name", fields["name"])];
    params := params + [("email", fields["email"])];
    params := params + [("phone", fields["phone"])];
    params := params + [("subject", fields["subject"])];
    params := params + [("message", fields["message"])];
    var expected := Serialize(fields, ContactOrder);
    assert |expected| == 5;
    assert forall i :: 0 <= i < 5 ==> params[i] == expected[i];
  }

  /**
   * The request carries exactly the five fields, in the fixed order, and
   * decoding it gives back each field's current value.
   */
  lemma RequestDecodes(fields: Fields)
    requires ContactKeys <= fields.Keys
    ensures |Serialize(fields, ContactOrder)| == 5
    ensures forall i :: 0 <= i < 5 ==> Serialize(fields, ContactOrder)[i].0 == ContactOrder[i]
    ensures forall k :: k in ContactKeys ==> Get(Serialize(fields, ContactOrder), k) == Some(fields[k])
    ensures forall k :: k !in ContactKeys ==> Get(Serialize(fields, ContactOrder), k) == None
  {
    assert Distinct(ContactOrder);
    SerializeRoundTrip(fields, ContactOrder);
  }

  class ContactPage {
    var formData: Fields
    var showSuccessModal: bool
    var isSubmitting: bool
    /** Messages passed to `alert`, oldest first. */
    var alerts: seq<string>
    /** Number of `console.error` calls. */
    var errorsLogged: nat

    /** The key set of the form never changes. */
    ghost predicate Valid()
      reads this
    {
      formData.Keys == ContactKeys
    }

    /** The state at mount: every field empty, no modal, nothing in flight. */
    constructor ()
      ensures Valid()
      ensures formData == Blank(ContactKeys)
      ensures !showSuccessModal && !isSubmitting
      ensures alerts == [] && errorsLogged == 0
    {
      formData := Blank(ContactKeys);
      showSuccessModal := false;
      isSubmitting := false;
      alerts := [];
      errorsLogged := 0;
    }

    /** An input of the form reports a new value. */
    method HandleInputChange(name: string, value: string)
      requires Valid()
      requires name in ContactKeys
      modifies this`formData
      ensures Valid()
      ensures formData == SetField(old(formData), name, value)
    {
      formData := SetField(formData, name, value);
    }

    /**
     * The submit handler up to its await. A missing required field raises
     * the alert and sends nothing; otherwise the request is issued and the
     * form is marked as submitting. The submit button is disabled while a
     * request is outstanding, so the browser does not submit the form then.
     */
    method HandleSubmit() returns (request: Option<Pairs>)
      requires Valid()
      requires !isSubmitting
      modifies this`isSubmitting, this`alerts
      ensures Valid()
      ensures request.None? <==> MissingRequired(formData)
      ensures request.None? ==> !isSubmitting && alerts == old(alerts) + [RequiredAlert]
      ensures request.Some? ==> request.value == Serialize(formData, ContactOrder)
      ensures request.Some? ==> isSubmitting && alerts == old(alerts)
    {
      if MissingRequired(formData) {
        alerts := alerts + [RequiredAlert];
        return None;
      }
      isSubmitting := true;
      var params := BuildParams(formData);
      request := Some(params);
    }

    /**
     * The submit handler after its await. Success opens the modal and clears
     * every field; any other reply or a thrown error keeps the fields, logs
     * and alerts. Either way the form is no longer submitting.
     */
    method SettleSubmit(reply: Reply)
      requires Valid()
      requires isSubmitting
      modifies this
      ensures Valid()
      ensures !isSubmitting
      ensures Succeeded(reply) ==> showSuccessModal && formData == Blank(ContactKeys)
      ensures Succeeded(reply) ==> alerts == old(alerts) && errorsLogged == old(errorsLogged)
      ensures !Succeeded(reply) ==> formData == old(formData) && showSuccessModal == old(showSuccessModal)
      ensures !Succeeded(reply) ==> alerts == old(alerts) + [ErrorAlert] && errorsLogged == old(errorsLogged) + 1
    {
      if Succeeded(reply) {
        showSuccessModal := true;
        formData := Blank(ContactKeys);
      } else {
        errorsLogged := errorsLogged + 1;
        alerts := alerts + [ErrorAlert];
      }
      isSubmitting := false;
    }

    /** The modal's Close button. */
    method CloseModal()
      requires Valid()
      modifies this`showSuccessModal
      ensures Valid()
      ensures !showSuccessModal
    {
      showSuccessModal := false;
    }
  }
}
