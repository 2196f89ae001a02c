/**
 * The admissions form controller: seven controlled inputs, a submit handler
 * that posts every named control of the form and treats any settled request
 * as success, and a success modal.
 */
module Admissions {
  import opened FormFields

  /** The controlled inputs, in the order they appear in the form. */
  const AdmissionOrder: seq<string> :=
    ["firstName", "lastName", "email", "phone", "program", "educationLevel", "message"]

  const AdmissionKeys: set<string> := set k | k in AdmissionOrder

  /** The inputs marked `required`; the free-text message is optional. */
  const RequiredKeys: set<string> := set k | k in AdmissionOrder && k != "message"

  /** Value of the hidden input that names the form to the form backend. */
  const FormName: string := "admission"

  /** How the awaited request settled; the status is never looked at. */
  datatype Outcome = Resolved(status: int) | Threw

  /** What the browser's constraint validation lets through to the handler. */
  predicate RequiredFilled(fields: Fields)
    requires AdmissionKeys <= fields.Keys
  {
    forall k :: k in RequiredKeys ==> fields[k] != ""
  }

  /** Only the six required inputs decide whether the browser lets a submit through. */
  lemma MessageIsOptional(fields: Fields, message: string)
    requires AdmissionKeys <= fields.Keys
    ensures RequiredFilled(fields["message" := message]) == RequiredFilled(fields)
  {
  }

  /**
   * The request body: every named control of the form in document order,
   * that is the hidden form name, the honeypot and the seven inputs.
   */
  function Payload(fields: Fields, botField: string): (r: Pairs)
    requires AdmissionKeys <= fields.Keys
    ensures |r| == 2 + |AdmissionOrder|
    ensures r[0] == ("form-name", FormName) && r[1] == ("bot-field", botField)
  {
    [("form-name", FormName), ("bot-field", botField)] + Serialize(fields, AdmissionOrder)
  }

  /**
   * Decoding the request finds the form name, the honeypot value and the
   * value of each of the seven inputs, and nothing else.
   */
  lemma {:induction false} PayloadDecodes(fields: Fields, botField: string)
    requires AdmissionKeys <= fields.Keys
    ensures Get(Payload(fields, botField), "form-name") == Some(FormName)
    ensures Get(Payload(fields, botField), "bot-field") == Some(botField)
    ensures forall k :: k in AdmissionKeys ==> Get(Payload(fields, botField), k) == Some(fields[k])
    ensures forall k :: k !in AdmissionKeys && k != "form-name" && k != "bot-field" ==>
      Get(Payload(fields, botField), k) == None
  {
    var front: Pairs := [("form-name", FormName), ("bot-field", botField)];
    var body := Serialize(fields, AdmissionOrder);
    assert Payload(fields, botField) == front + body;
    assert Distinct(AdmissionOrder);
    SerializeRoundTrip(fields, AdmissionOrder);
    forall k | k != "form-name" && k != "bot-field"
      ensures Get(front + body, k) == Get(body, k)
    {
      GetSkip(front, body, k);
    }
  }

  class AdmissionsPage {
    var formData: Fields
    var showSuccessModal: bool
    /** Number of `console.error` calls. */
    var errorsLogged: nat

    /** The key set of the form never changes. */
    ghost predicate Valid()
      reads this
    {
      formData.Keys == AdmissionKeys
    }

    /** The state at mount: every field empty and no modal. */
    constructor ()
      ensures Valid()
      ensures formData == Blank(AdmissionKeys)
      ensures !showSuccessModal && errorsLogged == 0
    {
      formData := Blank(AdmissionKeys);
      showSuccessModal := false;
      errorsLogged := 0;
    }

    /** An input of the form reports a new value. */
    method HandleInputChange(name: string, value: string)
      requires Valid()
      requires name in AdmissionKeys
      modifies this`formData
      ensures Valid()
      ensures formData == SetField(old(formData), name, value)
    {
      formData := SetField(formData, name, value);
    }

    /**
     * The submit handler up to its await: it changes no state and issues
     * exactly one request, whatever is already in flight. `botField` is the
     * content of the uncontrolled honeypot input.
     */
    method HandleSubmit(botField: string) returns (request: Pairs)
      requires Valid()
      requires RequiredFilled(formData)
      ensures request == Payload(formData, botField)
    {
      request := Payload(formData, botField);
    }

    /**
     * The submit handler after its await: any resolved request opens the
     * modal and clears all seven fields; a thrown one is only logged.
     */
    method SettleSubmit(outcome: Outcome)
      requires Valid()
      modifies this
      ensures Valid()
      ensures outcome.Resolved? ==> showSuccessModal && formData == Blank(AdmissionKeys)
      ensures outcome.Resolved? ==> errorsLogged == old(errorsLogged)
      ensures outcome.Threw? ==> formData == old(formData) && showSuccessModal == old(showSuccessModal)
      ensures outcome.Threw? ==> errorsLogged == old(errorsLogged) + 1
    {
      match outcome
      case Resolved(_) =>
        showSuccessModal := true;
        formData := Blank(AdmissionKeys);
      case Threw =>
        errorsLogged := errorsLogged + 1;
    }
  }

  /**
   * A filled-in form submitted twice before either request settles: both
   * submits issue the same request. One request resolves and the later one
   * throws; the thrown one is only logged, so the form stays cleared and the
   * modal stays open.
   */
  method RaceScenario(page: AdmissionsPage)
    requires page.Valid() && RequiredFilled(page.formData)
    modifies page
    ensures page.showSuccessModal && page.formData == Blank(AdmissionKeys)
    ensures page.errorsLogged == old(page.errorsLogged) + 1
  {
    var first := page.HandleSubmit("");
    var second := page.HandleSubmit("");
    assert first == second && Get(first, "form-name") == Some(FormName) by {
      PayloadDecodes(page.formData, "");
    }
    page.SettleSubmit(Resolved(500));
    page.SettleSubmit(Threw);
  }
}
