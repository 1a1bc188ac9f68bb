/**
 * The help-request form: its validator, its default values and the submission
 * that resets it.
 */
module RequestHelp {

  datatype HelpRequestForm = HelpRequestForm(
    name: string,
    phone: string,
    location: string,
    requestType: string,
    urgencyLevel: string,
    peopleCount: string,
    description: string)

  /** The fields a validation message can be attached to. */
  datatype Field = Name | Phone | Location | RequestType | UrgencyLevel | PeopleCount | Description

  const AllFields: seq<Field> := [Name, Phone, Location, RequestType, UrgencyLevel, PeopleCount, Description]

  /** The values of the request-type enum, which are also the select's options. */
  const RequestTypes: seq<string> := ["rescue", "medical", "food", "shelter", "other"]

  /** The values of the urgency enum, which are also the radio buttons. */
  const UrgencyLevels: seq<string> := ["emergency", "high", "medium", "low"]

  /** The options of the number-of-people select. */
  const PeopleCountOptions: seq<string> := ["1", "2", "3", "4", "5", "6", "7", "8", "9", "10", "11+"]

  /** Whether `field` fails its rule in `helpRequestSchema`; the people count is any string. */
  predicate Fails(f: HelpRequestForm, field: Field)
  {
    match field
    case Name => |f.name| < 2
    case Phone => |f.phone| < 10
    case Location => |f.location| < 5
    case RequestType => f.requestType !in RequestTypes
    case UrgencyLevel => f.urgencyLevel !in UrgencyLevels
    case PeopleCount => false
    case Description => |f.description| < 10
  }

  /** The fields that carry a validation message. */
  function Errors(f: HelpRequestForm): (errs: set<Field>)
    ensures forall field :: field in errs <==> Fails(f, field)
    ensures PeopleCount !in errs
  {
    set field | field in AllFields && Fails(f, field)
  }

  /** The request is submitted exactly when every rule holds. */
  lemma AcceptedIff(f: HelpRequestForm)
    ensures Errors(f) == {} <==>
      |f.name| >= 2 && |f.phone| >= 10 && |f.location| >= 5 &&
      f.requestType in RequestTypes && f.urgencyLevel in UrgencyLevels && |f.description| >= 10
  {
    var errs := Errors(f);
    if errs == {} {
      assert Name !in errs && Phone !in errs && Location !in errs;
      assert RequestType !in errs && UrgencyLevel !in errs && Description !in errs;
    } else {
      var field :| field in errs;
      assert Fails(f, field);
    }
  }

  /** Whatever number of people is chosen, the verdict on the form is the same. */
  lemma PeopleCountNeverMatters(f: HelpRequestForm, count: string)
    ensures Errors(f.(peopleCount := count)) == Errors(f)
  {
    var g := f.(peopleCount := count);
    forall field: Field ensures Fails(g, field) == Fails(f, field) {
    }
  }

  const DefaultForm: HelpRequestForm := HelpRequestForm("", "", "", "rescue", "high", "1", "")

  /**
   * The default request type, urgency and people count pass their rules, and the
   * default form is rejected exactly on the four empty text fields.
   */
  lemma DefaultFormErrors()
    ensures DefaultForm.requestType in RequestTypes
    ensures DefaultForm.urgencyLevel in UrgencyLevels
    ensures DefaultForm.peopleCount in PeopleCountOptions
    ensures Errors(DefaultForm) == {Name, Phone, Location, Description}
  {
    assert RequestTypes[0] == "rescue";
    assert UrgencyLevels[1] == "high";
    assert PeopleCountOptions[0] == "1";
    var errs := Errors(DefaultForm);
    assert RequestType !in errs && UrgencyLevel !in errs && PeopleCount !in errs;
  }

  /** The help-request page: the form's values and the submission flag. */
  class HelpRequestPage {
    var values: HelpRequestForm
    var isSubmitting: bool

    constructor ()
      ensures values == DefaultForm && !isSubmitting
    {
      values := DefaultForm;
      isSubmitting := false;
    }

    /** Editing the form. */
    method Edit(f: HelpRequestForm)
      modifies this
      ensures values == f && isSubmitting == old(isSubmitting)
    {
      values := f;
    }

    /**
     * Pressing "Submit Help Request". The button is disabled while a submission is
     * pending; otherwise the handler runs only when validation passes.
     */
    method Submit()
      modifies this
      ensures isSubmitting == (old(isSubmitting) || Errors(old(values)) == {})
      ensures values == old(values)
    {
      if !isSubmitting && Errors(values) == {} {
        isSubmitting := true;
      }
    }

    /** The simulated call completes and the form returns to its defaults, which are rejected. */
    method SubmissionSettled()
      modifies this
      ensures !isSubmitting && values == DefaultForm
      ensures Errors(values) != {}
    {
      DefaultFormErrors();
      isSubmitting := false;
      values := DefaultForm;
    }
  }
}
