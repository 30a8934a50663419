/** The contact form on the public page: three text fields and a status that
    goes idle -> sending -> success or error. The component's state and the
    effects it starts (requests in flight, auto-close timers) are the fields
    of class `ContactModal`; `Step` is the same machine as a function, and the
    lemmas below are about every sequence of user actions and responses. */
module Contact {

  datatype Status = Idle | Sending | Success | Error

  /** The `name` attribute of each input. */
  datatype Field = Name | Email | Message

  /** `formData`, which is also the JSON body of the request. */
  datatype FormData = FormData(name: string, email: string, message: string)

  /** How the `fetch` ended: with an HTTP response, or by throwing. */
  datatype FetchOutcome = Responded(statusCode: int) | Threw

  /** `response.ok`: a status in the 2xx range. */
  predicate IsOk(o: FetchOutcome)
  {
    o.Responded? && 200 <= o.statusCode <= 299
  }

  function Get(f: FormData, field: Field): string
  {
    match field
    case Name => f.name
    case Email => f.email
    case Message => f.message
  }

  /** `{ ...formData, [name]: value }`. */
  function SetField(f: FormData, field: Field, value: string): (r: FormData)
    ensures Get(r, field) == value
    ensures forall other :: other != field ==> Get(r, other) == Get(f, other)
  {
    match field
    case Name => f.(name := value)
    case Email => f.(email := value)
    case Message => f.(message := value)
  }

  /** What the modal shows: the confirmation, or the form with or without the
      error notice and with its submit button enabled or disabled. */
  datatype View = Confirmation | FormView(errorNotice: bool, submitDisabled: bool)

  function Render(status: Status): (v: View)
    ensures v.Confirmation? <==> status == Success
    ensures v.FormView? ==> (v.errorNotice <==> status == Error) && (v.submitDisabled <==> status == Sending)
  {
    if status == Success then Confirmation
    else FormView(errorNotice := status == Error, submitDisabled := status == Sending)
  }

  /** The delay, in milliseconds, after which a successful submission
      closes the modal. */
  const CloseDelay: nat := 3000

  /** The component state together with the effects it has started: requests
      whose response has not arrived yet, and the delays of the auto-close
      timers scheduled. */
  datatype ContactState = ContactState(form: FormData, status: Status, inFlight: nat, closeTimers: seq<nat>)

  const Initial := ContactState(FormData("", "", ""), Idle, 0, [])

  /** What can happen to the modal: typing into a field, submitting, and the
      response to a request arriving. */
  datatype Action = Change(field: Field, value: string) | Submit | Respond(outcome: FetchOutcome)

  /** Whether an action is possible from the UI: the inputs and the submit
      button exist only while the form is shown, the button is disabled while
      sending, and a response needs a request in flight. */
  predicate Enabled(s: ContactState, a: Action)
  {
    match a
    case Change(_, _) => Render(s.status).FormView?
    case Submit => Render(s.status).FormView? && !Render(s.status).submitDisabled
    case Respond(_) => s.inFlight > 0
  }

  /** The effect of one action. */
  function Step(s: ContactState, a: Action): ContactState
  {
    match a
    case Change(field, value) => s.(form := SetField(s.form, field, value))
    case Submit => s.(status := Sending, inFlight := s.inFlight + 1)
    case Respond(o) =>
      var done := if s.inFlight > 0 then s.inFlight - 1 else 0;
      if IsOk(o) then s.(status := Success, inFlight := done, closeTimers := s.closeTimers + [CloseDelay])
      else s.(status := Error, inFlight := done)
  }

  /** The state after a sequence of actions. */
  function Run(s: ContactState, acts: seq<Action>): ContactState
    decreases |acts|
  {
    if acts == [] then s else Step(Run(s, acts[..|acts| - 1]), acts[|acts| - 1])
  }

  /** Every action of the sequence is enabled when it happens. */
  predicate Allowed(s: ContactState, acts: seq<Action>)
    decreases |acts|
  {
    acts == [] || (Allowed(s, acts[..|acts| - 1]) && Enabled(Run(s, acts[..|acts| - 1]), acts[|acts| - 1]))
  }

  /** At most one request is outstanding, exactly while sending, and one
      auto-close after `CloseDelay` is scheduled, exactly when the submission
      succeeded. */
  predicate Consistent(s: ContactState)
  {
    && s.inFlight <= 1
    && (s.inFlight == 1 <==> s.status == Sending)
    && s.closeTimers == (if s.status == Success then [CloseDelay] else [])
  }

  lemma StepConsistent(s: ContactState, a: Action)
    requires Consistent(s) && Enabled(s, a)
    ensures Consistent(Step(s, a))
  {
  }

  /** `Consistent` holds in every state the modal can reach. */
  lemma {:induction false} ReachableConsistent(acts: seq<Action>)
    requires Allowed(Initial, acts)
    ensures Consistent(Run(Initial, acts))
    decreases |acts|
  {
    if acts != [] {
      var pre := acts[..|acts| - 1];
      ReachableConsistent(pre);
      StepConsistent(Run(Initial, pre), acts[|acts| - 1]);
    }
  }

  /** Once the submission succeeded nothing more can happen in the modal. */
  lemma SuccessIsFinal(s: ContactState, a: Action)
    requires Consistent(s) && s.status == Success
    ensures !Enabled(s, a)
  {
  }

  /** A submission ends in success only through a 2xx response, and every
      other response, or a thrown fetch, ends in error. */
  lemma ResponseOutcome(s: ContactState, o: FetchOutcome)
    requires Consistent(s) && Enabled(s, Respond(o))
    ensures s.status == Sending
    ensures Step(s, Respond(o)).status == (if IsOk(o) then Success else Error)
    ensures Step(s, Respond(o)).inFlight == 0
    ensures Step(s, Respond(o)).form == s.form
  {
  }

  /** Reaching success means the last thing that happened was a 2xx response. */
  lemma {:induction false} SuccessComesFromOk(acts: seq<Action>)
    requires Allowed(Initial, acts)
    requires Run(Initial, acts).status == Success
    ensures acts != [] && acts[|acts| - 1].Respond? && IsOk(acts[|acts| - 1].outcome)
  {
    if acts != [] {
      var pre := acts[..|acts| - 1];
      ReachableConsistent(pre);
      var s := Run(Initial, pre);
      if s.status == Success {
        SuccessIsFinal(s, acts[|acts| - 1]);
      }
    }
  }

  /** After an error the form is still there, with the notice, and can be
      submitted again. */
  lemma ErrorAllowsResubmit(s: ContactState)
    requires s.status == Error
    ensures Render(s.status) == FormView(true, false)
    ensures Enabled(s, Submit) && Step(s, Submit).status == Sending
  {
  }

  /** The modal component. */
  class ContactModal {
    var formData: FormData
    var status: Status
    /** Requests sent whose response has not arrived. */
    var inFlight: nat
    /** The delays of the auto-close timers scheduled with `setTimeout`. */
    var closeTimers: seq<nat>

    function State(): ContactState
      reads this
    {
      ContactState(formData, status, inFlight, closeTimers)
    }

    /** The invariant of every modal: `Consistent` on its current state. */
    predicate Valid()
      reads this
    {
      Consistent(State())
    }

    constructor ()
      ensures State() == Initial
      ensures Valid()
    {
      formData := FormData("", "", "");
      status := Idle;
      inFlight := 0;
      closeTimers := [];
    }

    function View(): (v: View)
      reads this
      ensures v.Confirmation? <==> status == Success
      ensures v.FormView? ==> (v.errorNotice <==> status == Error) && (v.submitDisabled <==> status == Sending)
    {
      Render(status)
    }

    /** `handleChange`: only the named field takes the typed value. */
    method HandleChange(field: Field, value: string)
      requires Valid() && Enabled(State(), Change(field, value))
      modifies this
      ensures State() == Step(old(State()), Change(field, value))
      ensures Valid()
      ensures Get(formData, field) == value
      ensures forall other :: other != field ==> Get(formData, other) == Get(old(formData), other)
    {
      StepConsistent(State(), Change(field, value));
      formData := SetField(formData, field, value);
    }

    /** `handleSubmit` up to the request: the status becomes `sending` and the
        request carries exactly the current form data. */
    method HandleSubmit() returns (request: FormData)
      requires Valid() && Enabled(State(), Submit)
      modifies this
      ensures request == old(formData)
      ensures State() == Step(old(State()), Submit)
      ensures Valid()
    {
      StepConsistent(State(), Submit);
      status := Sending;
      request := formData;
      inFlight := inFlight + 1;
    }

    /** The rest of `handleSubmit`, once the request has settled: success
        schedules the auto-close, anything else means error. */
    method ReceiveResponse(outcome: FetchOutcome)
      requires Valid() && Enabled(State(), Respond(outcome))
      modifies this
      ensures State() == Step(old(State()), Respond(outcome))
      ensures Valid()
    {
      StepConsistent(State(), Respond(outcome));
      inFlight := inFlight - 1;
      if IsOk(outcome) {
        status := Success;
        closeTimers := closeTimers + [CloseDelay];
      } else {
        status := Error;
      }
    }
  }

  /** End to end: filling the form and getting a 2xx response leads through
      sending to success, replaces the form by the confirmation and schedules
      one auto-close. */
  method SuccessfulSubmission()
  {
    var modal := new ContactModal();
    modal.HandleChange(Name, "Ana");
    modal.HandleChange(Email, "ana@x.com");
    modal.HandleChange(Message, "Oi");
    var request := modal.HandleSubmit();
    assert request == FormData("Ana", "ana@x.com", "Oi");
    assert modal.status == Sending && modal.View() == FormView(false, true);
    modal.ReceiveResponse(Responded(200));
    assert modal.status == Success && modal.View() == Confirmation && modal.closeTimers == [3000];
  }

  /** End to end: a non-2xx response leads to error, the form stays with its
      notice and its data, and it can be submitted again. */
  method FailedSubmission()
  {
    var modal := new ContactModal();
    modal.HandleChange(Name, "Ana");
    modal.HandleChange(Email, "ana@x.com");
    modal.HandleChange(Message, "Oi");
    var request := modal.HandleSubmit();
    modal.ReceiveResponse(Responded(500));
    assert modal.status == Error && modal.View() == FormView(true, false) && modal.closeTimers == [];
    assert modal.formData == request;
    var again := modal.HandleSubmit();
    assert again == request && modal.status == Sending;
  }
}
