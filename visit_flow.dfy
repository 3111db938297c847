/**
 * The page-level state machine of the stamp card, as values: what each
 * handler of the visit page does to the device's storage, the page state,
 * the registration form's error text and busy flag, and the requests sent.
 * The classes in module Components are proved against these functions.
 */
module VisitFlow {
  import opened Wrappers
  import opened Backend
  import opened Storage

  /** Which view the page shows; `Success` holds the service's visit result. */
  datatype Page = Loading | Register | Success(result: VisitResult)

  /** What the user has typed and ticked when submitting the form. */
  datatype FormInput = FormInput(name: string, phone: string, email: string, agreed: bool)

  /**
   * Everything a handler reads or writes: the device's storage, the page
   * state, the form's `error` and `isLoading`, and the log of requests sent.
   */
  datatype State = State(
    store: map<string, string>,
    page: Page,
    error: string,
    isLoading: bool,
    sent: seq<Request>)

  /** What the screen shows. */
  datatype View =
    | Spinner
    | Form(error: string, busy: bool)
    | Welcome(name: string, totalVisits: int)

  /** The outcome of the two chained onboarding calls. */
  datatype Onboarding =
    | ConsentMissing
    | RegisterFailed(message: string)
    | VisitFailed(message: string)
    | Onboarded(result: VisitResult)

  /** A freshly mounted page: the device's storage and network carry over, the rest starts over. */
  function Mount(store: map<string, string>, sent: seq<Request>): State
  {
    State(store, Loading, "", false, sent)
  }

  /** The phone number the device remembers, as `getItem` returns it. */
  function StoredPhone(s: State): Option<string>
  {
    Lookup(s.store, CustomerPhoneKey)
  }

  /**
   * The mount effect: with no usable stored phone, go to registration without
   * a request; otherwise record a visit for it, and show the service's result
   * on success or forget the phone and go to registration on any failure.
   */
  function ProcessVisit(s: State, answer: Response<VisitResult>): (t: State)
    ensures t.page != Loading
    ensures t.error == s.error && t.isLoading == s.isLoading
    ensures !Truthy(StoredPhone(s)) ==> t == s.(page := Register)
    ensures Truthy(StoredPhone(s)) ==> t.sent == s.sent + [VisitRequest(StoredPhone(s).value, ScanTag)]
    ensures Truthy(StoredPhone(s)) && answer.Ok? ==> t.page == Success(answer.body) && t.store == s.store
    ensures Truthy(StoredPhone(s)) && !answer.Ok? ==>
      t.page == Register && t.store == s.store - {CustomerPhoneKey} && StoredPhone(t) == None
  {
    var stored := StoredPhone(s);
    if !Truthy(stored) then
      s.(page := Register)
    else
      var sent := s.sent + [VisitRequest(stored.value, ScanTag)];
      match answer
      case Ok(result) => s.(page := Success(result), sent := sent)
      case _ => s.(store := s.store - {CustomerPhoneKey}, page := Register, sent := sent)
  }

  /**
   * The two chained onboarding calls: register first, and only when that
   * succeeded record a first visit. A failed step reports the service's
   * `error` text or that step's fallback.
   */
  function Onboard(input: FormInput, register: Response<RegisterResult>, visit: Response<VisitResult>): (o: Onboarding)
    ensures o.ConsentMissing? <==> !input.agreed
    ensures o.Onboarded? <==> input.agreed && register.Ok? && visit.Ok?
    ensures o.Onboarded? ==> o.result == visit.body
    ensures input.agreed && !register.Ok? ==> o == RegisterFailed(FailureMessage(register, UnknownError))
    ensures input.agreed && register.Ok? && !visit.Ok? ==> o == VisitFailed(FailureMessage(visit, FirstVisitError))
  {
    if !input.agreed then ConsentMissing
    else if !register.Ok? then RegisterFailed(FailureMessage(register, UnknownError))
    else if !visit.Ok? then VisitFailed(FailureMessage(visit, FirstVisitError))
    else Onboarded(visit.body)
  }

  /**
   * The requests a submission sends, in order: none without consent; the
   * registration; then, only when it succeeded, a visit for the phone number
   * the service echoed back (not the typed one) with the fixed tag.
   */
  function OnboardRequests(input: FormInput, register: Response<RegisterResult>): (reqs: seq<Request>)
    ensures !input.agreed ==> reqs == []
    ensures input.agreed ==> 1 <= |reqs| <= 2 && reqs[0] == RegisterRequest(input.name, input.phone, input.email)
    ensures |reqs| == 2 <==> input.agreed && register.Ok?
    ensures |reqs| == 2 ==> reqs[1] == VisitRequest(register.body.phoneNumber, ScanTag)
  {
    if !input.agreed then []
    else
      [RegisterRequest(input.name, input.phone, input.email)]
      + if register.Ok? then [VisitRequest(register.body.phoneNumber, ScanTag)] else []
  }

  /** The page's callback for a completed onboarding: remember the phone and show the result. */
  function HandleRegistrationSuccess(s: State, result: VisitResult): (t: State)
    ensures StoredPhone(t) == Some(result.customer.phoneNumber)
    ensures forall k :: k != CustomerPhoneKey ==> Lookup(t.store, k) == Lookup(s.store, k)
    ensures t.page == Success(result)
    ensures t.sent == s.sent && t.error == s.error && t.isLoading == s.isLoading
  {
    s.(store := s.store[CustomerPhoneKey := result.customer.phoneNumber], page := Success(result))
  }

  /**
   * The form's submit handler: clear the error; without consent stop there;
   * otherwise onboard, and either hand the result to the page or show the
   * failed step's message. Storage is written only on full success and the
   * busy flag always ends cleared.
   */
  function HandleSubmit(s: State, input: FormInput, register: Response<RegisterResult>, visit: Response<VisitResult>): (t: State)
    ensures !input.agreed ==> t == s.(error := "")
    ensures input.agreed ==> !t.isLoading
    ensures t.sent == s.sent + OnboardRequests(input, register)
    ensures input.agreed && register.Ok? && visit.Ok? ==>
      t.page == Success(visit.body) && t.error == "" &&
      t.store == s.store[CustomerPhoneKey := visit.body.customer.phoneNumber]
    ensures !(input.agreed && register.Ok? && visit.Ok?) ==> t.page == s.page && t.store == s.store
    ensures input.agreed && !register.Ok? ==> t.error == FailureMessage(register, UnknownError)
    ensures input.agreed && register.Ok? && !visit.Ok? ==> t.error == FailureMessage(visit, FirstVisitError)
  {
    var cleared := s.(error := "");
    if !input.agreed then cleared
    else
      var sent := s.sent + OnboardRequests(input, register);
      match Onboard(input, register, visit)
      case Onboarded(result) => HandleRegistrationSuccess(cleared.(sent := sent, isLoading := false), result)
      case RegisterFailed(message) => cleared.(sent := sent, error := message, isLoading := false)
      case VisitFailed(message) => cleared.(sent := sent, error := message, isLoading := false)
  }

  /** The simulation's reset: forget the phone and remount the page. */
  function ResetSimulation(s: State): (t: State)
    ensures t.page == Loading && t.error == "" && !t.isLoading
    ensures StoredPhone(t) == None
    ensures forall k :: k != CustomerPhoneKey ==> Lookup(t.store, k) == Lookup(s.store, k)
    ensures t.sent == s.sent
  {
    Mount(s.store - {CustomerPhoneKey}, s.sent)
  }

  /**
   * The render dispatch. The welcome view shows the name and the visit total
   * of the service's result, never a count kept by the page.
   */
  function Render(s: State): (v: View)
    ensures v.Spinner? <==> s.page.Loading?
    ensures v.Form? <==> s.page.Register?
    ensures v.Form? ==> v.error == s.error && v.busy == s.isLoading
    ensures v.Welcome? <==> s.page.Success?
    ensures s.page.Success? ==> v.name == s.page.result.customer.name && v.totalVisits == s.page.result.totalVisits
  {
    match s.page
    case Loading => Spinner
    case Success(result) => Welcome(result.customer.name, result.totalVisits)
    case Register => Form(s.error, s.isLoading)
  }

  // ---------------------------------------------------------------------------
  // Runs of the page: what can happen, in which order.

  /**
   * What can happen to a mounted page: the mount effect's request is answered
   * (`answer` is ignored when no request is sent), the form is submitted, or
   * the simulation is reset.
   */
  datatype Event =
    | Resolved(answer: Response<VisitResult>)
    | Submitted(input: FormInput, register: Response<RegisterResult>, visit: Response<VisitResult>)
    | ResetPressed

  /**
   * One event. The mount effect completes only while the page is loading and
   * the form exists only while the page is in registration; elsewhere these
   * events change nothing.
   */
  function Step(s: State, e: Event): State
  {
    match e
    case Resolved(answer) => if s.page.Loading? then ProcessVisit(s, answer) else s
    case Submitted(input, register, visit) => if s.page.Register? then HandleSubmit(s, input, register, visit) else s
    case ResetPressed => ResetSimulation(s)
  }

  function Run(s: State, events: seq<Event>): State
    decreases |events|
  {
    if events == [] then s else Run(Step(s, events[0]), events[1..])
  }

  /** Every visit request carries the fixed scan tag. */
  ghost predicate TaggedVisits(reqs: seq<Request>)
  {
    forall i :: 0 <= i < |reqs| && reqs[i].VisitRequest? ==> reqs[i].tagId == ScanTag
  }

  /**
   * What holds between events: a success screen means the device holds a
   * session; the registration form is shown only when the device holds no
   * usable phone; a loading page shows no error; the form is not busy; every
   * visit request sent carried the scan tag.
   */
  ghost predicate Invariant(s: State)
  {
    && (s.page.Success? ==> CustomerPhoneKey in s.store)
    && (s.page.Register? ==> !Truthy(StoredPhone(s)))
    && (s.page.Loading? ==> s.error == "")
    && !s.isLoading
    && TaggedVisits(s.sent)
  }

  lemma MountEstablishesInvariant(store: map<string, string>, sent: seq<Request>)
    requires TaggedVisits(sent)
    ensures Invariant(Mount(store, sent))
  {
  }

  lemma StepPreservesInvariant(s: State, e: Event)
    requires Invariant(s)
    ensures Invariant(Step(s, e))
  {
  }

  /** The invariant holds after any sequence of events. */
  lemma {:induction false} RunPreservesInvariant(s: State, events: seq<Event>)
    requires Invariant(s)
    ensures Invariant(Run(s, events))
    decreases |events|
  {
    if events != [] {
      StepPreservesInvariant(s, events[0]);
      RunPreservesInvariant(Step(s, events[0]), events[1..]);
    }
  }

  /** Requests are only ever added to the log, never withdrawn or reordered. */
  lemma {:induction false} RunExtendsLog(s: State, events: seq<Event>)
    ensures s.sent <= Run(s, events).sent
    decreases |events|
  {
    if events != [] {
      RunExtendsLog(Step(s, events[0]), events[1..]);
    }
  }

  /** A success screen stays exactly as it is until the simulation is reset. */
  lemma {:induction false} SuccessHoldsUntilReset(s: State, events: seq<Event>)
    requires s.page.Success?
    requires forall i :: 0 <= i < |events| ==> !events[i].ResetPressed?
    ensures Run(s, events) == s
    decreases |events|
  {
    if events != [] {
      SuccessHoldsUntilReset(s, events[1..]);
    }
  }

  /**
   * A device without a usable stored phone sends nothing and never reaches the
   * success screen unless the form is submitted: resolutions and resets keep
   * it without a session.
   */
  lemma {:induction false} NoSessionNoRequest(s: State, events: seq<Event>)
    requires !Truthy(StoredPhone(s)) && !s.page.Success?
    requires forall i :: 0 <= i < |events| ==> !events[i].Submitted?
    ensures Run(s, events).sent == s.sent
    ensures !Truthy(StoredPhone(Run(s, events))) && !Run(s, events).page.Success?
    decreases |events|
  {
    if events != [] {
      NoSessionNoRequest(Step(s, events[0]), events[1..]);
    }
  }

  /**
   * A reset followed by the new mount's resolution always ends in the
   * registration form, with no error, no request sent and no phone stored.
   */
  lemma ResetThenResolve(s: State, answer: Response<VisitResult>)
    ensures Run(s, [ResetPressed, Resolved(answer)]) == ResetSimulation(s).(page := Register)
    ensures Render(Run(s, [ResetPressed, Resolved(answer)])) == Form("", false)
  {
    var events := [ResetPressed, Resolved(answer)];
    var mounted := ResetSimulation(s);
    assert events[1..] == [Resolved(answer)];
    assert Run(s, events) == Run(mounted, [Resolved(answer)]);
    assert Run(mounted, [Resolved(answer)]) == Run(ProcessVisit(mounted, answer), []);
  }

  /**
   * A failed recognition is silent: the stale phone is dropped and the form
   * comes up with no error text and not busy.
   */
  lemma StaleSessionIsDropped(store: map<string, string>, sent: seq<Request>, answer: Response<VisitResult>)
    requires Truthy(Lookup(store, CustomerPhoneKey)) && !answer.Ok?
    ensures var t := ProcessVisit(Mount(store, sent), answer);
      StoredPhone(t) == None && Render(t) == Form("", false)
  {
  }
}
