/**
 * The registration form of the authentication screens: its component state,
 * the submit handler that validates the fields, calls the injected
 * registration transport and navigates or shows an error, and the JSON body
 * that the default transport sends.
 */
module Register {

  import Wrappers

  // ---------------------------------------------------------------------------
  // Data model
  // ---------------------------------------------------------------------------

  /** The data of the user to register, as handed to the transport. */
  datatype RegistrationData = RegistrationData(name: string, lastname: string, email: string, password: string)

  /** The body of a successful server response: a message plus any other string entries. */
  datatype ServerReply = ServerReply(message: string, extra: map<string, string>)

  /**
   * What the transport resolves to. `ok` says whether the HTTP status was a
   * success; `json` is present only when `ok` holds.
   */
  datatype ResponseData = ResponseData(ok: bool, json: Wrappers.Option<ServerReply>)

  /** The JSON object the default transport posts; `passwordConfirmation` is the key `password_confirmation`. */
  datatype RequestBody = RequestBody(name: string, lastname: string, email: string, password: string, passwordConfirmation: string)

  /** The CSS `display` value of an alert: "none" hides it, "block" shows it. */
  datatype Display = None | Block

  /** The four alerts of the form: one per validated field, one for a rejected registration. */
  datatype Alerts = Alerts(name: Display, email: Display, password: Display, registration: Display)

  /**
   * Everything observable about the form: the current text of the four inputs,
   * the four alerts, every payload handed to the transport (oldest first) and
   * every location pushed onto the navigation history (oldest first).
   */
  datatype FormState = FormState(fields: RegistrationData, alerts: Alerts, calls: seq<RegistrationData>, history: seq<string>)

  /** The four text inputs of the form. */
  datatype Field = Name | Lastname | Email | Password

  /** What the user can do to the form: type into an input, or submit it (the transport answering `ok`). */
  datatype Event = Edit(field: Field, value: string) | Submit(ok: bool)

  /** Where a successful registration navigates to. */
  const Dashboard: string := "/admin/dashboard"

  // ---------------------------------------------------------------------------
  // Request body of the default transport
  // ---------------------------------------------------------------------------

  /** The registration data a request body carries. */
  function Payload(b: RequestBody): RegistrationData
  {
    RegistrationData(b.name, b.lastname, b.email, b.password)
  }

  /**
   * The body the default transport serialises: the registration data with the
   * password repeated as its confirmation. It is the one body that carries `d`
   * and confirms its own password.
   */
  function BodyOf(d: RegistrationData): (b: RequestBody)
    ensures Payload(b) == d
    ensures b.passwordConfirmation == b.password
    ensures forall c: RequestBody :: Payload(c) == d && c.passwordConfirmation == c.password ==> c == b
  {
    RequestBody(d.name, d.lastname, d.email, d.password, d.password)
  }

  // ---------------------------------------------------------------------------
  // The submit handler
  // ---------------------------------------------------------------------------

  /** A field counts as missing only when it is the empty string; whitespace is not trimmed. */
  predicate Missing(s: string)
  {
    |s| == 0
  }

  /** Name, email and password are all present; lastname is not looked at. */
  predicate Complete(d: RegistrationData)
  {
    !Missing(d.name) && !Missing(d.email) && !Missing(d.password)
  }

  predicate Shown(x: Display)
  {
    x == Block
  }

  /** The state the component mounts with: empty inputs, hidden alerts, no calls, no navigation. */
  function Initial(): FormState
  {
    FormState(RegistrationData("", "", "", ""), Alerts(None, None, None, None), [], [])
  }

  /** The three independent presence checks: each missing field shows its own alert. */
  function RaiseMissing(a: Alerts, d: RegistrationData): (r: Alerts)
    ensures Shown(r.name) <==> Shown(a.name) || Missing(d.name)
    ensures Shown(r.email) <==> Shown(a.email) || Missing(d.email)
    ensures Shown(r.password) <==> Shown(a.password) || Missing(d.password)
    ensures r.registration == a.registration
  {
    var a1 := if Missing(d.name) then a.(name := Block) else a;
    var a2 := if Missing(d.email) then a1.(email := Block) else a1;
    if Missing(d.password) then a2.(password := Block) else a2
  }

  /**
   * The state after one submit, the transport answering `ok` if it is called.
   * Inputs never change; each missing field shows its alert and no alert is
   * hidden; the transport is called once, with the current fields, exactly when
   * the fields are complete; then a success pushes the dashboard and a failure
   * shows the registration error.
   */
  function Submitted(s: FormState, ok: bool): (t: FormState)
    ensures t.fields == s.fields
    ensures Shown(t.alerts.name) <==> Shown(s.alerts.name) || Missing(s.fields.name)
    ensures Shown(t.alerts.email) <==> Shown(s.alerts.email) || Missing(s.fields.email)
    ensures Shown(t.alerts.password) <==> Shown(s.alerts.password) || Missing(s.fields.password)
    ensures t.calls == if Complete(s.fields) then s.calls + [s.fields] else s.calls
    ensures t.history == if Complete(s.fields) && ok then s.history + [Dashboard] else s.history
    ensures t.alerts.registration == if Complete(s.fields) && !ok then Block else s.alerts.registration
  {
    var validated := s.(alerts := RaiseMissing(s.alerts, s.fields));
    if !Complete(s.fields) then validated
    else
      var called := validated.(calls := s.calls + [s.fields]);
      if ok then called.(history := s.history + [Dashboard])
      else called.(alerts := called.alerts.(registration := Block))
  }

  /** The state after typing `v` into input `f`. */
  function Edited(s: FormState, f: Field, v: string): FormState
  {
    match f
    case Name => s.(fields := s.fields.(name := v))
    case Lastname => s.(fields := s.fields.(lastname := v))
    case Email => s.(fields := s.fields.(email := v))
    case Password => s.(fields := s.fields.(password := v))
  }

  function Apply(s: FormState, e: Event): FormState
  {
    match e
    case Edit(f, v) => Edited(s, f, v)
    case Submit(ok) => Submitted(s, ok)
  }

  /** The state after a sequence of user events, first to last. */
  function Run(s: FormState, es: seq<Event>): FormState
    decreases |es|
  {
    if es == [] then s else Run(Apply(s, es[0]), es[1..])
  }

  function SubmitCount(es: seq<Event>): nat
    decreases |es|
  {
    if es == [] then 0 else (if es[0].Submit? then 1 else 0) + SubmitCount(es[1..])
  }

  /** Submitting again and again, the transport answering `oks[i]` to the i-th submit. */
  function Submits(oks: seq<bool>): seq<Event>
  {
    seq(|oks|, i requires 0 <= i < |oks| => Submit(oks[i]))
  }

  // ---------------------------------------------------------------------------
  // Invariants and properties
  // ---------------------------------------------------------------------------

  /** Every alert shown in `a` is still shown in `b`. */
  predicate AlertsGrow(a: Alerts, b: Alerts)
  {
    (Shown(a.name) ==> Shown(b.name)) && (Shown(a.email) ==> Shown(b.email)) &&
    (Shown(a.password) ==> Shown(b.password)) && (Shown(a.registration) ==> Shown(b.registration))
  }

  /**
   * What holds of every state reachable from `Initial()`: the transport was
   * only ever handed complete data; every navigation went to the dashboard, at
   * most one per call; and the registration error is shown exactly when some
   * call was not followed by a navigation, i.e. when some call failed.
   */
  predicate Consistent(s: FormState)
  {
    (forall i :: 0 <= i < |s.calls| ==> Complete(s.calls[i])) &&
    (forall j :: 0 <= j < |s.history| ==> s.history[j] == Dashboard) &&
    |s.history| <= |s.calls| &&
    (Shown(s.alerts.registration) <==> |s.history| < |s.calls|)
  }

  lemma InitialConsistent()
    ensures Consistent(Initial())
  {
  }

  lemma ApplyKeepsConsistent(s: FormState, e: Event)
    requires Consistent(s)
    ensures Consistent(Apply(s, e))
  {
  }

  /** Consistency holds after any sequence of events. */
  lemma {:induction false} RunKeepsConsistent(s: FormState, es: seq<Event>)
    requires Consistent(s)
    ensures Consistent(Run(s, es))
    decreases |es|
  {
    if es != [] {
      ApplyKeepsConsistent(s, es[0]);
      RunKeepsConsistent(Apply(s, es[0]), es[1..]);
    }
  }

  /** No event ever hides an alert: once shown, an alert stays shown. */
  lemma {:induction false} RunAlertsGrow(s: FormState, es: seq<Event>)
    ensures AlertsGrow(s.alerts, Run(s, es).alerts)
    decreases |es|
  {
    if es != [] {
      RunAlertsGrow(Apply(s, es[0]), es[1..]);
    }
  }

  /**
   * The call log and the navigation history are only ever appended to, and
   * the transport is called at most once per submit.
   */
  lemma {:induction false} RunLogsGrow(s: FormState, es: seq<Event>)
    ensures s.calls <= Run(s, es).calls
    ensures s.history <= Run(s, es).history
    ensures |Run(s, es).calls| <= |s.calls| + SubmitCount(es)
    decreases |es|
  {
    if es != [] {
      RunLogsGrow(Apply(s, es[0]), es[1..]);
    }
  }

  /**
   * Submitting incomplete fields again, however often and whatever the
   * transport would answer, leaves exactly the state the first submit left:
   * the same alerts, no call and no navigation.
   */
  lemma {:induction false} RepeatedFailingSubmit(s: FormState, oks: seq<bool>)
    requires !Complete(s.fields)
    requires |oks| > 0
    ensures Run(s, Submits(oks)) == Submitted(s, oks[0])
    decreases |oks|
  {
    var t := Submitted(s, oks[0]);
    assert Submits(oks)[1..] == Submits(oks[1..]);
    if |oks| == 1 {
      assert Run(t, Submits(oks[1..])) == t;
    } else {
      RepeatedFailingSubmit(t, oks[1..]);
      assert Submitted(t, oks[1]) == t;
    }
  }

  /**
   * Lastname is never validated: whatever its value, the alerts, the
   * navigation and whether the transport is called are the same, and the
   * payload differs only in its lastname.
   */
  lemma LastnameIgnored(s: FormState, v: string, ok: bool)
    ensures Submitted(Edited(s, Lastname, v), ok).alerts == Submitted(s, ok).alerts
    ensures Submitted(Edited(s, Lastname, v), ok).history == Submitted(s, ok).history
    ensures |Submitted(Edited(s, Lastname, v), ok).calls| == |Submitted(s, ok).calls|
    ensures Complete(s.fields) ==> Submitted(Edited(s, Lastname, v), ok).calls == s.calls + [s.fields.(lastname := v)]
  {
  }

  /** Filling in name, email and password and submitting against a succeeding transport. */
  lemma SuccessfulRegistration()
    ensures var t := Run(Initial(), [Edit(Name, "Ana"), Edit(Email, "a@b.com"), Edit(Password, "pw1"), Submit(true)]);
      t.calls == [RegistrationData("Ana", "", "a@b.com", "pw1")] &&
      t.history == [Dashboard] &&
      t.alerts == Alerts(None, None, None, None)
  {
  }

  /** Submitting the empty form shows the three field alerts and calls nothing. */
  lemma EmptySubmission(ok: bool)
    ensures var t := Run(Initial(), [Submit(ok)]);
      t.calls == [] && t.history == [] &&
      t.alerts == Alerts(Block, Block, Block, None)
  {
  }

  // ---------------------------------------------------------------------------
  // The component
  // ---------------------------------------------------------------------------

  /**
   * The registration component's state cells, updated in place by its event
   * handlers. `calls` records each payload handed to the transport and
   * `history` each location pushed onto the router's history.
   */
  class RegisterForm {
    var nameAlert: Display
    var emailAlert: Display
    var passwordAlert: Display
    var registrationError: Display
    var name: string
    var lastname: string
    var email: string
    var password: string
    var calls: seq<RegistrationData>
    var history: seq<string>

    function State(): FormState
      reads this
    {
      FormState(RegistrationData(name, lastname, email, password),
                Alerts(nameAlert, emailAlert, passwordAlert, registrationError),
                calls, history)
    }

    ghost predicate Valid()
      reads this
    {
      Consistent(State())
    }

    constructor ()
      ensures State() == Initial()
      ensures Valid()
    {
      nameAlert, emailAlert, passwordAlert, registrationError := None, None, None, None;
      name, lastname, email, password := "", "", "", "";
      calls, history := [], [];
    }

    /** The `onChange` handler of input `f`. */
    method Edit(f: Field, v: string)
      requires Valid()
      modifies this
      ensures State() == Edited(old(State()), f, v)
      ensures Valid()
    {
      match f
      case Name => name := v;
      case Lastname => lastname := v;
      case Email => email := v;
      case Password => password := v;
    }

    /** The submit handler; `response` is what the transport resolves to if it is called. */
    method Submit(response: ResponseData)
      requires Valid()
      modifies this
      ensures State() == Submitted(old(State()), response.ok)
      ensures Valid()
    {
      if |name| == 0 {
        nameAlert := Block;
      }
      if |email| == 0 {
        emailAlert := Block;
      }
      if |password| == 0 {
        passwordAlert := Block;
      }
      if |name| > 0 && |email| > 0 && |password| > 0 {
        calls := calls + [RegistrationData(name, lastname, email, password)];
        if response.ok {
          history := history + [Dashboard];
        } else {
          registrationError := Block;
        }
      }
      ApplyKeepsConsistent(old(State()), Event.Submit(response.ok));
    }
  }
}
