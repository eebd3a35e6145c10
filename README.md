# Registration form model

A Dafny model of the registration screen of the quality-management front-end
(`src/views/auth/Register.tsx`). The model covers the component's state, which is
four text inputs and four alerts. Each alert's `display` style is `"none"` or
`"block"`. The model also covers the submit handler `register`. That handler runs
three independent presence checks and then calls the injected registration
transport, but only when name, email and password are all non-empty. After the
call it pushes `/admin/dashboard` on success or shows the registration error on
failure. The JSON body that the default transport posts is modelled too.

The model has two layers:

- `Register.Submitted`, `Register.Edited` and `Register.Run` are pure functions
  over a `FormState` value. That value holds the inputs, the alerts, a log of
  every payload handed to the transport and a log of every location pushed onto
  the navigation history.
- `Register.RegisterForm` is a class whose fields are the component's state
  cells. The state setters become field assignments. `history.push` appends to
  the `history` field, and a call of the transport appends its payload to the
  `calls` field. Each method is proved against the pure functions.

The transport is a parameter. The model takes the `ResponseData` that it
resolves to, and only its `ok` field matters.

A field is missing only when it is the empty string (`!x || x.length === 0`).
Nothing is trimmed, so a field that holds only whitespace counts as present.
Nothing ever sets an alert back to `"none"`, and a later successful registration
does not clear the registration error.

## Model

| member | source | states |
|---|---|---|
| Register.BodyOf | src/views/auth/Register.tsx:40-46 | The posted body carries the registration data unchanged and repeats the password as `password_confirmation`. It is the only body that both carries this data and confirms its own password. |
| Register.RaiseMissing | src/views/auth/Register.tsx:88-98 | Each of name, email and password is checked on its own. After the checks, an alert is shown exactly when it was shown before or its field is empty. The registration error is untouched. |
| Register.Submitted | src/views/auth/Register.tsx:85-113 | One submit never changes the inputs. It shows the alert of every empty field and hides none. It calls the transport once, with the current four fields, exactly when name, email and password are non-empty. On `ok` it navigates once, to `/admin/dashboard`, and leaves the error flag alone. Otherwise it shows the registration error and does not navigate. With incomplete fields there is no call and no navigation, and the error flag does not change. |
| Register.RegisterForm.constructor | src/views/auth/Register.tsx:73-81 | The component mounts with empty inputs, all four alerts `"none"`, no calls and no navigation. |
| Register.RegisterForm.Edit | src/views/auth/Register.tsx:148 | An input's `onChange` handler replaces that one field and changes nothing else. The same holds for the handlers at lines 168, 189 and 210. |
| Register.RegisterForm.Submit | src/views/auth/Register.tsx:85-113 | The handler's in-place updates leave exactly the state that `Submitted` describes for the response's `ok`, and they keep `Consistent`. |
| Register.InitialConsistent | src/views/auth/Register.tsx:73-81 | The initial state satisfies the form's invariant `Consistent`. |
| Register.ApplyKeepsConsistent | src/views/auth/Register.tsx:100-111 | A single edit or submit keeps `Consistent`. Under that invariant every payload ever sent is complete and every navigation goes to the dashboard, with at most one navigation per call. The registration error is shown exactly when some call failed. |
| Register.RunKeepsConsistent | src/views/auth/Register.tsx:100-111 | `Consistent` holds after any sequence of edits and submits. |
| Register.RunAlertsGrow | src/views/auth/Register.tsx:88-110 | Alerts are monotone. Across any sequence of events, an alert that is shown stays shown. |
| Register.RunLogsGrow | src/views/auth/Register.tsx:100-108 | The transport-call log and the navigation history are only appended to. The transport is called at most once per submit. |
| Register.RepeatedFailingSubmit | src/views/auth/Register.tsx:88-100 | Repeating a submit of incomplete fields, whatever the transport would answer, leaves the state the first such submit left. The alerts are the same, and there is no call and no navigation. |
| Register.LastnameIgnored | src/views/auth/Register.tsx:100-106 | Lastname is never validated. Its value changes neither the alerts, nor the navigation, nor whether the transport is called. It reaches the payload unchanged. |
| Register.SuccessfulRegistration | src/views/auth/Register.tsx:100-108 | Example: name "Ana", email "a@b.com" and password "pw1", with an empty lastname, are submitted to a succeeding transport. The transport gets exactly those four values, the form navigates once to `/admin/dashboard`, and no alert shows. |
| Register.EmptySubmission | src/views/auth/Register.tsx:88-98 | Example: submitting the empty form shows the name, email and password alerts and never calls the transport. |

## Left out

- The markup and CSS of the form (src/views/auth/Register.tsx:115-232) are not modelled. They are presentation only. The "Apellidos" alert reuses the name alert's style (line 153), so it shows exactly when the name alert does.
- `fetch`, the HTTP status test, `res.json()` parsing and the Promise wrapping in `defaultRegisterFn` (lines 33-61) are I/O. The model takes the transport's resolved `ResponseData` as an input, and `BodyOf` models only the body that the default transport serialises. A rejected `fetch` (line 34) or a rejected `res.json()` (lines 50-56) is never caught, so the transport's promise would never settle: the call is made, but neither the navigation nor the registration error follows. The model assumes every call settles; `Consistent`'s clause that the registration error is shown exactly when some call failed relies on that.
- React's hooks, re-rendering, the `async`/`await` scheduling and `useHistory` (lines 65-67, 83, 85) are not modelled. The state setters are modelled as direct field assignments, and each handler runs to completion, one handler at a time. `ev.preventDefault()` (line 86) is not modelled.
- `SERVER_PATH` and the endpoint URL (line 34) are configuration and are not part of this model.
- The `[key: string]: string | undefined` entries of the server reply are modelled as a `map<string, string>`, so an entry whose value is `undefined` is not represented.
- src/layouts/Auth.jsx is routing configuration and is not part of this model.
- src/components/Navbars/AdminNavbar.jsx (static markup) and jest.config.js (test configuration) are not part of this model.
