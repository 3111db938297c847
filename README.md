# Stamp card visit page: a verified model

This project models the client-side state machine of the dodo-stamp loyalty
demo. A customer taps an NFC tag and the page starts in `loading`. If the
device remembers a phone number under the `customerPhone` key of local storage,
the page records a visit with the stamp service. Success shows a welcome screen
with the service's visit total. Any failure forgets the phone and shows the
registration form. The form registers the customer and then records a first
visit, strictly in that order. Only when both succeed does it remember the
phone the service returned and show the welcome screen. A reset button forgets
the phone and remounts the page.

Modules:

- `Wrappers`: `Option`.
- `Backend`: the service contract. It holds the request and response shapes,
  the fixed scan tag `DODO-T001-Test`, the two fallback error texts, and the
  `FailureMessage` rule (`result.error || fallback`). It also has a `Network`
  class that logs every request sent. The service's answer to each request is
  an input, so every property holds for every possible answer.
- `Storage`: `localStorage` as a class over a `map<string, string>`. It also
  holds the key and JavaScript truthiness of a `getItem` result.
- `VisitFlow`: the state machine as values. There is one function per handler,
  the render dispatch, a `Step`/`Run` semantics over event sequences, an
  invariant, and lemmas about runs.
- `Components`: `VisitPage` and `App` as classes whose handlers update fields
  in place. Each handler is proved to produce exactly the state its `VisitFlow`
  function gives. `ScanScenario` drives the objects through a scan, a reset
  and a second scan.

## Behaviour of the source worth knowing

- The submit handler clears the error text before it checks consent
  (`setError('')` at src/App.jsx:92 runs before the check at 93). Submitting
  without consent therefore erases an earlier error.
- A stored empty string counts as "no phone", because `if (!storedPhone)` treats
  `""` as falsy (src/App.jsx:228). The page goes to registration without a
  request and does not remove the key.
- An onboarding step fails only on a non-2xx status (src/App.jsx:106, 119), or
  when `fetch` or `response.json()` throws. A 2xx answer that carries an `error`
  field counts as success.
- When a call throws (network failure, body that is not JSON), the form shows
  the runtime's exception message (src/App.jsx:125). It does not show the
  step's fallback text.

## Model

| member | source | states |
|---|---|---|
| `Backend.FailureMessage` | src/App.jsx:106-107 | the thrown message is the service's `error` text verbatim when non-empty, else the step's fallback; a thrown runtime error keeps its own message; with a non-empty fallback the message is never empty |
| `Backend.Network.Fetch` | src/App.jsx:100-239 | each of the three `fetch` calls (register at 100-104, first visit at 110-117, recognition at 234-238) appends exactly its request to the request log and returns the service's answer |
| `Storage.Lookup` | src/App.jsx:225 | `getItem` yields a value exactly when the key is stored, and then the stored value |
| `Storage.LocalStorage.GetItem` | src/App.jsx:225 | reads the stored value of the key, or nothing, without changing storage |
| `Storage.LocalStorage.SetItem` | src/App.jsx:256 | the key now maps to the value; every other key is unchanged |
| `Storage.LocalStorage.RemoveItem` | src/App.jsx:247 | the key is gone; every other key is unchanged |
| `VisitFlow.ProcessVisit` | src/App.jsx:224-250 | resolution never stays `loading`. Without a truthy stored phone: `register`, no request, storage untouched. With one: exactly one visit request `{phone: stored, tag_id: DODO-T001-Test}`. An ok answer gives `success` with exactly the service's result and storage unchanged. Any failure removes `customerPhone` and gives `register`. Error text and busy flag are untouched |
| `VisitFlow.Onboard` | src/App.jsx:98-122 | no consent exactly when `ConsentMissing`. Onboarded exactly when both steps answered ok, carrying the visit step's result. A failed register step reports its message with fallback "An unknown error occurred.". A failed visit step after a good register reports its message with fallback "Failed to record first visit." |
| `VisitFlow.OnboardRequests` | src/App.jsx:99-117 | no consent, no request. Otherwise the register request with the typed name, phone and email comes first. A second request is sent exactly when registration succeeded: a visit for the phone the service echoed back, with the fixed tag |
| `VisitFlow.HandleRegistrationSuccess` | src/App.jsx:255-259 | `customerPhone` now holds `result.customer.phone_number` and other keys are unchanged. The page is `success` with that same result. Nothing is sent |
| `VisitFlow.HandleSubmit` | src/App.jsx:90-129 | without consent only the error is cleared: no request, busy flag untouched. With consent the busy flag always ends false and the requests sent are those of `OnboardRequests`. Full success gives `success` with the visit result, no error, and the echoed phone stored. Any failure leaves page and storage untouched and shows the failed step's message |
| `VisitFlow.ResetSimulation` | src/App.jsx:278-281 | `customerPhone` is removed, other keys kept. The page is remounted: `loading`, no error, not busy. Nothing is sent |
| `VisitFlow.Render` | src/App.jsx:261-271 | `loading` shows the spinner, `register` the form with its error and busy flag, `success` the welcome screen. The welcome screen shows the result's customer name and the service's `totalVisits`, never a local count |
| `VisitFlow.MountEstablishesInvariant` | src/App.jsx:220-221 | a fresh mount satisfies the page invariant whatever the storage holds |
| `VisitFlow.StepPreservesInvariant` | src/App.jsx:224-281 | every handler keeps the invariant. Success implies a stored phone. The form implies no truthy stored phone. Loading shows no error. The form is not busy between events. Every visit request carried the scan tag |
| `VisitFlow.RunPreservesInvariant` | src/App.jsx:220-281 | the invariant holds after any sequence of resolutions, submissions and resets |
| `VisitFlow.RunExtendsLog` | src/App.jsx:224-259 | requests are only ever appended: the earlier log is a prefix of the later one |
| `VisitFlow.SuccessHoldsUntilReset` | src/App.jsx:261-271 | once the page shows success, nothing but a reset changes any part of the state |
| `VisitFlow.NoSessionNoRequest` | src/App.jsx:228-231 | a device without a usable stored phone sends no request and never shows success until the form is submitted, across any number of resets and resolutions |
| `VisitFlow.ResetThenResolve` | src/App.jsx:278-281 | reset and then the new mount's resolution always end in the empty, idle registration form with no phone stored and no request sent, whatever the service would have answered |
| `VisitFlow.StaleSessionIsDropped` | src/App.jsx:245-248 | a failed recognition forgets the phone and shows the form with no error text |
| `Components.VisitPage.constructor` | src/App.jsx:219-221 | a mounted page starts in `loading` with no result, no error, not busy |
| `Components.VisitPage.ProcessVisit` | src/App.jsx:224-250 | the in-place effect yields exactly `VisitFlow.ProcessVisit` of the previous state |
| `Components.VisitPage.HandleRegistrationSuccess` | src/App.jsx:255-259 | the in-place callback yields exactly `VisitFlow.HandleRegistrationSuccess` of the previous state |
| `Components.VisitPage.HandleSubmit` | src/App.jsx:90-129 | the in-place handler yields exactly `VisitFlow.HandleSubmit` of the previous state; a success screen always has a result to show |
| `Components.VisitPage.Render` | src/App.jsx:261-271 | the dispatch on the tri-valued flag shows what `VisitFlow.Render` says |
| `Components.App.constructor` | src/App.jsx:275-276 | the shell mounts a fresh page in `loading` over the shared storage and network |
| `Components.App.ResetSimulation` | src/App.jsx:278-281 | the phone is removed and a fresh page object replaces the old one, starting in `loading` |
| `Components.ScanScenario` | src/App.jsx:197-281 | a stored "010-1111-2222" and an answer of Kim's fifth visit show "Kim" and 5. After a reset the next scan shows the empty registration form |

## Left out

- Icon components, JSX markup and styling are presentation only. The render
  dispatch is modelled as the choice of view with the fields that view shows.
- `fetch`, headers, `JSON.stringify` and `response.json()` become answer values.
  The service's own behaviour is not modelled: deduplication, visit counting, and
  whether re-registering a phone is allowed.
- Non-2xx bodies are modelled as objects with an optional string `error`. Other
  body shapes are not modelled: `null`, or a non-string `error`.
- A 2xx body is assumed to have the fields the page reads. A visit result
  without `customer` would make `handleRegistrationSuccess` throw inside the
  form's `try`. That path is not modelled.
- Asynchrony is not modelled: each handler runs to completion as one step.
  Promises that are still pending at a remount are not modelled. In the
  source they are not inert. A recognition that fails after a reset still
  removes `customerPhone` (src/App.jsx:247). An onboarding that finishes after
  a reset still calls the old page's `handleRegistrationSuccess`, which writes
  `customerPhone` (src/App.jsx:256). Both effects land on the new mount.
  `VisitFlow.Invariant` holds only because the model treats each handler as
  one atomic step. The disabled submit button only matters while a
  submission is in flight, so it is not modelled either.
  `isLoading` is true only inside `HandleSubmit`.
- The `Date.now()` key is not modelled: a remount is a new `VisitPage` object in `loading`.
- `alert` and `console.error` change no state and are not modelled.
- The `onChange` setters of the inputs and the checkbox are not modelled. The
  values current at submission are the `FormInput` parameter.
- The HTML `required` attributes are enforced by the browser, not by the
  handler. The model accepts empty fields, as `handleSubmit` does.
- Storage failures are not modelled: quota errors, or storage being unavailable.
