# Brochure site form and navigation controllers

This project models the only stateful logic of a college's brochure website:

- the contact form (`ContactPage`);
- the admissions form (`AdmissionsPage`);
- the navigation bar (`Navigation`).

Each React component becomes a Dafny class, and each event handler becomes a
method. A class holds the component's `useState` variables and, besides
them:

- both form classes count their `console.error` calls (`errorsLogged`);
- the contact class also keeps the messages it passed to `alert` (`alerts`);
- the navigation bar keeps the last pathname its route-change effect ran
  for (`pathname`), which decides whether the effect runs again.

Everything else in the site is presentation.

An `async` submit handler is split in two atomic methods:

- `HandleSubmit` runs up to the `await` and returns the request it sends.
- `SettleSubmit` runs after the `await`. It takes the request's outcome as a
  parameter.

Between the two calls the request is outstanding, and any other handler may
run. This is how concurrent submits of the admissions form are modelled.

The network is replaced by data:

- A request body is an ordered list of key/value pairs
  (`FormFields.Pairs`): the content of the `URLSearchParams` buffer before
  it is URL-encoded.
- `FormFields.Get` reads such a list back the way `URLSearchParams.get` does.
- The contact form's reply is `Replied(result)` or `Threw`; `result` is the
  JSON body's `result` member.
- The admissions form's outcome is `Resolved(status)` or `Threw`.

`alert` and `console.error` are kept only as a record: the contact form
keeps a list of alert messages, and both forms count their error-log calls.

Files:

- `form_fields.dfy`: shared field map, blank state, single-field update,
  serialization and its round trip.
- `contact_page.dfy`: module `Contact`.
- `admissions_page.dfy`: module `Admissions`.
- `navigation.dfy`: module `Navigation`.

Two behaviours of the admissions form are worth knowing:

- It treats every request that resolves as a success, whatever its HTTP
  status (src/pages/AdmissionsPage.tsx:43-49;
  `Admissions.AdmissionsPage.SettleSubmit`).
- Its success modal has no close handler, only an `<a href="/">` that
  reloads the site (src/pages/AdmissionsPage.tsx:240-245). So no method of
  the admissions page resets `showSuccessModal`.

## Model

| member | source | states |
|---|---|---|
| FormFields.Blank | src/pages/AdmissionsPage.tsx:50-58 | the reset state has exactly the form's keys, each mapped to the empty string |
| FormFields.SetField | src/pages/ContactPage.tsx:28-33 | after an input change, the named entry holds the new value, every other entry is unchanged, and no key other than the input's name is added |
| FormFields.Serialize | src/pages/ContactPage.tsx:48-53 | the request lists one pair per key, in the given order, each carrying that key's current value |
| FormFields.SerializeRoundTrip | src/pages/ContactPage.tsx:48-60 | with distinct keys, reading the request back gives each field's value for its key and nothing for any other key |
| Contact.MissingRequired | src/pages/ContactPage.tsx:39 | the handler's validation test: one of name, email, subject or message is the empty string; `PhoneIsOptional` proves phone never matters, and `ContactPage.HandleSubmit` makes it decide between the alert and the request |
| Contact.Succeeded | src/pages/ContactPage.tsx:65 | the test `result.result === 'success'` on a parsed reply; `ContactPage.SettleSubmit` states what each verdict does to the state |
| Contact.PhoneIsOptional | src/pages/ContactPage.tsx:39-42 | the phone value never changes the validation verdict |
| Contact.BuildParams | src/pages/ContactPage.tsx:48-53 | appending name, email, phone, subject and message one by one gives the serialization of the fields in that order |
| Contact.RequestDecodes | src/pages/ContactPage.tsx:48-53 | the contact request has five pairs keyed name, email, phone, subject and message, in that order; each decodes to the field's value and no other key is present |
| Contact.ContactPage.constructor | src/pages/ContactPage.tsx:14-23 | at mount all five fields are empty, and neither the modal nor the submitting flag is set |
| Contact.ContactPage.HandleInputChange | src/pages/ContactPage.tsx:28-33 | an input change replaces exactly one field; the key set stays the five contact keys |
| Contact.ContactPage.HandleSubmit | src/pages/ContactPage.tsx:35-53 | a missing required field raises the required-fields alert, sends nothing and leaves `isSubmitting` false; otherwise it sends exactly the five-pair request and sets `isSubmitting`; the fields and the modal are untouched; it is only reachable while `isSubmitting` is false, because the submit button is disabled then (line 316) |
| Contact.ContactPage.SettleSubmit | src/pages/ContactPage.tsx:55-77 | a reply whose `result` is "success" opens the modal and clears all five fields; any other reply or a thrown error keeps fields and modal, logs once and raises the error alert; `isSubmitting` is false afterwards in every case |
| Contact.ContactPage.CloseModal | src/pages/ContactPage.tsx:421 | closing the modal clears `showSuccessModal` and changes nothing else |
| Admissions.RequiredFilled | src/pages/AdmissionsPage.tsx:129-203 | the browser's `required` check on the six inputs at lines 135, 147, 159, 173, 185 and 203; `MessageIsOptional` proves the message never matters, and it is the precondition of `AdmissionsPage.HandleSubmit` |
| Admissions.MessageIsOptional | src/pages/AdmissionsPage.tsx:213-220 | the message value never decides whether the browser's required-field check passes |
| Admissions.Payload | src/pages/AdmissionsPage.tsx:39-46 | the request has nine pairs: `form-name=admission` first, then the honeypot `bot-field`, then the seven inputs |
| Admissions.PayloadDecodes | src/pages/AdmissionsPage.tsx:115-125 | reading the request back finds `admission` under `form-name`, the honeypot value under `bot-field`, each input's value under its name, and nothing under any other key |
| Admissions.AdmissionsPage.constructor | src/pages/AdmissionsPage.tsx:18-28 | at mount all seven fields are empty and the modal is hidden |
| Admissions.AdmissionsPage.HandleInputChange | src/pages/AdmissionsPage.tsx:30-34 | an input change replaces exactly one of the seven fields and leaves the other six unchanged |
| Admissions.AdmissionsPage.HandleSubmit | src/pages/AdmissionsPage.tsx:36-47 | when the six required inputs are filled, a submit changes no state and issues exactly one request, the form's full payload, with no in-flight guard |
| Admissions.AdmissionsPage.SettleSubmit | src/pages/AdmissionsPage.tsx:42-61 | any resolved request, whatever its status, opens the modal and clears all seven fields; a thrown one leaves fields and modal as they were and only logs |
| Admissions.RaceScenario | src/pages/AdmissionsPage.tsx:36-61 | usage scenario: two submits of a filled form before either settles; after one resolves and the next throws, the form is cleared, the modal is open and one error is logged |
| Navigation.ActiveOf | src/components/Navigation.tsx:61-78 | a link is among the highlighted ones exactly when it is a nav item whose path equals the pathname |
| Navigation.IsScrolled | src/components/Navigation.tsx:13 | the test `window.scrollY > 50`; `ScrolledThreshold` pins its boundary and `NavigationBar.HandleScroll` stores it |
| Navigation.IsActive | src/components/Navigation.tsx:70 | the test `location.pathname === path`, also at line 114; `ActiveAtMostOne` and `NavItemsActive` prove at most one nav item passes it |
| Navigation.ScrolledThreshold | src/components/Navigation.tsx:12-14 | an offset of exactly 50 does not set `scrolled`; 51 does |
| Navigation.NavItemsDistinct | src/components/Navigation.tsx:23-30 | there are six nav items and their paths are pairwise distinct |
| Navigation.ActiveAtMostOne | src/components/Navigation.tsx:70 | for any item list with distinct paths, at most one link is highlighted, and exactly one is when the pathname is one of the paths |
| Navigation.ActiveUnique | src/components/Navigation.tsx:114 | two highlighted nav items are the same item |
| Navigation.NavItemsActive | src/components/Navigation.tsx:61-78 | on each of the six routes exactly one link is highlighted; on any other pathname none is |
| Navigation.NavigationBar.constructor | src/components/Navigation.tsx:7-8 | at mount the menu is closed and `scrolled` is false |
| Navigation.NavigationBar.ToggleMenu | src/components/Navigation.tsx:86 | the menu button flips `isOpen` |
| Navigation.ToggleTwice | src/components/Navigation.tsx:86 | two presses of the menu button restore `isOpen` |
| Navigation.NavigationBar.HandleScroll | src/components/Navigation.tsx:12-14 | after a scroll event, `scrolled` holds exactly when the offset exceeds 50 |
| Navigation.NavigationBar.LocationChanged | src/components/Navigation.tsx:19-21 | a new pathname closes the menu whatever its state; a render with the same pathname does not rerun the effect and leaves the menu as it was |
| Navigation.NavigationBar.ActiveLinks | src/components/Navigation.tsx:109-122 | each render highlights at most one link, exactly one when the current pathname is a nav path, and only a nav item whose path is the pathname |

## Left out

- Network transport: `fetch`, the Apps Script URL and the relative `/` endpoint are not modelled. The outcome of a request is a parameter of `SettleSubmit`.
- Parsing the reply: `response.json()` is not modelled. A body that is not JSON is modelled as `Threw`.
- URL encoding: `URLSearchParams.toString()` is not modelled. Requests stay as ordered key/value pairs.
- `alert` and `console.error`: only recorded, as a list of alert messages and a count of error-log calls. The error objects they print are not kept.
- React render timing: batching, and a stale `formData` snapshot in the `...formData` spread, are not modelled. Handlers are sequential, atomic updates.
- Admissions.AdmissionsPage.HandleSubmit: the browser's check of `type="email"` syntax is not modelled. Only the `required` attributes appear, as the `RequiredFilled` precondition.
- Contact.ContactPage.HandleSubmit: the contact form's name, email, subject and message inputs also carry `required` (src/pages/ContactPage.tsx:241, 257, 285, 305). In a browser the alert of line 40 is reached only when constraint validation is bypassed. The method deliberately does not assume that check, unlike the admissions form's `RequiredFilled`.
- Unmounting while a request is outstanding is not modelled. A route change unmounts the page (src/App.tsx:21-22, 40-48); the continuation's state updates are then lost, but its `alert` and `console.error` still happen.
- The honeypot input is uncontrolled, so its content is a parameter of `Admissions.AdmissionsPage.HandleSubmit`.
- Navigation.NavigationBar.HandleScroll: `window.scrollY` is an integer here. A browser may report fractional offsets.
- The listener registration and removal around the scroll handler is not modelled. Only the value it stores is.
- The `onPageChange` prop of the content pages is never supplied by `src/App.tsx`, so it is not modelled.
- Routing and the scroll-to-top effect in `src/App.tsx` are not modelled. The router's pathname is the argument of `LocationChanged`.
- Animation, styling, layout and the static content pages are not modelled: they hold no logic.
