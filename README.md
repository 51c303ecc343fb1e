# Photo-booth client and user backend, modelled in Dafny

This project models the parts of the LumetryAiPhotoBooth photo-booth app that carry logic of their own:

- the prompt list of the event editor (`PromptManager`): add under a non-blank guard, save by id, select the active prompt, rename the entry that matches the current prompt, and the mount effect that seeds the list;
- e-mail domain completion (`EmailInput`): keep what was typed before the first `@`, then append `@domain`;
- the backend's `/register` and `/login-user` handlers over the user collection (`UserBackend`);
- the event-list screen (`EventsScreen`): loading, the modal toggle, the date picker, and the create flow with its client-side name-uniqueness check;
- the capture screen (`CaptureScreen`): camera facing, taking and retaking a photo, the contact modal, and the submit flow that uploads the photo and then posts the payload.

The component and collection state (React state, the props a component writes through, the user collection) are classes whose methods update fields. The list and string rules are pure functions with lemmas. The camera, the upload service, HTTP replies and the clock are parameters. `Common` holds `Option`, the `Alert` value the screens raise, and `FindIndex`, which is JavaScript's `find`. `JsString` holds `trim`.

Where the model returns something the source only sends out (requests, alerts, navigation), that is an out-parameter. JavaScript's `find` returns the element; here it returns the element's index.

## Model

| member | source | states |
|---|---|---|
| Common.FindIndex | Frontend/src/app/components/PromptManager.js:46 | `find` picks the first element that satisfies the condition; it gives None exactly when no element does |
| JsString.TrimEmptyIffBlank | Frontend/src/app/components/PromptManager.js:28 | `s.trim()` is empty exactly when `s` is empty or all ECMAScript white space |
| JsString.TrimIsTruthy | Frontend/src/app/components/PromptManager.js:28 | the add guard `if (newPrompt.trim())` trims the input and passes exactly when the input is not blank |
| JsString.TrimStartEmptyIffBlank | Frontend/src/app/components/PromptManager.js:28 | trimming the front empties a string exactly when it is blank |
| JsString.TrimEndKeepsVisibleStart | Frontend/src/app/components/PromptManager.js:28 | trimming the end never empties a string that starts with a visible character |
| JsString.Trim | Frontend/src/app/components/PromptManager.js:28 | `s.trim()` is a contiguous piece of `s` whose cut-off front and back are blank, and, unless empty, it starts and ends with a visible character |
| PromptManager.Texts | Frontend/src/app/components/PromptManager.js:32 | `prompts.map(p => p.text)` has the same length, with each position holding that entry's text |
| PromptManager.WithText | Frontend/src/app/components/PromptManager.js:38-39 | saving keeps the length and every id in place; entries with the id get the new text and all others keep theirs |
| PromptManager.WithTextKeepsIds | Frontend/src/app/components/PromptManager.js:39 | the sequence of ids is unchanged by a save |
| PromptManager.WithTextKeepsUnique | Frontend/src/app/components/PromptManager.js:39 | a save keeps unique ids unique |
| PromptManager.WithTextAbsent | Frontend/src/app/components/PromptManager.js:39 | saving under an id nobody has leaves the list as it was |
| PromptManager.WithTextLastWins | Frontend/src/app/components/PromptManager.js:38-42 | the last save under an id wins, and saving the same text twice equals saving it once |
| PromptManager.WithTextOneEntry | Frontend/src/app/components/PromptManager.js:84-86 | with unique ids, saving under entry k's id rewrites entry k and no other |
| PromptManager.TextsAppend | Frontend/src/app/components/PromptManager.js:30-32 | the texts of the extended list are the old texts plus the new one |
| PromptManager.AppendFreshKeepsUnique | Frontend/src/app/components/PromptManager.js:29-30 | appending under an id not yet present keeps ids unique |
| PromptManager.Manager.constructor | Frontend/src/app/components/PromptManager.js:12-16 | before the mount effect the list and the input are empty, and the props are as given |
| PromptManager.Manager.SyncWithCurrentPrompt | Frontend/src/app/components/PromptManager.js:19-24 | a non-empty current prompt makes the list exactly one entry with that text; an empty one changes nothing; `promptList` is not touched |
| PromptManager.Manager.SetNewPrompt | Frontend/src/app/components/PromptManager.js:134 | typing sets the add input and nothing else |
| PromptManager.Manager.AddNewPrompt | Frontend/src/app/components/PromptManager.js:27-35 | a blank input changes nothing; otherwise the raw input is appended at the end under the given id, `promptList` becomes the texts of the list and the input is cleared |
| PromptManager.Manager.SavePrompt | Frontend/src/app/components/PromptManager.js:38-42 | the list becomes WithText of the old list, ids are kept, and `promptList` becomes the texts |
| PromptManager.Manager.SetActivePrompt | Frontend/src/app/components/PromptManager.js:45-50 | if the id is present, the current prompt becomes the text of the first entry with that id; otherwise it is unchanged; the lists are untouched |
| PromptManager.Manager.EditCurrentPrompt | Frontend/src/app/components/PromptManager.js:81-88 | the current prompt becomes the new text; the first entry whose text was the old current prompt is saved under its id; with unique ids only that entry changes; with no match the list is unchanged |
| EmailInput.UserPart | Frontend/src/app/components/EmailInput.js:22 | `email.split("@")[0]` is a prefix with no `@` that is followed by `@` or reaches the end |
| EmailInput.UserPartUnique | Frontend/src/app/components/EmailInput.js:22 | any prefix ending at the first `@` (or at the end) is the user part |
| EmailInput.SelectDomain | Frontend/src/app/components/EmailInput.js:21-24 | the new field ends with `@` + domain, and what precedes it is a prefix of the typed e-mail that holds no `@` and stops at its first `@` or at its end |
| EmailInput.SelectDomainSpec | Frontend/src/app/components/EmailInput.js:21-24 | the result is the text before the first `@` (or the whole e-mail when it has none), then `@`, then the domain |
| EmailInput.SelectDomainShape | Frontend/src/app/components/EmailInput.js:22-23 | the result starts with the preserved user part and ends with `@` + domain |
| EmailInput.SelectDomainOnEmpty | Frontend/src/app/components/EmailInput.js:22-23 | an empty field becomes `@` + domain |
| EmailInput.SelectDomainTwice | Frontend/src/app/components/EmailInput.js:21-24 | selecting d1 then d2 equals selecting d2, and selecting the same domain twice is idempotent |
| EmailInput.DomainsHaveNoAt | Frontend/src/app/components/EmailInput.js:13-19 | none of the five offered domains contains `@` |
| EmailInput.SelectDomainOneAt | Frontend/src/app/components/EmailInput.js:22-23 | with a domain free of `@`, the field holds exactly one `@` |
| EmailInput.OfferedDomainsGiveOneAt | Frontend/src/app/components/EmailInput.js:13-24 | every domain button leaves exactly one `@` in the field |
| UserBackend.RegisterReply | Backend/app.js:32-50 | the reply has no status exactly when the name is taken, is `ok` exactly when the name is free and the insert succeeds, and an `error` reply carries the thrown error |
| UserBackend.AfterRegister | Backend/app.js:35-46 | the store changes exactly when the name is free and the insert succeeds; it gains at most that name, keeps every existing user's password, and stores the given password for a new name |
| UserBackend.LoginReply | Backend/app.js:54-71 | the reply has no status exactly for an unknown user and is `ok` exactly when the stored password equals the given one |
| UserBackend.RegisterExisting | Backend/app.js:35-39 | a taken username is answered "User already exists!!" with no status, and the store is unchanged |
| UserBackend.RegisterNew | Backend/app.js:41-46 | a free username with a successful insert adds exactly that pair, keeps every other user, and answers `ok` / "User Created" |
| UserBackend.RegisterInsertFails | Backend/app.js:41-49 | an insert that throws answers `error` with the thrown error and stores nothing |
| UserBackend.LoginCases | Backend/app.js:54-71 | an unknown user gets "User doesn't exists!!" with no status; a known user gets `ok` exactly when the password matches, else `error` / "Invalid password" |
| UserBackend.RegisterThenLogin | Backend/app.js:41-67 | after a successful registration, logging in with the same credentials answers `ok` / "Login successful" |
| UserBackend.RegisterKeepsOtherLogins | Backend/app.js:32-50 | registering one user never changes any other user's login reply |
| UserBackend.UserStore.Register | Backend/app.js:32-50 | the reply and the new store are those of the lookup-then-insert handler |
| UserBackend.UserStore.Login | Backend/app.js:54-71 | the reply is that of the lookup-then-compare handler, which is `ok` only when the password matches; the store is not modified |
| EventsScreen.NameTaken | Frontend/src/app/events.js:51-52 | the uniqueness check fires exactly when a loaded event has the new name |
| EventsScreen.AppendCreatedTakesName | Frontend/src/app/events.js:51-67 | once a created event is appended, the uniqueness check refuses its name, every name refused before stays refused, and a name still let through was never in the list |
| EventsScreen.Screen.constructor | Frontend/src/app/events.js:11-18 | the screen starts loading with no events, the modal and picker hidden, and empty fields |
| EventsScreen.Screen.LoadEvents | Frontend/src/app/events.js:20-34 | a successful fetch replaces the events and a failed one keeps them; loading ends either way |
| EventsScreen.Screen.ToggleModal | Frontend/src/app/events.js:36-38 | visibility is negated and nothing else changes |
| EventsScreen.ToggleModalTwice | Frontend/src/app/events.js:36-38 | two toggles restore the previous visibility |
| EventsScreen.Screen.ShowDatePickerModal | Frontend/src/app/events.js:45-47 | the picker is shown and nothing else changes |
| EventsScreen.Screen.HandleDateChange | Frontend/src/app/events.js:40-43 | the picker is always hidden; no selection keeps the previous date, a selection replaces it |
| EventsScreen.Screen.SaveNewEvent | Frontend/src/app/events.js:49-76 | a taken name is refused with no request and nothing changed; otherwise the form is sent; `ok` appends the returned event and toggles the modal; a refusal or a thrown request only alerts |
| CaptureScreen.ToggledFacing | Frontend/src/app/CaptureImageScreen.js:36 | a flip always yields `back` or `front`, and it yields `front` exactly from `back` |
| CaptureScreen.ToggledFacingInvolution | Frontend/src/app/CaptureImageScreen.js:35-37 | flipping yields `back` or `front`; two flips from either return to it, in particular from `back` |
| CaptureScreen.TemplateText | Frontend/src/app/CaptureImageScreen.js:44 | `${v}` renders a string as itself and an absent value as `undefined`, so the result is `undefined` exactly when the value is absent or is that text |
| CaptureScreen.DataUrl | Frontend/src/app/CaptureImageScreen.js:44 | the kept photo is `data:image/jpg;base64,` followed by exactly the payload |
| CaptureScreen.DataUrlRoundTrip | Frontend/src/app/CaptureImageScreen.js:43-45 | the stored photo is `data:image/jpg;base64,` + payload; the payload is recovered from it, and a string with a payload is that payload's data URL |
| CaptureScreen.OrNull | Frontend/src/app/CaptureImageScreen.js:95-96 | a contact field falls back to null exactly when it is the empty string, and is otherwise passed as typed |
| CaptureScreen.HasContact | Frontend/src/app/CaptureImageScreen.js:81 | the submit guard passes exactly when at least one contact field is filled, that is, when the payload would carry a contact that is not null |
| CaptureScreen.BuildPayload | Frontend/src/app/CaptureImageScreen.js:92-97 | the payload carries the route's event name and the upload URL; each empty contact field becomes null and a filled one is sent as typed |
| CaptureScreen.Screen.constructor | Frontend/src/app/CaptureImageScreen.js:8-18 | the screen opens facing `back`, with no photo, the modal closed and empty contact fields |
| CaptureScreen.Screen.ToggleCameraFacing | Frontend/src/app/CaptureImageScreen.js:35-37 | the facing becomes the flipped facing and nothing else changes |
| CaptureScreen.Screen.TakePicture | Frontend/src/app/CaptureImageScreen.js:39-47 | without a camera reference nothing changes; otherwise the URI is shown and the data URL of the base64 text is kept |
| CaptureScreen.Screen.RetakePicture | Frontend/src/app/CaptureImageScreen.js:49-51 | `photoUri` becomes null and nothing else changes, including the kept data URL |
| CaptureScreen.Screen.HandleContinue | Frontend/src/app/CaptureImageScreen.js:53-55 | the modal is opened and nothing else changes |
| CaptureScreen.Screen.CancelModal | Frontend/src/app/CaptureImageScreen.js:178 | Cancel closes the modal and nothing else changes |
| CaptureScreen.Screen.RequestCloseModal | Frontend/src/app/CaptureImageScreen.js:154-156 | a close request toggles the modal and nothing else changes |
| CaptureScreen.Screen.Submit | Frontend/src/app/CaptureImageScreen.js:80-115 | with no contact details it alerts and sends nothing; otherwise it uploads the kept data URL; an upload failure alerts and leaves everything as it was; on success it records the URL and posts the payload; any reply closes the modal (`ok` also opens the event's details) and a thrown post leaves the modal open |

## Left out

- Camera permissions, the camera view, the image picker and the date pickers are left out. Their results (a shot, a selected date) are parameters.
- `Date.now()` identifiers are left out as a clock. Ids are caller-supplied naturals. Two prompts made in the same millisecond could share an id, so `WithText` saves every entry with the id, and the "only one entry changes" results assume unique ids.
- Dates are abstract timestamps. `toISOString` and `toLocaleDateString` formatting are not modelled.
- Every HTTP call (axios, the upload service, `GET /events`, `POST /create-event`, `POST /add-photo`) is left out. Their outcomes are inputs, and what is sent is returned.
- The Mongo connection, the server listener, and the `GET /` health reply are left out. They are I/O with no decision in them.
- UserBackend.UserStore.Register: assumes at most one document per username. The handler awaits between `findOne` and `User.create`, so two interleaved requests for the same free name can both pass the lookup. The user schema is not part of this model, so nothing shows a unique index. Without one, both requests get "User Created" and the collection holds two documents; a later `findOne` compares against only one of them, so `RegisterThenLogin` fails for the other password. The map and the atomic `Register` do not capture this interleaving. Under a unique index, the request that loses the race is the `createError` case.
- UserBackend.LoginCases: assumes `username` and `password` are strings. With `express.json()` they can be missing or JSON objects. A username such as `{"$gt": ""}` makes `findOne` match some stored user, and a missing password is `===` a missing stored password. Neither query operators nor missing fields are modelled.
- EventsScreen.Screen.SaveNewEvent: each async handler is modelled as one uninterrupted step, but the screen stays live during its awaits. `handleSaveNewEvent` awaits `axios.post` (events.js:58) while the Save button stays enabled, so two quick taps with a free name both read the same render's `events`, both pass the uniqueness check and send two `POST /create-event` requests for one name; when both replies are `ok`, the later `setEvents([...events, ...])` (line 67) reuses the stale list and drops the first appended event. The model, where a second `SaveNewEvent` after a `Created` reply is refused, and `AppendCreatedTakesName` hold only for runs one after another. The same applies to `CaptureScreen.Screen.Submit`, which awaits the upload (CaptureImageScreen.js:88) and the post (line 100) while the modal's Submit button stays pressable, so a second tap can upload and post the photo twice.
- A `findOne` that throws is left out: the handler would send no reply.
- The error that a failed `User.create` throws is sent as `data: error`, that is, as whatever JSON the error serialises to; for a plain `Error`, whose `message` is not enumerable, that is `{}`. `createError` stands for that opaque serialised value, not for the error's message, and the model does not decide what it contains.
- React's scheduling is left out. The prompt mount effect depends on `currentPrompt`, so the framework re-runs it after every change to the current prompt; when the new current prompt is non-empty, that resets the list to one entry holding it, and when the field is cleared the list is kept. The model exposes the effect as `SyncWithCurrentPrompt` for the caller to run; it does not run it by itself after `SetActivePrompt` or `EditCurrentPrompt`.
- Batched state updates are modelled as sequential updates. Each handler reads the state of the render it was created in.
- Text-field handlers other than `SetNewPrompt` are plain field writes, since the fields are public. This covers the event name, prompt and negative prompt fields, and phone and e-mail. The `isEditingPrompt` and `promptSelectionOpen` toggles of the prompt editor are not modelled, but they decide which handlers the screen offers: `editable={isEditingPrompt}` decides whether the current-prompt field takes input, and so whether `EditCurrentPrompt` can fire, and `promptSelectionOpen` mounts the add input, the "Save New Prompt" button and the per-entry fields and "Active" buttons, that is `SetNewPrompt`, `AddNewPrompt`, `SavePrompt` and `SetActivePrompt`. The model lets the caller run every handler in any state. That is a superset of what the screen allows, so every property proved here also holds of the screen.
- Rendering, styling, navigation other than the details screen that `Submit` opens, and the other screens and backend modules are not part of this model.
- `TakePicture`: `takePictureAsync()` is called without asking for base64, so the stored string can be `data:image/jpg;base64,undefined`. The model keeps this through `TemplateText`, but the camera library's behaviour is outside the model.
- `uploadImageToCloudinary` ignores its `photoUri` argument and uploads the kept data URL `photo`. `Submit` states this.
