# Skincare consultations: doctor workflow and consultation controller

This project models two pieces of the Skincare consultation system in Dafny.

- **Consultation controller (backend).** There are three handlers.
  - `getDoctors` lists the doctors.
  - `requestConsultation` validates a patient's request and builds the record to insert. It checks the uploaded image first, then the reason and the description.
  - `getConsultationStatus` lists a patient's consultations. An empty result gives a 404.

  Each handler is a pure function. Its input is the request and the outcome of its one database call. Its output is a tagged `Response`: the status code plus an error message, a message, or a payload.
- **Doctor's consultation-requests screen (frontend).** The screen's status conditions form a small state machine over the status strings the code uses: `'pending'`, `'Accepted'`, `'Rejected'`, `'Confirmed'` and `'Completed'`.
  - `Buttons` gives the actions a request offers.
  - `OnClick` gives what each action does.
  - `Step` is the workflow's edge relation.

  The component keeps three pieces of state: `requests`, `updatingId` and `newDateTime`. They are the fields of the class `DoctorConsultationRequests`. Its methods are the handlers `updateStatus`, `handleChangeTime` and `handleDateChange`, plus the mount-time fetch. The list patch that `updateStatus` applies on success is the function `PatchStatus`.

JavaScript values are modelled explicitly.
- A form field or time value is `Nullable`. `Missing` stands for both `null` and `undefined`; `Str` holds a string.
- Truthiness is `Truthy`: only a non-empty string is truthy.
- `a || b` is `Or`.

A Sequelize join with no match yields `null`. Reading `.User.username` through it then throws inside the handler's `try`. The model therefore gives a 500 whenever any row lacks its join.

Files:
- `js_values.dfy`: module `JsValues`.
- `consultation_controller.dfy`: module `ConsultationController`.
- `doctor_consultation_requests.dfy`: module `DoctorRequests`.

## Model

| member | source | states |
|---|---|---|
| `ConsultationController.FormatDoctors` | backend/controllers/consultationController.js:16-20 | The projection succeeds exactly when every doctor row has its user joined. It then yields one entry per doctor, in order: same `id`, `name` = the user's `username`, same `specialization`. |
| `ConsultationController.GetDoctors` | backend/controllers/consultationController.js:6-26 | The result is 200 with the projected list, or 500 `'Failed to find doctors'`. It is 200 exactly when the query succeeded and every row has its user. |
| `ConsultationController.ContactDetailsNeverReturned` | backend/controllers/consultationController.js:13-20 | Doctor rows that differ only in `contactDetails` give the same response, so `contactDetails` is selected but never returned. |
| `ConsultationController.RecordOf` | backend/controllers/consultationController.js:43-53 | The record to insert copies `patientId`, `doctorId`, `dateTime`, `reason` and `description` unchanged from the body. Its `imageUrl` is the uploaded file's path. |
| `ConsultationController.RequestConsultation` | backend/controllers/consultationController.js:30-60 | No body gives 500. With a body but no file, the result is 400 `'Image is required'` whatever the other fields hold. With a file but a falsy reason or description, it is 400 `'Reason and description are required'`. A failed insert gives 500 `'Failed to request consultation'`. The result is 201 exactly when validation passes and the insert succeeds, and it then carries `'Consultation requested'` and the record. |
| `ConsultationController.AcceptanceIgnoresPartiesAndTime` | backend/controllers/consultationController.js:32-41 | Two forms alike in file, reason and description either both pass validation or both fail it. For the same insert outcome they get the same status code. When that code is not 201 they get the same whole response. So the handler never checks `patientId`, `doctorId` or `dateTime`. |
| `ConsultationController.FormatConsultations` | backend/controllers/consultationController.js:83-90 | The projection succeeds exactly when every row has its doctor and the doctor's user joined. It then yields one entry per row, in order: `id`, `doctorId`, `dateTime` and `status` are copied, `doctorName` is the user's `username` and `specialty` is the doctor's `specialization`. |
| `ConsultationController.GetConsultationStatus` | backend/controllers/consultationController.js:62-96 | A store error gives 500 `'Failed'`. An empty result gives 404 `'No consultations'`. Non-empty rows with a missing doctor or user join give 500 `'Failed'`, never a partial list. The result is 200 exactly when the rows are non-empty and fully joined. It then has one entry per row, in order, with `id`, `doctorId`, `dateTime` and `status` copied, `doctorName` the user's `username` and `specialty` the doctor's `specialization`. |
| `ConsultationController.StatusListKeepsOrder` | backend/controllers/consultationController.js:83-92 | For fully joined rows, the returned list has exactly the rows' ids, in the same order. |
| `DoctorRequests.Buttons` | frontend/src/components/DoctorConsultationRequests.js:79-136 | Every rendered action is permitted from the request's status by the per-action reference table `Permitted`. Every permitted action except Save Time is rendered. Save Time is shown exactly when the status is `'Accepted'` and `updatingId` is this request's id. A status other than `'pending'`, `'Accepted'` and `'Confirmed'` renders no action. |
| `DoctorRequests.OfferedChangesAreSteps` | frontend/src/components/DoctorConsultationRequests.js:88-131 | Every status change that a rendered button requests is an edge of `Step`: `'pending'`→`'Accepted'`/`'Rejected'`, `'Accepted'`→`'Accepted'`/`'Confirmed'`, `'Confirmed'`→`'Completed'`. There is no direct jump to `'Completed'`. Only Save Time passes a time. |
| `DoctorRequests.OnClick` | frontend/src/components/DoctorConsultationRequests.js:88-131 | Change Time opens the time editor; every other button sends a status update. Accept and Save Time target `'Accepted'`, Reject `'Rejected'`, Confirm `'Confirmed'` and Complete `'Completed'`. Only Save Time passes a time, namely the component's `newDateTime`. From every status in which an action is permitted, its target is a `Step`. |
| `DoctorRequests.StepsAreOffered` | frontend/src/components/DoctorConsultationRequests.js:79-136 | Conversely, some button offers every edge of `Step`. Accepted→Accepted is offered once Change Time has set `updatingId`. |
| `DoctorRequests.AcceptedBackToStart` | frontend/src/components/DoctorConsultationRequests.js:97-128 | In a run of offered changes from `'pending'`, an `'Accepted'` entry has only `'Accepted'` entries before it, back to the start. |
| `DoctorRequests.CompletionPassesThroughConfirmation` | frontend/src/components/DoctorConsultationRequests.js:97-136 | Every run of offered changes from `'pending'` to `'Completed'` is: `'pending'`, one or more `'Accepted'`, `'Confirmed'`, `'Completed'`. No state is skipped. |
| `DoctorRequests.PatchStatus` | frontend/src/components/DoctorConsultationRequests.js:32-36 | The list keeps its length. Entries whose id differs from `requestId` are unchanged. Entries whose id matches take the new status. Their `dateTime` becomes `newDateTime` when that is truthy and otherwise stays as it was. Their other fields are unchanged. |
| `DoctorRequests.PatchKeepsIds` | frontend/src/components/DoctorConsultationRequests.js:32-36 | The patch keeps the list's ids and their order. |
| `DoctorRequests.PatchIdempotent` | frontend/src/components/DoctorConsultationRequests.js:32-36 | Applying the same patch twice equals applying it once. |
| `DoctorRequests.ClickFollowsWorkflow` | frontend/src/components/DoctorConsultationRequests.js:24-136 | In a list with distinct ids, an offered status button moves its request along one workflow edge and leaves every other entry untouched. It changes the request's `dateTime` only for Save Time with a truthy time. |
| `DoctorRequests.DoctorConsultationRequests.constructor` | frontend/src/components/DoctorConsultationRequests.js:5-7 | The initial state is no requests, `newDateTime` null and `updatingId` null. |
| `DoctorRequests.DoctorConsultationRequests.ShowsTimeEditor` | frontend/src/components/DoctorConsultationRequests.js:79-94 | The time editor is shown exactly when Save Time is among the request's buttons: status `'Accepted'` and `updatingId` equal to its id. |
| `DoctorRequests.DoctorConsultationRequests.FetchRequests` | frontend/src/components/DoctorConsultationRequests.js:10-19 | A successful fetch replaces `requests`. A failed one leaves it. The other state is unchanged. |
| `DoctorRequests.DoctorConsultationRequests.UpdateStatus` | frontend/src/components/DoctorConsultationRequests.js:24-44 | On success, `requests` becomes `PatchStatus` of the old list, and `updatingId` and `newDateTime` are reset to null. On failure, all three are unchanged. |
| `DoctorRequests.DoctorConsultationRequests.HandleChangeTime` | frontend/src/components/DoctorConsultationRequests.js:46-48 | Sets `updatingId` to the request's id and changes nothing else. |
| `DoctorRequests.DoctorConsultationRequests.HandleDateChange` | frontend/src/components/DoctorConsultationRequests.js:50-52 | Sets `newDateTime` to the input's value and changes nothing else. |
| `DoctorRequests.DoctorConsultationRequests.Click` | frontend/src/components/DoctorConsultationRequests.js:79-136 | A click on a rendered button does one of two things. Change Time opens the time editor. Any other button runs `updateStatus` with its target status, which is a `Step` from the current status. Only Save Time passes the time being edited. |

## Left out

- Network and UI side effects are not modelled: the axios calls, the `localStorage` token header, `alert` and `console`. The outcome of each PUT or GET is a parameter.
- The framework's scheduling is not modelled: React's `useEffect`, and the ordering of async steps. Each handler is one atomic step.
- JSX rendering is not modelled, apart from the buttons and the time editor. That includes the empty-list message, the image and the locale-formatted date.
- The Sequelize ORM is not modelled.
  - A query is given by its outcome: its rows, or a thrown error.
  - The `where: { patientId }` filter of `getConsultationStatus` is not modelled. Its input is the filtered rows.
  - An insert is given by whether it succeeded. The 201 response carries the record handed to the insert. Columns the database fills in, such as the id, the default status and timestamps, are not modelled.
- `frontend/src/components/Status.js` is not modelled. It only renders the status list and fetches it for patients.
- Server-side enforcement of status transitions is not modelled, because the PUT endpoint is not part of this model. `Step` is the set of transitions the screen offers, not a rule the server checks.
- Availability windows, multiple attachments, a separate proposed-time field and double-booking rules are not modelled. None of them appears in the modelled code. That code stores a single `dateTime` and a single image. Save Time replaces the `dateTime` only when the edited value is non-empty; otherwise the old time stays.
