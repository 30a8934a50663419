# Portfolio site: contact relay and admin forms, modelled in Dafny

This project models the parts of a personal portfolio site that have
behaviour you can state precisely:

- **The contact relay** (`SendEmail`). This is the serverless handler behind the public
  contact form. It accepts only POST and needs a name, an address and a
  message. It builds one e-mail: sent from the SMTP account under the
  submitter's name, addressed to the contact mailbox, with replies going to the
  submitter. It answers 200 or 500 depending on whether the SMTP server took
  the message.
- **The contact form** (`Contact`). It holds three fields and a status that moves
  idle → sending → success or error. Class `ContactModal` holds the
  component's state. The pure function `Step` is the same state machine, and
  the lemmas about it cover every sequence of user actions and responses.
- **The project form** (`Projects`). The tech stack is a comma-separated text that
  is parsed into a list. The form is filled from the project being edited. On
  submit, the form uploads the chosen image and then either updates or
  inserts the row.
- **The admin dashboard** (`Admin`). It covers tab switching, opening the project
  form for a new or an existing project, loading and normalising the profile,
  editing single social links, the card previews, and the profile save.

Shared pieces:

- `Js` models values that may be missing (`undefined`/`null` as `None`) and
  JavaScript truthiness.
- `Text` models `split`, `join`, `trim`, the filter that drops empty parts, and
  the replacement of newlines with `<br/>`.
- `Storage` models the upload step that the project image and the avatar
  share.

The model replaces every outside call with a parameter:

- nodemailer's send becomes `SendOutcome`.
- `fetch` becomes `FetchOutcome`.
- The storage upload and `getPublicUrl` become `UploadOutcome`.
- The signed-in user becomes an `Option` of its id.
- A database write becomes a success flag.
- `Math.random()` becomes a `nonce` text.
- `URL.createObjectURL` becomes an `objectUrl` text.
- `new Date()` becomes a `now` text.
- `alert` becomes a returned notice text.
- The backend's storage of an upserted profile is `Admin.StoredRow`. It keeps every column as sent.
- The values an async handler's closure captured are a `Draft` (or `ProfileDraft`), which the component keeps from the click until the save completes.
- The effects the contact form starts are part of the state: the number of
  requests still in flight, and the delays of the auto-close timers scheduled.

Each async handler is split into two methods at the await that matters
(`HandleSubmit`/`ReceiveResponse`, `BeginSubmit`/`CompleteSubmit`,
`BeginProfileSave`/`CompleteProfileSave`). The first method sets the busy
state. The second applies the outcome.

The UI calls an action only when the control for it is on screen and
enabled. That is why `Contact.ContactModal.HandleSubmit` requires that the
status is idle or error: the form is hidden on success and the button is
disabled while sending. For the same reason, `BeginSubmit` and
`BeginProfileSave` require that the component is not already busy. The
browser's own checks on the fields (`required`, `type="email"`) are not part
of this gating; see "Left out". The methods of `ContactModal` also require
and keep `Valid()`, the invariant that every modal object satisfies from its
construction on.

There are three known gaps in the model:

- A body field is modelled as text or missing. JSON numbers, booleans or
  objects are not modelled.
- A project's `id` is modelled as text. Its truthiness is `Js.Truthy`.
- `trim` removes a fixed set of characters (`Text.IsSpace`): ASCII whitespace,
  no-break space, the byte order mark, and the line and paragraph separators.
  It does not remove the other Unicode space separators.

## Model

| member | source | states |
|---|---|---|
| `SendEmail.Handle` | netlify/functions/send-email.js:3-48 | Any method other than POST gets 405 "Method Not Allowed". A POST with a missing or empty name, e-mail or message gets 400 `{"error":"Missing fields"}`. A send is attempted exactly when the request is a POST with all three fields. A send attempt answers 200 `{"message":"Email sent successfully"}` when the server accepts it and 500 `{"error":"Failed to send email"}` when it does not. The message has `replyTo` = the submitted e-mail, `to` = `CONTACT_EMAIL` when non-empty and `SMTP_USER` otherwise, `from` = `"name" <SMTP_USER>`, and the fixed subject, text and HTML templates. The status is always 200, 400, 405 or 500. |
| `SendEmail.TransportFor` | netlify/functions/send-email.js:15-23 | The TLS flag is on exactly when `SMTP_SECURE` is the text "true". Host, port, user and password are taken from the environment unchanged. |
| `SendEmail.RejectionReasonHidden` | netlify/functions/send-email.js:41-46 | Two send failures with different errors give identical results, so the transport's error never reaches the caller. |
| `SendEmail.TextBodyLines` | netlify/functions/send-email.js:31 | When the name and the address have no newline, the text body's lines are "Nome: name", "Email: email", an empty line, "Mensagem:", and then exactly the message's own lines. |
| `SendEmail.HtmlBodyLines` | netlify/functions/send-email.js:32-34 | When the name and the address have no newline, the HTML body always has exactly three lines, whatever the message: the name line, the e-mail line, and the message line. In the message line, every newline of the message has become `<br/>`. |
| `SendEmail.TextBody` | netlify/functions/send-email.js:31 | The plain-text template. Its lines are stated by `TextBodyLines`. |
| `SendEmail.HtmlBody` | netlify/functions/send-email.js:32-34 | The HTML template, with the fields put in without escaping. Its lines are stated by `HtmlBodyLines`. |
| `SendEmail.BuildMail` | netlify/functions/send-email.js:26-35 | The message handed to the transport. Its fields are stated by `Handle` for every dispatched submission. |
| `SendEmail.TwoLineMessageHtml` | netlify/functions/send-email.js:34 | A two-line message `a\nb` is rendered as `a<br/>b`. |
| `SendEmail.AcceptedSubmission` | netlify/functions/send-email.js:26-40 | Example: Ana's submission with a working transport gets 200. It is sent to the contact mailbox with replies to ana@x.com, and the subject ends in her name. |
| `SendEmail.EmptyNameRefused` | netlify/functions/send-email.js:10-12 | Example: an empty name gets 400 and nothing is sent. |
| `Js.Interpolate` | netlify/functions/send-email.js:27 | A missing environment variable is rendered as the text "undefined" in a template string. |
| `Js.OrElse` | netlify/functions/send-email.js:28 | `a \|\| b` gives `a` when it is truthy and `b` otherwise. |
| `Js.OrEmpty` | src/components/ProjectModal.jsx:24-29 | `v \|\| ''` is empty exactly when `v` is falsy, and is `v` itself otherwise. |
| `Text.ReplaceNewlines` | netlify/functions/send-email.js:34 | `message.replace(/\n/g, '<br/>')`, character by character. Its properties are stated by the four lemmas below. |
| `Text.ReplaceNewlinesRemovesAll` | netlify/functions/send-email.js:34 | After the replacement, no newline is left. |
| `Text.ReplaceNewlinesLength` | netlify/functions/send-email.js:34 | The result's length is the input's length plus 4 for each newline. |
| `Text.ReplaceNewlinesIdentity` | netlify/functions/send-email.js:34 | Text without a newline is left unchanged. |
| `Text.ReplaceNewlinesAppend` | netlify/functions/send-email.js:34 | Replacing in a concatenation gives the concatenation of the replaced parts. |
| `Text.Split` | src/components/ProjectModal.jsx:82 | `split` gives one more piece than there are separators, and no piece contains the separator. |
| `Text.Join` | src/components/ProjectModal.jsx:28 | `join` follows JavaScript: no parts give "", and one part gives that part. `JoinSplit` and `SplitJoin` make `Split` its inverse. |
| `Text.JoinSplit` | src/components/ProjectModal.jsx:82 | Joining the pieces of a split with the separator gives back the original text. |
| `Text.SplitJoin` | src/components/ProjectModal.jsx:82 | Splitting a join of separator-free pieces gives back those pieces. |
| `Text.LastPiece` | src/components/ProjectModal.jsx:50 | The last piece of a split is the separator-free tail of the text. It follows a separator when the text has one, and it is the whole text when it has none. |
| `Text.TrimStart` | src/components/ProjectModal.jsx:82 | The result is a suffix of the input that does not start with whitespace. Only whitespace was removed. |
| `Text.TrimEnd` | src/components/ProjectModal.jsx:82 | The result is a prefix of the input that does not end with whitespace. Only whitespace was removed. |
| `Text.Trim` | src/components/ProjectModal.jsx:82 | The result has no whitespace at either end. It is a contiguous part of the input with only whitespace before it and after it, which determines it exactly. Every character in it was in the input. |
| `Text.TrimAll` | src/components/ProjectModal.jsx:82 | Each part is trimmed, in place. |
| `Text.DropEmpty` | src/components/ProjectModal.jsx:82 | The result has no empty part. A non-empty text is in the result exactly when it is in the input. The result is the whole input when nothing was empty. |
| `Text.DropEmptyAppend` | src/components/ProjectModal.jsx:82 | The filter keeps order: filtering a concatenation gives the concatenation of the filtered parts. |
| `Text.DropEmptyExample` | src/components/ProjectModal.jsx:82 | Example: `["a", "", "b"]` becomes `["a", "b"]`. |
| `Projects.ParseTechStack` | src/components/ProjectModal.jsx:82 | Every entry of the parsed list is non-empty, has no whitespace at either end, and has no comma. |
| `Projects.FormatTechStack` | src/components/ProjectModal.jsx:28 | `join(', ')`: a clean list of n entries becomes a text with exactly n - 1 commas. Its inverse on clean lists is `ParseTechStack`, as `TechStackRoundTrip` states. |
| `Projects.TechStackRoundTrip` | src/components/ProjectModal.jsx:28 | For a list of non-empty, trimmed, comma-free entries, parsing its `join(', ')` gives back the list. |
| `Projects.ParseFormatParse` | src/components/ProjectModal.jsx:82 | Formatting a parsed list and parsing it again gives the same list. Saving a project and then editing it keeps its tech stack. |
| `Projects.FormFor` | src/components/ProjectModal.jsx:8-33 | A new project starts with all fields empty. An edited project has each column copied, with `''` for a missing one, and `tech_stack` joined with ", ". A clean tech stack parses back to the project's list. |
| `Projects.SetField` | src/components/ProjectModal.jsx:35-37 | Only the named field takes the new value. The other fields and the image URL are unchanged. |
| `Projects.HasId` | src/components/ProjectModal.jsx:88 | `project?.id` is truthy: a project is given and its id is a non-empty text. `Submission` updates exactly in this case. |
| `Projects.Submission` | src/components/ProjectModal.jsx:69-113 | The image is uploaded under `nonce.ext` when a file was chosen. A write is issued exactly when the upload did not fail and a user is signed in. An update by id is chosen exactly when `project?.id` is truthy; otherwise an insert. The record holds the form fields, the parsed tech stack, the user id, and the image URL, which is `formData.image_url` when no file was chosen and the new public URL otherwise. The save succeeds exactly when the write was issued and went through. |
| `Projects.ProjectModal.constructor` | src/components/ProjectModal.jsx:8-33 | When the component mounts, the form is filled from the project and the preview shows its image URL. The component is not busy, shows no error, has called no callback, and has no submission in progress. |
| `Projects.ProjectModal.HandleChange` | src/components/ProjectModal.jsx:35-37 | Only the named field of `formData` changes. No other state changes. |
| `Projects.ProjectModal.HandleImageChange` | src/components/ProjectModal.jsx:39-45 | A chosen file becomes the pending image and its object URL becomes the preview. An empty choice changes nothing. |
| `Projects.ProjectModal.BeginSubmit` | src/components/ProjectModal.jsx:69-72 | At submit start, `loading` is true and `error` is cleared. The submission keeps the form and the chosen file as they are at this moment, which is what the handler's closure holds. |
| `Projects.ProjectModal.CompleteSubmit` | src/components/ProjectModal.jsx:74-112 | The method returns what `Submission` specifies for the form and the file kept when save was pressed. Edits made while saving do not reach the record. On success, `onSave` and then `onClose` are called once each. On any failure, the error message is set and neither callback is called. `loading` is false on every path, and the form is unchanged. |
| `Storage.FileExtension` | src/components/ProjectModal.jsx:50 | The extension is the text after the last `.`, or the whole name when it has no `.`. It contains no `.` and is a suffix of the name. |
| `Storage.ObjectPath` | src/components/ProjectModal.jsx:50-52 | The object path starts with the prefix and ends with `.` followed by the extension. |
| `Storage.Upload` | src/components/ProjectModal.jsx:47-66 | With no file, nothing is uploaded. With a file, the upload goes to `ObjectPath`. The stored object's public URL is returned exactly when the storage service accepted the upload. |
| `Contact.SetField` | src/components/ContactModal.jsx:38-40 | Only the named field takes the new value. The other two fields are unchanged. |
| `Contact.IsOk` | src/components/ContactModal.jsx:25 | `response.ok`: the status is in 200-299. A thrown `fetch` is never ok. |
| `Contact.Render` | src/components/ContactModal.jsx:52-107 | The confirmation is shown exactly on success. The error notice is shown exactly on error. The button is disabled exactly while sending. |
| `Contact.Step` | src/components/ContactModal.jsx:14-40 | The effect of typing, of submitting, and of a response arriving. `StepConsistent` states the invariant it keeps. |
| `Contact.ContactModal.View` | src/components/ContactModal.jsx:52-107 | The confirmation is shown exactly on success, so the form is shown otherwise. The error notice is shown exactly on error. The submit button is disabled exactly while sending. |
| `Contact.ReachableConsistent` | src/components/ContactModal.jsx:14-36 | In every reachable state, at most one request is in flight, and one is in flight exactly while sending. After a success, exactly one auto-close of 3000 ms is scheduled; otherwise none is. |
| `Contact.StepConsistent` | src/components/ContactModal.jsx:14-36 | Every enabled action keeps the property that `ReachableConsistent` states. |
| `Contact.SuccessIsFinal` | src/components/ContactModal.jsx:52 | After a success, no action is possible in the modal. |
| `Contact.ResponseOutcome` | src/components/ContactModal.jsx:25-35 | A response arrives only while sending. A 2xx response leads to success. Any other response, or a thrown fetch, leads to error. The form data is unchanged. |
| `Contact.SuccessComesFromOk` | src/components/ContactModal.jsx:25-31 | In a state reached with success status, the last event was a 2xx response. |
| `Contact.ErrorAllowsResubmit` | src/components/ContactModal.jsx:32-35 | After an error, the form is shown with the notice, the button is enabled, and submitting again moves to sending. |
| `Contact.ContactModal.constructor` | src/components/ContactModal.jsx:7-12 | The modal starts idle, with all three fields empty, no request in flight and no close scheduled. `Valid()` holds from the start. |
| `Contact.ContactModal.HandleChange` | src/components/ContactModal.jsx:38-40 | Only the named field changes. The status and the effects are unchanged, and `Valid()` is kept. |
| `Contact.ContactModal.HandleSubmit` | src/components/ContactModal.jsx:16-23 | The status becomes sending and one request is issued. Its body is exactly the current form data. `Valid()` is kept. |
| `Contact.ContactModal.ReceiveResponse` | src/components/ContactModal.jsx:25-35 | The request is settled. A 2xx response sets success and schedules an auto-close after `CloseDelay` (3000 ms). Anything else sets error and schedules nothing. `Valid()` is kept. |
| `Admin.NormaliseProfile` | src/pages/Dashboard.jsx:51-56 | Name, bio and avatar URL are copied. `email` defaults to `''` when falsy. `social_links` defaults to `{github:'', linkedin:''}` when missing. |
| `Admin.StoredRow` | src/pages/Dashboard.jsx:95-103 | The backend stores the upserted columns as they are, so loading the stored row gives back exactly the profile that was sent. |
| `Admin.WithLink` | src/pages/Dashboard.jsx:358-361 | Only the edited key of `social_links` takes the new value. The other keys and all other profile fields are unchanged. |
| `Admin.Take` | src/pages/Dashboard.jsx:234-236 | `substring(0, n)` and `slice(0, n)` give a prefix of length `min(n, length)`. |
| `Admin.CardPreview` | src/pages/Dashboard.jsx:234-236 | The card shows the first 80 characters of the description followed by "...", and the first 3 tags in order. |
| `Admin.ProfileSave` | src/pages/Dashboard.jsx:89-115 | The avatar is uploaded under `avatar-nonce.ext` when a file was chosen, before the user is checked. The upsert is sent exactly when the upload did not fail and a user is signed in. It keeps the current avatar URL when no file was chosen, carries the user id and the clock value, and loads back as the same profile. The save succeeds exactly when the upsert went through. |
| `Admin.Dashboard.constructor` | src/pages/Dashboard.jsx:20-33 | The dashboard starts on the projects tab, with the modal closed, no project being edited, an empty profile, and no save in progress. |
| `Admin.Dashboard.SelectTab` | src/pages/Dashboard.jsx:178-189 | A navigation click sets the active tab to exactly the clicked one. Nothing else changes. |
| `Admin.Dashboard.AddProject` | src/pages/Dashboard.jsx:132-136 | No project is being edited and the modal is open, so the form starts empty. |
| `Admin.Dashboard.EditProject` | src/pages/Dashboard.jsx:138-141 | The given project is being edited and the modal is open. |
| `Admin.Dashboard.CloseModal` | src/pages/Dashboard.jsx:165 | Only `isModalOpen` becomes false. |
| `Admin.Dashboard.ReceiveProjects` | src/pages/Dashboard.jsx:117-125 | Fetched rows replace the list. A failed fetch leaves the list unchanged. |
| `Admin.Dashboard.ReceiveProfile` | src/pages/Dashboard.jsx:41-59 | Without a user or a row, nothing changes. Otherwise the profile is the normalised row, and the avatar preview is set only when the row's avatar URL is truthy. |
| `Admin.Dashboard.EditFullName` | src/pages/Dashboard.jsx:324 | Only `full_name` changes. |
| `Admin.Dashboard.EditBio` | src/pages/Dashboard.jsx:333 | Only `bio` changes. |
| `Admin.Dashboard.EditEmail` | src/pages/Dashboard.jsx:348 | Only `email` changes. |
| `Admin.Dashboard.EditSocialLink` | src/pages/Dashboard.jsx:358-372 | Editing the GitHub or LinkedIn input changes only that key of `social_links`. |
| `Admin.Dashboard.ChooseAvatar` | src/pages/Dashboard.jsx:61-67 | A chosen file becomes the pending avatar and its object URL becomes the preview. An empty choice changes nothing. |
| `Admin.Dashboard.BeginProfileSave` | src/pages/Dashboard.jsx:89-90 | `savingProfile` becomes true. The save keeps the profile and the chosen avatar as they are at this moment, which is what the handler's closure holds. Nothing else changes. |
| `Admin.Dashboard.CompleteProfileSave` | src/pages/Dashboard.jsx:91-114 | The method returns what `ProfileSave` specifies for the profile and the avatar kept when save was pressed. Edits made while saving do not reach the upsert. The notice is the success or the error notice. `savingProfile` is false on both paths, and `profileData` is unchanged. |

## Left out

- JSON parsing of the request body is not modelled: the handler starts from an already-parsed body, and a malformed body throws with no handler of its own. Body values that are not strings are not modelled either.
- nodemailer's transport and `sendMail` are an outside library with network I/O. Only the transport settings and the send's success or failure are modelled. The server-side `console.error` log is left out.
- The hosting platform's `context` argument and invocation timeouts are left out.
- `fetch` and `setTimeout` are left out. A request in flight is a counter on the state, and a scheduled auto-close is its delay in a list. The timer firing and `onClose` unmounting the modal are not modelled.
- All Supabase calls are outside calls: table reads and writes, storage upload, `getPublicUrl`, `auth.getUser`. Each one is an outcome parameter as described above.
- `handleDeleteProject` is left out. It consists of a `window.confirm` dialog, a delete call and a reload, with no state of its own.
- `handleLogout` is left out. It consists of `signOut` and navigation.
- The `display_order` sorting of `fetchProjects` is done by the backend and is not modelled.
- `Admin.NormaliseProfile`: the spread `...data` also copies table columns the page never reads (such as `id` and `updated_at`). The model keeps only the five profile columns.
- `Admin.Take`: JavaScript's `substring` counts UTF-16 code units, but the model counts characters. A description holding characters outside the Basic Multilingual Plane is cut at a different place.
- `Text.Trim`: the whitespace set is explicit and does not contain every Unicode space separator.
- The browser's own form validation is left out: the `required` and `type="email"` attributes of the contact inputs stop submission of an empty or malformed form. The model lets `HandleSubmit` run whenever the button is enabled, so it also covers submissions the browser would block.
- The `x || ''` fallbacks in the input `value` attributes are JSX rendering. They are not modelled, and neither are all other markup, styling and icons.
- `src/pages/Home.jsx` is presentation only.
- `src/main.jsx` is router configuration.
- `src/components/ProtectedRoute.jsx` is a session subscription and a redirect.
