# VDR inspection app: a Dafny model

This project models the client logic of a small web application. Marine engineers use it to
record inspections of a ship's voyage data recorder (VDR). A visitor signs up or signs in. A
signed-in engineer sees a dashboard of their inspections and fills in new ones in a three-page
wizard:

1. vessel and VDR details;
2. the required photos of the data acquisition unit (DAU), the fixed capsule, the float-free
   capsule, the bridge control panel (BCP) and the video interface, each section with an
   optional list of up to 3 extra photos;
3. the EPIRB and maker reports, a class report or class name, and up to 2 previous
   certificates of conformity.

On submit, the wizard:

- inserts a parent `inspections` row;
- uploads every picked file to the `inspection-files` bucket, under the user's folder;
- inserts one row per section into six dependent tables, carrying the public URLs.

Modules, in dependency order:

| module | file | what it models |
|---|---|---|
| `Wrappers` | wrappers.dfy | `Option` |
| `Js` | js.dfy | JavaScript truthiness, `&&`/`||` chains, `every(Boolean)`, `slice(0, end)` with a negative end, `${n}` for integers |
| `FormTypes` | form_types.dfy | the form record, its 31 fields read by name, the initial record, the VDR makes and the picker capacities |
| `StoragePath` | storage_path.dfy | the storage path `<user>/<tag>_<now>.<extension>` and the extension taken from the file name |
| `Backend` | backend.dfy | the storage and table service as an oracle, and a `Client` object that records every call it forwards |
| `Submission` | submission.dfy | the calls the submit handler issues, as functions of the oracle, the history of calls, the record, the user and the draft flag |
| `InspectionForm` | inspection_form.dfy | the wizard: the merge of partial updates, the three validators, next/previous navigation, the buttons, and a `Wizard` class whose methods are proved to issue exactly the calls `Submission` describes |
| `Register` | register.dfy | the password requirements, the sign-up handler and the enabling of its button |
| `MultiFileUpload` | multi_file_upload.dfy | the bounded list picker: truncated append, removal by position, the "add" area |
| `FileUpload` | file_upload.dfy | the single-file picker: select, remove, the native `required` attribute and the type hint |
| `App` | app.dfy | which top-level screen is shown, and the sign-in/sign-up toggle |
| `Dashboard` | dashboard.dfy | the inspection list, status colours, the screen shown, and the switch to and from the wizard |

The backend is an `Oracle`. It holds four total functions:

- the clock reading;
- whether an upload fails;
- the public URL of a stored object;
- the reply to an insert.

The first, second and fourth receive the history of calls issued so far. Any run of the real
service, failures included, is the behaviour of some oracle. So a property proved for every
oracle holds for every run. Components that change state (`Wizard`, `RegisterForm`,
`AppContent`, `DashboardState`, `Client`) are classes. Their methods state the whole new state.
Renders and handlers that only compute a value are functions, with lemmas relating them to
independent descriptions.

All paths in the table below are relative to the repository root.

## Model

| member | source | states |
|---|---|---|
| FormTypes.MakeText | src/components/InspectionForm/types.ts:6 | the make's string is one of the five allowed strings, and it is empty exactly for the unset make |
| FormTypes.MakeOfText | src/components/InspectionForm/types.ts:6 | a string denotes a make exactly when it is one of the five allowed strings |
| FormTypes.MakeTextRoundTrip | src/components/InspectionForm/types.ts:6 | a make and its string determine each other, in both directions |
| FormTypes.VdrMakesOffered | src/components/InspectionForm/Page1.tsx:9 | the picker offers every non-empty make exactly once, and not the empty one |
| FormTypes.Get | src/components/InspectionForm/types.ts:1-33 | reading a field yields a value of the field's declared kind: text, make, single file or file list |
| FormTypes.InitialFormData | src/components/InspectionForm/types.ts:35-67 | the initial record holds the empty string in every text field except the date, no make, null in every file slot and `[]` in every list; the date is the first 16 characters of the ISO timestamp |
| FormTypes.InitialDateIsMinutePrefix | src/components/InspectionForm/types.ts:39 | for an ISO timestamp of at least 16 characters, the initial date is exactly its first 16 characters |
| Js.AndChain | src/components/InspectionForm/InspectionForm.tsx:55-92 | definition of the value of `v0 && ... && vn`; it is one of the operands; specified by `Js.AndChainTruthy` |
| Js.AndChainTruthy | src/components/InspectionForm/InspectionForm.tsx:55-92 | an `&&` chain is truthy exactly when every operand is truthy |
| Js.Or | src/components/InspectionForm/InspectionForm.tsx:90 | `a || b` is one of its operands, and it is truthy exactly when either operand is |
| Js.Every | src/components/Register.tsx:27 | definition of `every(Boolean)`; specified by `Js.EveryIff` |
| Js.EveryIff | src/components/Register.tsx:27 | `every(Boolean)` holds exactly when every element is true |
| Js.Utf16Length | src/components/Register.tsx:20 | `password.length`: one code unit per character up to U+FFFF and two above, so between the number of characters and twice it |
| Js.Utf16LengthOfBmp | src/components/Register.tsx:20 | for characters up to U+FFFF, such as ASCII, the code units are the characters |
| Js.Utf16LengthAppend | src/components/Register.tsx:20 | the code units of a concatenation add up |
| Js.SliceTo | src/components/InspectionForm/MultiFileUpload.tsx:18 | `slice(0, end)` is a prefix; its length is `end` capped at the length, and for a negative `end` it is the length plus `end`, floored at 0 |
| Js.NatToString | src/components/InspectionForm/InspectionForm.tsx:30 | `${n}` is a non-empty string of decimal digits, with no leading zero unless it is "0" |
| Js.NatToStringRoundTrip | src/components/InspectionForm/InspectionForm.tsx:30 | reading the rendered digits back yields the number |
| Js.NatToStringInjective | src/components/InspectionForm/InspectionForm.tsx:30 | distinct numbers render as distinct strings |
| StoragePath.Extension | src/components/InspectionForm/InspectionForm.tsx:29 | definition of `file.name.split('.').pop()`; specified by `StoragePath.ExtensionIsSuffix`, `StoragePath.ExtensionIsLastSegment` and `StoragePath.ExtensionAfterDot` |
| StoragePath.ExtensionIsSuffix | src/components/InspectionForm/InspectionForm.tsx:29 | `split('.').pop()` is a suffix of the name and contains no '.' |
| StoragePath.ExtensionIsLastSegment | src/components/InspectionForm/InspectionForm.tsx:29 | the extension is either the whole name or the text right after a '.'; a name without a '.' is its own extension |
| StoragePath.ExtensionAfterDot | src/components/InspectionForm/InspectionForm.tsx:29 | whatever precedes the last '.', the extension is the text after it |
| StoragePath.TagText | src/components/InspectionForm/InspectionForm.tsx:49 | definition of the tag: a fixed name per slot (lines 140-205), `${basePath}_${i}` for list entries; specified by `Submission.UploadFilesCalls` |
| StoragePath.FileName | src/components/InspectionForm/InspectionForm.tsx:30 | definition of `${path}_${Date.now()}.${fileExt}`; specified by `StoragePath.PathKeepsExtension` and `StoragePath.PathTimestampInjective` |
| StoragePath.Path | src/components/InspectionForm/InspectionForm.tsx:30-31 | every stored path starts with the user's id and '/' |
| StoragePath.PathKeepsExtension | src/components/InspectionForm/InspectionForm.tsx:29-31 | the stored path has the same extension as the picked file |
| StoragePath.PathTimestampInjective | src/components/InspectionForm/InspectionForm.tsx:30 | the same file under the same tag lands on the same path only for the same clock reading |
| Backend.Client.constructor | src/components/InspectionForm/InspectionForm.tsx:33-41 | a new client has the given oracle and has issued no call |
| Backend.Client.Now | src/components/InspectionForm/InspectionForm.tsx:30 | `Date.now()` is the oracle's clock at the current history |
| Backend.Client.Upload | src/components/InspectionForm/InspectionForm.tsx:33-37 | an upload appends exactly one call to the history, and it fails as the oracle answers for the extended history |
| Backend.Client.GetPublicUrl | src/components/InspectionForm/InspectionForm.tsx:39-43 | the public URL depends on the object key alone, and no call is recorded |
| Backend.Client.Insert | src/components/InspectionForm/InspectionForm.tsx:122-138 | an insert appends exactly one call to the history, and its reply is the oracle's answer for the extended history |
| Submission.UploadFile | src/components/InspectionForm/InspectionForm.tsx:28-44 | definition; specified by `Submission.UploadFileFacts` |
| Submission.UploadSlot | src/components/InspectionForm/InspectionForm.tsx:140-142 | definition of `slot ? await uploadFile(slot, tag) : ''`; specified by `Submission.UploadSlotFacts` |
| Submission.UploadSlots | src/components/InspectionForm/InspectionForm.tsx:140-142 | definition of a section's single-file slots run one after the other; specified by `Submission.UploadSlotsSegment`, `Submission.UploadSlotsShape` and `Submission.UploadSlotsValues` |
| Submission.UploadFiles | src/components/InspectionForm/InspectionForm.tsx:46-53 | definition of `uploadFiles` after k iterations; specified by `Submission.UploadFilesLength`, `Submission.UploadFilesCalls`, `Submission.UploadFilesUrls`, `Submission.UploadFilesSegment` and `Submission.UploadFilesShape` |
| Submission.SectionFor | src/components/InspectionForm/InspectionForm.tsx:140-205 | definition of each section's slots with their tags, and its optional list with its base tag; used by `Submission.SectionStepShape` and `Submission.SectionStepRows` |
| Submission.MakeRow | src/components/InspectionForm/InspectionForm.tsx:145-214 | definition of the six dependent rows; specified by `Submission.MakeRowFills` |
| Submission.SectionStep | src/components/InspectionForm/InspectionForm.tsx:140-214 | definition of one section; specified by `Submission.SectionStepSegment`, `Submission.SectionStepShape` and `Submission.SectionStepRows` |
| Submission.RunSections | src/components/InspectionForm/InspectionForm.tsx:140-216 | definition of the six sections in order; specified by `Submission.RunSectionsFacts` |
| Submission.ParentRow | src/components/InspectionForm/InspectionForm.tsx:124-134 | definition of the parent row; specified by `Submission.SubmitStartsWithParent` |
| Submission.Submit | src/components/InspectionForm/InspectionForm.tsx:115-216 | definition of the calls of `handleSubmit`; specified by `Submission.SubmitShape`, `Submission.SubmitCompletesIff`, `Submission.SubmitCompletedRun` and the other `Submission.Submit*` lemmas |
| Submission.UploadFileFacts | src/components/InspectionForm/InspectionForm.tsx:28-44 | one upload under the user's folder, the given tag, the current clock reading and the file's name; the upload throws exactly when the storage reports an error; otherwise the result is that key's public URL |
| Submission.UploadSlotFacts | src/components/InspectionForm/InspectionForm.tsx:140-142 | an empty slot issues no call and yields the placeholder; a filled slot issues one upload; no error means the slot got a URL exactly when it holds a file |
| Submission.UploadSlotsSegment | src/components/InspectionForm/InspectionForm.tsx:140-142 | the slots of a section succeed exactly when none of their uploads failed, and they stop at the first failure |
| Submission.UploadSlotsShape | src/components/InspectionForm/InspectionForm.tsx:140-142 | the slots upload the present files, in slot order, with nothing else between them; a run that stops early issues a prefix of those uploads |
| Submission.UploadSlotsValues | src/components/InspectionForm/InspectionForm.tsx:140-142 | a successful run yields one result per slot, in order, missing exactly for the empty slots |
| Submission.UploadFilesLength | src/components/InspectionForm/InspectionForm.tsx:46-53 | `uploadFiles` issues at most one call per file, and on success exactly one call and one URL per file |
| Submission.UploadFilesCalls | src/components/InspectionForm/InspectionForm.tsx:46-53 | the j-th upload of `uploadFiles` stores files[j] under the tag `${base}_${j}` with the clock reading taken before it |
| Submission.UploadFilesUrls | src/components/InspectionForm/InspectionForm.tsx:46-53 | on success, URL j is the public URL of the j-th upload's key, so the URLs follow the list order |
| Submission.UploadFilesSegment | src/components/InspectionForm/InspectionForm.tsx:46-53 | `uploadFiles` succeeds exactly when none of its uploads failed, and the first failure stops the loop |
| Submission.UploadFilesShape | src/components/InspectionForm/InspectionForm.tsx:46-53 | `uploadFiles` uploads the files in list order and nothing else; an early stop issues a prefix of those uploads |
| Submission.UploadFilesStaysFailed | src/components/InspectionForm/InspectionForm.tsx:48-50 | once an iteration has thrown, later iterations change neither the calls nor the result |
| Submission.MakeRowFills | src/components/InspectionForm/InspectionForm.tsx:145-214 | a dependent row references the parent's id; an absent required photo is stored as '' and an absent class report as null; an empty class name is stored as null; there is one URL per optional or previous-certificate file |
| Submission.SectionStepSegment | src/components/InspectionForm/InspectionForm.tsx:140-214 | a section succeeds exactly when none of its uploads failed |
| Submission.SectionStepShape | src/components/InspectionForm/InspectionForm.tsx:140-214 | a section uploads its present single files, then its list, then inserts its row, and issues nothing else |
| Submission.SectionStepRows | src/components/InspectionForm/InspectionForm.tsx:145-214 | every row a section inserts fills its columns as `MakeRowFills` states |
| Submission.RunSectionsFacts | src/components/InspectionForm/InspectionForm.tsx:140-216 | the sections run in order and stop at the first upload error; a completed run issues exactly each section's uploads and insert in order; every dependent row fills correctly |
| Submission.SubmitStartsWithParent | src/components/InspectionForm/InspectionForm.tsx:116-138 | without a user, nothing is issued and nothing completes; with one, the first call is the parent insert of the page-1 fields, with status "draft" exactly for Save Draft; a failed parent insert ends the run with no further call |
| Submission.SubmitShape | src/components/InspectionForm/InspectionForm.tsx:115-216 | the calls are always a prefix of the expected sequence (parent insert, then each section's uploads and insert); a completed run issues all of it |
| Submission.SubmitCompletesIff | src/components/InspectionForm/InspectionForm.tsx:115-222 | `onComplete` is called exactly when the parent insert succeeded and no upload failed; otherwise the run ended at a failed parent insert or right after a failed upload |
| Submission.SubmitCompletesWhenBackendAccepts | src/components/InspectionForm/InspectionForm.tsx:115-216 | with a user, an accepted parent insert and storage that never fails, the submit completes |
| Submission.SubmitDependentRows | src/components/InspectionForm/InspectionForm.tsx:140-214 | after an accepted parent insert, every later insert references the returned id and fills its columns correctly |
| Submission.SubmitCompletedRun | src/components/InspectionForm/InspectionForm.tsx:202-216 | a completed run inserted into the seven tables in the fixed order, and its last call was the reports insert for the parent's id, right before `onComplete` |
| Submission.SubmitTablesInOrder | src/components/InspectionForm/InspectionForm.tsx:122-214 | in every run, the tables inserted into are a prefix of the fixed table order |
| Submission.UploadSlotsIgnoreReplies | src/components/InspectionForm/InspectionForm.tsx:140-142 | slot uploads depend only on storage and the clock, not on insert replies |
| Submission.UploadFilesIgnoreReplies | src/components/InspectionForm/InspectionForm.tsx:46-53 | `uploadFiles` depends only on storage and the clock, not on insert replies |
| Submission.RunSectionsIgnoreReplies | src/components/InspectionForm/InspectionForm.tsx:145-214 | the replies to the six section inserts have no effect on the run |
| Submission.SubmitIgnoresDependentReplies | src/components/InspectionForm/InspectionForm.tsx:145-214 | changing every insert reply except the parent's changes neither the calls nor the completion: a dependent insert's error goes unnoticed |
| InspectionForm.Merge | src/components/InspectionForm/InspectionForm.tsx:24-26 | definition of `{ ...prev, ...data }`; specified by `InspectionForm.MergeField`, `InspectionForm.MergeIsShallow` and `InspectionForm.MergeEmpty` |
| InspectionForm.MergeField | src/components/InspectionForm/InspectionForm.tsx:24-26 | after `{ ...prev, ...data }`, a field named in the update takes its value, and any other field keeps the old one |
| InspectionForm.MergeIsShallow | src/components/InspectionForm/InspectionForm.tsx:24-26 | the rule of `MergeField` holds for all 31 fields at once |
| InspectionForm.MergeEmpty | src/components/InspectionForm/InspectionForm.tsx:24-26 | an empty update leaves the record unchanged |
| InspectionForm.FileJs | src/components/InspectionForm/InspectionForm.tsx:69-82 | a file slot is truthy exactly when it holds a file |
| InspectionForm.ValidatePage1 | src/components/InspectionForm/InspectionForm.tsx:55-65 | definition; specified by `InspectionForm.ValidatePage1Iff` |
| InspectionForm.ValidatePage2 | src/components/InspectionForm/InspectionForm.tsx:67-84 | definition; specified by `InspectionForm.ValidatePage2Iff` |
| InspectionForm.ValidatePage3 | src/components/InspectionForm/InspectionForm.tsx:86-92 | definition; specified by `InspectionForm.ValidatePage3Iff` |
| InspectionForm.ValidatePage1Iff | src/components/InspectionForm/InspectionForm.tsx:55-65 | page 1 validates exactly when all six text fields are non-empty and a make is picked |
| InspectionForm.ValidatePage2Iff | src/components/InspectionForm/InspectionForm.tsx:67-84 | page 2 validates exactly when the serial number is filled in and all thirteen required photos are picked; the optional lists play no part |
| InspectionForm.ValidatePage3Iff | src/components/InspectionForm/InspectionForm.tsx:86-92 | page 3 validates exactly when both reports are picked and either the class report or the class name is given |
| InspectionForm.CanProceed | src/components/InspectionForm/InspectionForm.tsx:94-99 | outside pages 1 to 3 the answer is `false` |
| InspectionForm.CanProceedIff | src/components/InspectionForm/InspectionForm.tsx:94-99 | the wizard can proceed exactly from a complete page 1, 2 or 3 |
| InspectionForm.NextPage | src/components/InspectionForm/InspectionForm.tsx:101-106 | definition of the page after `handleNext`; specified by `InspectionForm.NextPageIff` and `InspectionForm.NavigationStaysInRange` |
| InspectionForm.PreviousPage | src/components/InspectionForm/InspectionForm.tsx:108-113 | definition of the page after `handlePrevious`; specified by `InspectionForm.NavigationStaysInRange` and `InspectionForm.ButtonsIff` |
| InspectionForm.NextPageIff | src/components/InspectionForm/InspectionForm.tsx:101-106 | Next advances by exactly one page precisely from a complete page 1 or 2, and otherwise leaves the page unchanged |
| InspectionForm.NavigationStaysInRange | src/components/InspectionForm/InspectionForm.tsx:101-113 | from any of the three pages, Next and Previous stay within pages 1 to 3 |
| InspectionForm.PreviousDisabled | src/components/InspectionForm/InspectionForm.tsx:264 | definition; specified by `InspectionForm.ButtonsIff` |
| InspectionForm.NextShown | src/components/InspectionForm/InspectionForm.tsx:296 | definition; specified by `InspectionForm.ButtonsIff` |
| InspectionForm.NextDisabled | src/components/InspectionForm/InspectionForm.tsx:300 | definition; specified by `InspectionForm.ButtonsIff` |
| InspectionForm.SubmitShown | src/components/InspectionForm/InspectionForm.tsx:272 | definition; specified by `InspectionForm.ButtonsIff` |
| InspectionForm.SubmitDisabled | src/components/InspectionForm/InspectionForm.tsx:277-287 | definition, shared by Save Draft and Submit; specified by `InspectionForm.ButtonsIff` |
| InspectionForm.ButtonsIff | src/components/InspectionForm/InspectionForm.tsx:260-306 | Next is shown and enabled exactly when it would advance; Save Draft and Submit can be pressed exactly on page 3, while idle, with page 3 complete; Next and the submit buttons never share a page; Previous is disabled exactly where it would not move |
| InspectionForm.Wizard.constructor | src/components/InspectionForm/InspectionForm.tsx:16-19 | a new wizard is on page 1 with the initial record, not loading and with no error |
| InspectionForm.Wizard.UpdateFormData | src/components/InspectionForm/InspectionForm.tsx:24-26 | the record becomes the shallow merge of the update into it, and nothing else changes |
| InspectionForm.Wizard.HandleNext | src/components/InspectionForm/InspectionForm.tsx:101-106 | the page becomes `NextPage` of the old page, and the page stays within 1 to 3 |
| InspectionForm.Wizard.HandlePrevious | src/components/InspectionForm/InspectionForm.tsx:108-113 | the page becomes `PreviousPage` of the old page, and the page stays within 1 to 3 |
| InspectionForm.Wizard.UploadFile | src/components/InspectionForm/InspectionForm.tsx:28-44 | the calls issued and the result are those of `Submission.UploadFile` |
| InspectionForm.Wizard.UploadFiles | src/components/InspectionForm/InspectionForm.tsx:46-53 | the loop issues exactly the calls of `Submission.UploadFiles` over all files, and returns its result |
| InspectionForm.Wizard.UploadSlot | src/components/InspectionForm/InspectionForm.tsx:140-142 | an upload when the slot holds a file, the placeholder otherwise, as `Submission.UploadSlot` |
| InspectionForm.Wizard.SubmitDauPhotos | src/components/InspectionForm/InspectionForm.tsx:140-152 | the DAU section issues exactly the calls of its `Submission.SectionStep` and reports whether it got through |
| InspectionForm.Wizard.SubmitFixedCapsule | src/components/InspectionForm/InspectionForm.tsx:154-165 | the same for the fixed-capsule section |
| InspectionForm.Wizard.SubmitFloatFree | src/components/InspectionForm/InspectionForm.tsx:167-180 | the same for the float-free section |
| InspectionForm.Wizard.SubmitBcpDisplay | src/components/InspectionForm/InspectionForm.tsx:182-189 | the same for the BCP section |
| InspectionForm.Wizard.SubmitVideoInterface | src/components/InspectionForm/InspectionForm.tsx:191-200 | the same for the video-interface section |
| InspectionForm.Wizard.SubmitReports | src/components/InspectionForm/InspectionForm.tsx:202-214 | the same for the reports section |
| InspectionForm.Wizard.SubmitSections | src/components/InspectionForm/InspectionForm.tsx:140-216 | the six sections run in order and issue exactly the calls of `Submission.RunSections`; the result says whether all got through |
| InspectionForm.Wizard.Fail | src/components/InspectionForm/InspectionForm.tsx:217-222 | the catch sets the failure message, and the finally ends loading |
| InspectionForm.Wizard.HandleSubmit | src/components/InspectionForm/InspectionForm.tsx:115-223 | `handleSubmit` issues exactly the calls of `Submission.Submit` and calls `onComplete` exactly when it completes; without a user nothing changes; with one, loading ends false and the failure message is shown exactly when the run stopped early; the page and the record are unchanged |
| Register.Test | src/components/Register.tsx:21-24 | definition of a one-class `regex.test`; specified by `Register.TestIff` |
| Register.PasswordRequirements | src/components/Register.tsx:19-25 | definition; specified by `Register.IsPasswordValidIff` |
| Register.IsPasswordValid | src/components/Register.tsx:27 | definition; specified by `Register.IsPasswordValidIff` |
| Register.TestIff | src/components/Register.tsx:21-24 | a one-class regex test succeeds exactly when some character of the password is in the class |
| Register.IsPasswordValidIff | src/components/Register.tsx:19-27 | a password is valid exactly when `password.length` (its UTF-16 code units) is at least 8 and it has an upper-case letter, a lower-case letter, a digit and one of the special characters |
| Register.ValidExample | src/components/Register.tsx:19-27 | "Abcdef1!" meets every requirement |
| Register.ShortExample | src/components/Register.tsx:20 | a password of 7 ASCII characters is rejected, even with every character class present |
| Register.AstralExample | src/components/Register.tsx:20 | the length counts UTF-16 code units: "Aa1!" followed by two characters above U+FFFF is 8 units long and is accepted |
| Register.SubmitDisabled | src/components/Register.tsx:152 | definition; specified by `Register.SubmitEnabledIff` |
| Register.ShowRequirements | src/components/Register.tsx:131 | definition; specified by `Register.SubmitEnabledIff` |
| Register.SubmitEnabledIff | src/components/Register.tsx:131-152 | the button is enabled exactly when idle with a valid password (at least 8 UTF-16 code units and all four classes); the requirements panel is shown exactly for a non-empty password, and so always for a valid one |
| Register.AuthService.constructor | src/components/Register.tsx:40 | the service starts with no requests |
| Register.AuthService.SignUp | src/components/Register.tsx:40 | `signUp` records exactly one request and returns the service's answer |
| Register.RegisterForm.constructor | src/components/Register.tsx:11-17 | the form starts with empty fields, the password hidden, no error and idle |
| Register.RegisterForm.SetPassword | src/components/Register.tsx:14 | typing replaces the password and nothing else |
| Register.RegisterForm.ToggleShowPassword | src/components/Register.tsx:122-123 | the eye button flips the visibility and nothing else |
| Register.RegisterForm.HandleSubmit | src/components/Register.tsx:29-47 | an invalid password sets the requirements message, sends nothing and leaves loading alone; a valid one sends exactly one request with the four fields, shows the service's error message or clears the error, and ends idle |
| MultiFileUpload.HandleFileChange | src/components/InspectionForm/MultiFileUpload.tsx:15-27 | when `onChange` is called, the new list extends the old one by a non-empty prefix of the selection |
| MultiFileUpload.HandleFileChangeWithinCapacity | src/components/InspectionForm/MultiFileUpload.tsx:15-27 | within capacity: `onChange` is called exactly when there is room and something was picked; the result is the old list plus as many picked files as fit, in picking order; it never exceeds `maxFiles` |
| MultiFileUpload.FullListIgnoresSelection | src/components/InspectionForm/MultiFileUpload.tsx:17-22 | a full list never calls `onChange` |
| MultiFileUpload.OverCapacityStillAppends | src/components/InspectionForm/MultiFileUpload.tsx:17-21 | past capacity, the negative slice end counts from the back: 4 files with capacity 3 still take 2 of 3 picked files |
| MultiFileUpload.SelectedFiles | src/components/InspectionForm/MultiFileUpload.tsx:16 | definition: the picked files, an absent file list counting as empty; used by `MultiFileUpload.EditsStayWithinCapacity` |
| MultiFileUpload.FilterIndex | src/components/InspectionForm/MultiFileUpload.tsx:30 | definition; specified by `MultiFileUpload.FilterIndexSpec` |
| MultiFileUpload.HandleRemove | src/components/InspectionForm/MultiFileUpload.tsx:29-31 | definition; specified by `MultiFileUpload.HandleRemoveSpec` |
| MultiFileUpload.FilterIndexSpec | src/components/InspectionForm/MultiFileUpload.tsx:30 | the filter drops exactly the entry at the given position, counted from the offset, and keeps the rest in order |
| MultiFileUpload.HandleRemoveSpec | src/components/InspectionForm/MultiFileUpload.tsx:29-31 | removing a valid position drops exactly that entry and shortens the list by one; any other index leaves the list unchanged |
| MultiFileUpload.CanAddMore | src/components/InspectionForm/MultiFileUpload.tsx:33 | definition; specified by `MultiFileUpload.CanAddMoreIff` |
| MultiFileUpload.CanAddMoreIff | src/components/InspectionForm/MultiFileUpload.tsx:33 | within capacity, the add area is shown exactly when a picked file would be added |
| MultiFileUpload.Apply | src/components/InspectionForm/MultiFileUpload.tsx:15-31 | definition of the list after one selection or removal; specified by `MultiFileUpload.EditsStayWithinCapacity` |
| MultiFileUpload.EditsStayWithinCapacity | src/components/InspectionForm/MultiFileUpload.tsx:15-33 | starting within capacity, no sequence of selections and removals takes the list past `maxFiles`, so a negative slice end never occurs in use |
| FileUpload.FirstSelected | src/components/InspectionForm/FileUpload.tsx:16 | definition; specified by `FileUpload.ApplySpec` |
| FileUpload.OnChangeValue | src/components/InspectionForm/FileUpload.tsx:15-27 | definition of what each handler passes to `onChange`; specified by `FileUpload.ApplySpec` |
| FileUpload.Apply | src/components/InspectionForm/FileUpload.tsx:15-27 | definition; specified by `FileUpload.ApplySpec` |
| FileUpload.ApplySpec | src/components/InspectionForm/FileUpload.tsx:15-27 | a non-empty selection calls `onChange` with its first file, which fills the slot; a missing or empty selection does not call `onChange` and leaves the slot unchanged; removal calls `onChange` with null and empties the slot |
| FileUpload.ShowsPicker | src/components/InspectionForm/FileUpload.tsx:35 | definition; specified by `FileUpload.DisplaySpec` |
| FileUpload.NativeRequired | src/components/InspectionForm/FileUpload.tsx:71 | definition; specified by `FileUpload.DisplaySpec` |
| FileUpload.AcceptHint | src/components/InspectionForm/FileUpload.tsx:43 | definition; specified by `FileUpload.DisplaySpec` |
| FileUpload.DisplaySpec | src/components/InspectionForm/FileUpload.tsx:12-71 | the native `required` is set exactly for a required, empty slot, so it returns after a removal and clears after a selection; the hint reads "PDF files only" exactly for `application/pdf` and "Image files only" otherwise, including the default `image/*` |
| App.AppView | src/App.tsx:11-27 | definition; specified by `App.AppViewIff` |
| App.AppViewIff | src/App.tsx:11-27 | the spinner shows exactly while the session loads; with no user, the sign-up or sign-in screen as toggled; the dashboard exactly for a signed-in user |
| App.AppContent.constructor | src/App.tsx:9 | a visitor first sees the sign-in screen |
| App.AppContent.ToggleFromLogin | src/App.tsx:23 | the sign-in screen's link switches to the sign-up screen |
| App.AppContent.ToggleFromRegister | src/App.tsx:21 | the sign-up screen's link switches back to the sign-in screen |
| Dashboard.StatusColor | src/components/Dashboard.tsx:42-53 | definition; specified by `Dashboard.StatusColorSpec` |
| Dashboard.StatusColorSpec | src/components/Dashboard.tsx:42-53 | drafts are yellow, submitted inspections blue, reviewed ones green, anything else gray; the three statuses get three distinct colours, none of them gray |
| Dashboard.CardOf | src/components/Dashboard.tsx:122-168 | definition of what a card shows; used by `Dashboard.DashboardScreenSpec` |
| Dashboard.DashboardScreen | src/components/Dashboard.tsx:38-122 | definition; specified by `Dashboard.DashboardScreenSpec` |
| Dashboard.DashboardScreenSpec | src/components/Dashboard.tsx:38-122 | the wizard replaces the dashboard; otherwise the spinner shows while loading, the empty state when there are no rows, and else one card per inspection in loaded order |
| Dashboard.AfterLoad | src/components/Dashboard.tsx:17-31 | definition; specified by `Dashboard.LoadedScreen` |
| Dashboard.LoadedScreen | src/components/Dashboard.tsx:17-31 | after a successful load the screen shows exactly the rows returned, a null answer counting as none; after an error it shows what it showed before |
| Dashboard.DashboardState.constructor | src/components/Dashboard.tsx:9-11 | on the first render there are no rows, loading is on and the spinner shows |
| Dashboard.DashboardState.LoadInspections | src/components/Dashboard.tsx:17-31 | the list is replaced by the returned rows on success and kept on error; loading always ends |
| Dashboard.DashboardState.HandleCompleteForm | src/components/Dashboard.tsx:33-36 | finishing the wizard returns to the list and reloads it |
| Dashboard.DashboardState.NewInspection | src/components/Dashboard.tsx:94-118 | both New Inspection and Create First Inspection open the wizard and change nothing else |

## Left out

- Asynchrony: every `await` is modelled as a sequential call. A second submit started while one is running is not modelled; the disabled buttons prevent it.
- `Date.now()` and the service replies are oracle functions of the call history (the oracle is described above). Locale date formatting on the dashboard cards (src/components/Dashboard.tsx:151,156) is not modelled.
- Calls record the structured key the path is rendered from. `StoragePath.Path` renders that key. Public URLs are oracle functions of the key.
- The parent insert's `.select().single()` answer is either a row id or an error. A reply with neither is not modelled.
- Floating point: the progress bar percentage (src/components/InspectionForm/InspectionForm.tsx:22,244) and the file sizes in KB (src/components/InspectionForm/FileUpload.tsx:52, src/components/InspectionForm/MultiFileUpload.tsx:51) are display only and not modelled.
- DOM effects are not modelled: `window.scrollTo` on navigation, resetting the file input's `value`, opening the file dialog, and `console.error`. The browser's own form validation is not modelled either; only the `required` attribute's value is.
- Register.RegisterForm: fields other than the password are set by plain input handlers that are not modelled. `e.preventDefault()` is not modelled.
- The authentication context, the sign-in screen, sign-out and profile loading are not part of this model. The user and the session-loading flag are inputs. The sign-up service is an `AuthService` object with a fixed reply function.
- src/lib/supabase.ts is not part of this model, except that `Dashboard.Inspection` mirrors its `Inspection` row type.
- Dashboard: the server sorts the query by `created_at` descending. The model takes the reply in whatever order it arrives, and the dashboard keeps that order.
- The three wizard pages are rendered by Page1/2/3, which are not modelled. What is kept from them: the make options (`FormTypes.VdrMakes`), the list capacities 3 for the optional photos and 2 for previous certificates (`FormTypes.OptionalPhotoLimit`, `FormTypes.PreviousCocLimit`), and the fact that each picker writes its field through `updateFormData`.
- FormTypes.InitialFormData: the initial record is a module-level constant in the source, so its date is read once, when the module loads, and every wizard opened in that session starts with the same date. The model passes the timestamp to each new wizard, which covers that case and more.
- FileUpload: an absent `required` prop is modelled as `false`, which is how the component treats it.
- Submission.MakeRowFills: the contract states the placeholders for absent files, the nullable columns and the list lengths. It does not state that each present required photo's column holds the public URL of its own upload. `Submission.UploadFilesUrls` states this for the list entries.
- InspectionForm.Wizard.UpdateFormData: the model merges into the current record. React's functional update, which merges into the latest pending state, is the same thing for sequential updates. A lemma about two merges composing into one is not included.
