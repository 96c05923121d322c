# AnYa Meds: a verified model of the diagnosis and provider core

AnYa Meds is a Next.js front end for medical image triage. It has three parts.

- **Classifier script.** A Python script labels a chest X-ray in one of two ways:
  - the four-class COVID model, with a Grad-CAM++ overlay;
  - the fifteen-label NIH model, which keeps findings scoring at least 0.4, highest first.
- **Diagnosis wizards.** Four pages (chest, brain, skin, general) walk a doctor through four steps:
  - patient record;
  - image upload;
  - analysis;
  - results.
- **Provider API.** Route handlers for:
  - doctor signup;
  - a login route;
  - the NextAuth credentials sign-in;
  - the doctor's own patient list;
  - an in-memory case list.

This project models that core in Dafny and proves what each part promises.

| file | module | what it models |
|---|---|---|
| common.dfy | `Common` | JavaScript truthiness, `trim`, the `\s` class, ASCII `toLowerCase`, `includes` |
| sorting.dfy | `Sorting` | Python's stable descending sort by a key: an insertion sort on an array, proved against a functional specification |
| predict.dfy | `Predict` | label sets, threshold, `predict_nih`, `predict_covid`, and the `__main__` block with its JSON output and exit status |
| store.dfy | `Store` | MongoDB object ids as strings, and bcrypt `hash`/`compare` as an idealised digest |
| signup.dfy | `Signup` | `POST /api/signup` over the `doctors` collection (a class whose map the route updates) |
| login.dfy | `Login` | `POST /api/login` over the `users` collection |
| auth.dfy | `Auth` | NextAuth `authorize`, and the `jwt` and `session` callbacks that update the token and session objects in place |
| patients.dfy | `Patients` | `GET` and `POST /api/provider/patients`, scoped to the session's doctor |
| cases.dfy | `Cases` | the shared `cases` array and `POST /api/provider/cases` |
| wizard.dfy | `Wizard` | the state of a diagnosis page and its handlers: validation, field edits, drop, start analysis, reset |
| report.dfy | `Report` | the results step: confidence band, report file name, the brain report's clinical note |

## Modelling choices

**The four wizard pages.** These are near-copies. One class, `Wizard.DiagnosisWizard`, models them all, and its `variant` field selects what differs between pages:
- the form fields;
- the name of the date field;
- the size limit (20 MiB on the brain page, 10 MiB elsewhere);
- the messages.

The table cites the chest page. The same handlers sit in the other pages:

| handler | brain-diagnosis/page.tsx | skin-diagnosis/page.tsx | diagnosis/page.tsx |
|---|---|---|---|
| validation | 50-58 | 44-52 | 40-48 |
| field change | 60-65 | 54-59 | 50-55 |
| drop | 67-79 | 61-73 | 57-72 |
| start analysis | 94-138 | 87-131 | 86-134 |
| reset | 190-214 | 175-196 | 172-182 |

**Inputs instead of effects.** Network requests, the clock, random salts, generated object ids and object URLs are all parameters:
- the outcome of the `fetch` in `handleStartAnalysis` is the parameter `outcome`;
- a request body that is not JSON is `None`;
- the classifier's inference and its Grad-CAM++ rendering become `Stage` values, either `Raised(message)` or `Returned(value)`.

**Collections.**
- The `doctors` collection is a map keyed by the lower-cased e-mail, which is the key the routes look records up by.
- `users` and `patients` are sequences in insertion order.

**Login and sign-in read different collections.**
- `POST /api/login` reads the `users` collection.
- Signup writes to `doctors`, and the NextAuth sign-in reads `doctors`.
- The model keeps this as written. `Login.NoUsersRecordNoLogin` states the consequence: without a `users` record, login never succeeds.

## Model

| member | source | states |
|---|---|---|
| Common.TrimStart | src/app/chest-diagnosis/page.tsx:54-57 | the result is a suffix of the input that starts with a non-space, and everything removed was white space |
| Common.TrimEnd | src/app/chest-diagnosis/page.tsx:54-57 | the result is a prefix of the input that ends with a non-space, and everything removed was white space |
| Common.BlankIffAllWhitespace | src/app/chest-diagnosis/page.tsx:54-57 | a field fails the `!x.trim()` test exactly when every character is white space |
| Common.BlankIffTrimEmpty | src/app/chest-diagnosis/page.tsx:54-57 | the recursive blank test agrees with trimming to the empty string |
| Common.ToLower | src/app/api/signup/route.ts:42 | lower-casing keeps the length |
| Common.ToLowerIdempotent | src/app/api/signup/route.ts:57 | lower-casing a stored lower-cased address again changes nothing, so a lookup that lower-cases finds it |
| Common.Contains | src/app/chest-diagnosis/page.tsx:131 | `includes` is true exactly when the pattern occurs at some position |
| Sorting.SortDescSorted | src/app/python/predict.py:80 | the sort's output is in non-increasing key order |
| Sorting.SortDescPermutes | src/app/python/predict.py:80 | the sort's output is a permutation of its input |
| Sorting.SortDescStable | src/app/python/predict.py:80 | elements with equal keys keep their original relative order, as Python's stable sort does |
| Sorting.InsertDescSorted | src/app/python/predict.py:80 | inserting into a sorted list at the computed position keeps it sorted |
| Sorting.InsertDescPermutes | src/app/python/predict.py:80 | insertion adds exactly the one element |
| Sorting.InsertDescTies | src/app/python/predict.py:80 | insertion after all equal keys keeps ties in rank order |
| Sorting.HeadDominates | src/app/python/predict.py:80 | the head of a list sorted with ties in rank order scores at least as much as any element and comes first among equal scores |
| Sorting.InsertPosAt | src/app/python/predict.py:80 | the insertion point is the unique place after elements scoring at least x and before elements scoring less |
| Sorting.ShiftedIsInsert | src/app/python/predict.py:80 | a list that keeps the prefix, holds x at the insertion point and shifts the rest right is the insertion |
| Sorting.ShiftRight | src/app/python/predict.py:80 | the shifting loop moves every smaller-key element of the sorted prefix one place right and stops at the insertion point, touching nothing past it |
| Sorting.InsertInPlace | src/app/python/predict.py:80 | shifting within the array leaves the prefix equal to the functional insertion and the rest unchanged |
| Sorting.SortInPlace | src/app/python/predict.py:80 | the in-place sort leaves the array equal to the functional descending stable sort of its old contents |
| Predict.KeptFrom | src/app/python/predict.py:79 | every kept pair has its own label and score at or above 0.4, every such label is kept, and label order is kept |
| Predict.Kept | src/app/python/predict.py:79 | a pair is kept iff its score reaches the threshold; nothing is kept iff every score is below it; kept in label order |
| Predict.Argmax | src/app/python/predict.py:89-90 | the index holds a maximal probability and is the first such index |
| Predict.ArgmaxUnique | src/app/python/predict.py:89-90 | any index with the first-maximum property is the argmax |
| Predict.PredictCovid | src/app/python/predict.py:83-90 | the label and confidence are those of the first maximal class, and no class scores higher |
| Predict.PredictNih | src/app/python/predict.py:73-81 | the result is exactly the above-threshold pairs, sorted highest first with ties in label order |
| Predict.NihTopIsArgmax | src/app/python/predict.py:139-140 | when anything is kept, the first sorted pair is the label at the argmax of the whole vector |
| Predict.CovidOutcome | src/app/python/predict.py:116-132 | the argmax label and probability with all four probabilities and the heatmap path; a Grad-CAM failure becomes an error with exit status 1 |
| Predict.NihOutcome | src/app/python/predict.py:134-145 | exit 0 and all fifteen probabilities; "No Finding" with 0.0 iff nothing reaches 0.4, otherwise the argmax label and its score |
| Predict.RunScript | src/app/python/predict.py:110-150 | missing image and raised errors print an error with status 1; a result is printed only after inference succeeded, with one probability per label and a heatmap iff the COVID model is used |
| Store.ParseObjectId | src/app/api/provider/patients/route.ts:27 | `new ObjectId(s)` succeeds iff s is 24 hex digits, giving the lower-case canonical id |
| Store.ParseToString | src/lib/auth.ts:33 | parsing the string form of an id gives the same id back |
| Store.Hash | src/app/api/signup/route.ts:51 | the digest uses cost 10 and the given salt, and verifies the hashed password and no other |
| Signup.NewDoctor | src/app/api/signup/route.ts:54-67 | the stored record: lower-cased e-mail, the digest, `null` NPI iff none was given, unverified, created now |
| Signup.KeyedEmailsUnique | src/app/api/signup/route.ts:42-48 | in the collection keyed by address no two records share an address |
| Signup.DoctorStore.Signup | src/app/api/signup/route.ts:7-83 | 500 on an unparsable body; 400 on a missing field or short password; 409 on a known address; otherwise 201 with exactly one record added; the key invariant is kept |
| Signup.SignupAddsOne | src/app/api/signup/route.ts:70 | a successful signup adds one key and leaves every other record untouched |
| Signup.StoredPasswordVerifies | src/app/api/signup/route.ts:51-58 | the stored digest verifies the posted password and only it |
| Login.FindUser | src/app/api/login/route.ts:23 | the first document whose e-mail equals the address, or none when no document has it |
| Login.Compare | src/app/api/login/route.ts:33 | throws iff the stored password is missing or not a string; matches iff it is the digest of the posted password |
| Login.Login | src/app/api/login/route.ts:7-61 | 500 on an unparsable body, 400 on a missing field, 401 with one fixed message, and 200 only with a found record holding the matching digest, returned without its password |
| Login.UnknownAndWrongAlike | src/app/api/login/route.ts:25-40 | an unknown address and a wrong password get the identical 401 response |
| Login.LoginReturnsRecordWithoutPassword | src/app/api/login/route.ts:47-52 | a correct login returns every stored field except the password |
| Login.NoUsersRecordNoLogin | src/app/api/login/route.ts:20 | without a `users` record for the address, login never answers 200 |
| Auth.Authorize | src/lib/auth.ts:17-38 | on a collection keyed by address: a user iff credentials are given, a record exists under the lowered address and the password verifies; the user carries the record's id string, its e-mail (the lowered address), name and role |
| Auth.AuthorizeAfterSignup | src/lib/auth.ts:22-37 | a signup keeps the collection keyed; afterwards the new address signs in exactly with the posted password, and every other address answers as before |
| Auth.Jwt | src/lib/auth.ts:45-51 | at sign-in the token gets the user's id and role; otherwise it is unchanged; the same token is returned |
| Auth.SessionCallback | src/lib/auth.ts:52-58 | a session with a user gets the token's id and role on that user, nothing else changes, and the same session is returned |
| Auth.SignIn | src/lib/auth.ts:17-58 | a sign-in returns Authorize's answer and, on success, leaves the doctor's id and role on the session user |
| Patients.OwnedBy | src/app/api/provider/patients/route.ts:26-27 | exactly the patients whose doctor is the given one |
| Patients.OwnedByAppend | src/app/api/provider/patients/route.ts:75 | inserting a patient extends its doctor's selection by it and leaves others' selections alone |
| Patients.NewestFirst | src/app/api/provider/patients/route.ts:28 | the same patients, ordered by creation time, newest first |
| Patients.DoctorListing | src/app/api/provider/patients/route.ts:26-29 | exactly the doctor's patients, as a multiset, newest first |
| Patients.ListPatients | src/app/api/provider/patients/route.ts:12-36 | 401 without a session id, 500 when the id is not an ObjectId, otherwise the doctor's listing |
| Patients.Last6 | src/app/api/provider/patients/route.ts:63 | the last six characters, or the whole of a shorter string |
| Patients.NewPatient | src/app/api/provider/patients/route.ts:60-73 | the new document: the doctor link, the `p-` id, the given name and body part, defaults for the absent optional fields |
| Patients.PatientIdShape | src/app/api/provider/patients/route.ts:63 | the patient id is "p-" and the last six hex digits of the new id |
| Patients.PatientStore.Create | src/app/api/provider/patients/route.ts:39-85 | 401, 500, 400 and 500 in the route's order; 201 iff all checks pass, appending exactly the new document |
| Patients.CreatedPatientIsListed | src/app/api/provider/patients/route.ts:26-29 | a created patient appears in its doctor's listing |
| Patients.CreateKeepsOtherListings | src/app/api/provider/patients/route.ts:62 | creating a patient does not change any other doctor's listing |
| Cases.CaseStore.constructor | src/app/api/provider/cases/db.ts:4-23 | the array starts with the one seeded mock case |
| Cases.CaseStore.Post | src/app/api/provider/cases/route.ts:8-18 | a parsed body is appended and echoed with 201; an unparsable one gives 400 and no change; the seed stays first |
| Wizard.FailureMessage | src/app/chest-diagnosis/page.tsx:123-135 | a non-empty message; the server's error when it is truthy, the unknown-error text when it is not; for an exception, the connection message iff a TypeError mentions "Failed to fetch", the client-side error text otherwise |
| Wizard.ErrorsForKeys | src/app/chest-diagnosis/page.tsx:53-57 | a checked field has an error iff it is blank, and the error is that field's message |
| Wizard.ErrorsForStep | src/app/chest-diagnosis/page.tsx:53-57 | checking one more field adds its error iff it is blank |
| Wizard.ValidationErrorsExact | src/app/chest-diagnosis/page.tsx:52-60 | the error map has a key exactly for each blank required field, with its message |
| Wizard.EditClearsOnlyThatError | src/app/chest-diagnosis/page.tsx:62-67 | editing a field to a non-blank value removes that field's error and no other |
| Wizard.EmptyInfo | src/app/chest-diagnosis/page.tsx:352-373 | the reset record has every form field of the page, all empty |
| Wizard.EmptyInfoFailsValidation | src/app/chest-diagnosis/page.tsx:352-373 | a reset form fails validation on every required field |
| Wizard.RequiredAreFields | src/app/chest-diagnosis/page.tsx:30-42 | every required field is one of the page's record fields |
| Wizard.CollectErrors | src/app/chest-diagnosis/page.tsx:53-57 | the four checks build exactly the validation error map |
| Wizard.DiagnosisWizard.constructor | src/app/chest-diagnosis/page.tsx:25-50 | the page starts at step 1 with an empty record, no file, no errors and no analysis |
| Wizard.DiagnosisWizard.Validate | src/app/chest-diagnosis/page.tsx:52-60 | the error map becomes the validation map; the answer is whether it is empty |
| Wizard.DiagnosisWizard.ChangeField | src/app/chest-diagnosis/page.tsx:62-67 | the field takes the value; its error is emptied only if it was non-empty |
| Wizard.DiagnosisWizard.Drop | src/app/chest-diagnosis/page.tsx:69-81 | no file changes nothing; an oversized file sets the size error; otherwise the file and preview are taken and the page moves to step 2 |
| Wizard.DiagnosisWizard.BeginAnalysis | src/app/chest-diagnosis/page.tsx:95-107 | validation first, then the file check, each with its message; otherwise step 3 with the spinner on |
| Wizard.DiagnosisWizard.FinishAnalysis | src/app/chest-diagnosis/page.tsx:109-139 | success shows the analysis at step 4; failure sets the failure message and returns to step 2; the spinner is off |
| Wizard.DiagnosisWizard.StartAnalysis | src/app/chest-diagnosis/page.tsx:95-139 | the whole handler: either an error message with the step, analysis and spinner unchanged, or step 4 with the analysis, or step 2 with the failure message, the spinner off in both |
| Wizard.DiagnosisWizard.NewAnalysis | src/app/chest-diagnosis/page.tsx:352-373 | back to the starting state with the record emptied |
| Report.ConfidenceBand | src/app/chest-diagnosis/page.tsx:728-732 | high iff the confidence is at least 0.9, moderate iff it is in [0.7, 0.9), low otherwise or without an analysis |
| Report.BandMonotone | src/app/chest-diagnosis/page.tsx:728-732 | a higher confidence never gets a lower band |
| Report.ReplaceWhitespace | src/app/chest-diagnosis/page.tsx:349 | every white-space character becomes '_' and every other character stays |
| Report.FileNameStem | src/app/chest-diagnosis/page.tsx:349 | "patient" for an empty name; otherwise the name with each white-space character turned into '_' and every other character kept |
| Report.BandText | src/app/brain-diagnosis/page.tsx:576-580 | the sentence under the confidence bar opens with the words naming its band, followed by the page's advice |
| Report.BandTextDistinct | src/app/chest-diagnosis/page.tsx:728-732 | on any page, different bands show different sentences |
| Report.BlankNameKeepsUnderscores | src/app/chest-diagnosis/page.tsx:349 | a name made only of white space yields underscores, not "patient" |
| Report.StemsAgree | src/app/chest-diagnosis/page.tsx:349 | names that differ only between white space and '_' give the same file name |
| Report.ReportFileName | src/app/chest-diagnosis/page.tsx:349 | the name starts with the page's prefix and ends with its extension; between them is "patient" for an empty name, otherwise the name with '_' at each white-space position and every other character kept |
| Report.ClinicalNote | src/app/brain-diagnosis/page.tsx:173-175 | the neurosurgical note iff the label contains "Tumor", the routine note otherwise |

## Left out

- Image loading, preprocessing, the DenseNet121 networks, weight loading and the Grad-CAM++ computation are outside this model. Inference and the heatmap path are inputs that either raise or return.
- `round(x, 4)` on the printed probabilities and confidence: the model prints the exact values, because floating point is not modelled. Scores are `real`.
- Predict.RunScript: the image path is a fixed constant of the script. `useCovid` generalises the `USE_COVID_MODEL` constant, which is `true`, so both branches are covered.
- `sys.exit` and writing to standard output become the `status` and `printed` fields of the outcome.
- The network is outside this model. The awaited request of the wizards and the request bodies of the routes are inputs.
- Store.Hash: bcrypt is idealised as a collision-free digest. Its 72-byte truncation and its running time are not modelled.
- Login.Compare: a stored password string that is not a valid digest is treated as a non-match. bcryptjs may throw on some malformed 60-character strings, and that is left out.
- Common.ToLower: only ASCII letters are lower-cased. Unicode case mapping is left out.
- String lengths count characters, not UTF-16 code units.
- JSON body fields of non-string type are left out: a number or object where a string is expected would make the routes throw.
- Store.ParseObjectId: the 12-byte binary string form that `new ObjectId` also accepts is left out.
- Signup.KeyedEmailsUnique: requests are modelled one at a time. The signup route awaits `findOne`, then `bcrypt.hash`, and only then `insertOne`, and no unique index exists on `email`. Two concurrent signups with the same address can therefore both pass the 409 check and both be stored. The model, whose collection is a map keyed by address, does not capture that race.
- Failures to connect to the database are left out; they would give the routes' 500 answers.
- Patients.NewestFirst: MongoDB does not define the order of equal `createdAt` values. The model picks insertion order.
- The date type of `createdAt` is a number.
- `getServerSession` and the rest of NextAuth's plumbing (cookies, JWT signing, the credentials form) are outside this model. The session's user id is the `caller` input.
- Dropzone's file-type filter, `maxFiles` and the rejection handler are left out. Only the accepted list reaching `onDrop` is modelled.
- Creating and revoking object URLs is left out. The preview URL is an input.
- Rendering is left out:
  - JSX and the step indicator;
  - the heatmap toggle;
  - the PDF and text report bodies. Only the report's file name and the brain report's clinical note are modelled.
- The React state setters are modelled as immediate assignments. Batching, and the stale closure over `errors` in the change handler, are not modelled.
