# Pre-enrolment wizard: validation and orchestration model

A Dafny model of the pre-enrolment wizard of a school app (React Native).
The wizard has four screens. The student screen (`forms-aluno`) comes first,
then the maternal and paternal guardian screens (`forms-materno`,
`forms-paterno`). Last comes the observations screen (`forms-obs`), which has
two sub-steps and submits everything. The screens share one store
(`useFormStore`). The model lifts the rules these screens embed out of their
components and states them as pure functions:

- the per-field validators, as updates of a `field -> message` error map;
- the submit gates, the guardian toggle and the fixed-order missing-field list;
- the two observation sub-step validators with their ordered error lists;
- the submission: four POSTs in a fixed order, abort on the first failure,
  `null` for descriptions whose question was not answered "sim", and a store
  that is cleared only after full success;
- the store: four replace-only sections with a reset.

Modules, leaf first:

| module | file | models |
|---|---|---|
| `Wrappers` | wrappers.dfy | `Option`, for `undefined`/`null` and "no error" |
| `Seqs` | seqs.dfy | ordered selection (`Select`) and subsequences |
| `Text` | text.dfy | `trim`, `replace(/\D/g, '')`, and the date and e-mail regular expressions over `seq<char>` |
| `Masks` | masks.dfy | the mask arrays as data, and what a completely filled mask looks like |
| `ErrorMaps` | errormaps.dfy | the update shared by every field validator |
| `Store` | store.dfy | the shared store, its setters and `clearStore` |
| `Wizard` | wizard.dfy | routes, alerts, and the outcome of a screen action |
| `Debounce` | debounce.dfy | one debounced validator per screen |
| `StudentForm` | student.dfy | the student screen |
| `GuardianForm` | guardian.dfy | what the two guardian screens share |
| `MaternoForm`, `PaternoForm` | materno.dfy, paterno.dfy | each guardian screen's toggle and submit, bound to its store section and next route |
| `Observations` | observations.dfy | sub-step validation, the request bodies and the POST sequence |

Conventions:

- `\d` is ASCII `0`–`9`.
- "Blank" means `value.trim()` is empty. `trim` and `\s` use the ECMAScript
  whitespace and line-terminator set.
- "Falsy" for a string means the empty string.
- Each POST is an abstract reply: `Ok(id)` or `Failed(failure)`. A failure
  says whether the error came from the HTTP client, and carries the
  response's `message` (if any) and the error's own message.
- Navigation and dialogs become a pushed `Route` and an `Alert` value.

Behaviours of the code the model keeps:

- Dates are checked by pattern only, so `31/02/2024` and `29/02/2023` are
  accepted.
- Each screen has a single debounced validator shared by all of its fields.
  A call for one field cancels a waiting call for another field.
- Both guardian screens check the e-mail only when it is non-empty, and only
  while the section is active. The two screens behave identically.
- `/maes` and `/pais` are always posted. A store section is an object, so the
  `if (mae)` and `if (pai)` tests always hold. A section that was never
  written sends every field undefined.
- The blood-type picker offers seven values.
- The network calls start as soon as the second sub-step passes. No
  confirmation dialog comes first.
- A guardian record has twelve fields, including the house number. The POST
  bodies send eleven of them and leave the house number out.
- The student submit gate reads only the error map. A draft whose fields were
  never edited has no errors, so submitting it at once stores the all-empty
  record (`StudentForm.UntouchedDraftAdvances`).

The guardian submit gate can block without showing any alert. This happens
when a required field holds only whitespace and nothing else is wrong.
The gate counts the field as blank, but the missing-field list counts it as
present. `GuardianForm.SilentBlock` characterises exactly when this happens.

## Model

| member | source | states |
|---|---|---|
| `Text.BlankIffAllWhitespace` | app/forms-aluno.tsx:59 | `value.trim()` is empty exactly when every character is whitespace |
| `Text.StripNonDigits` | app/forms-aluno.tsx:65 | the result holds only ASCII digits, never lengthens the value, and keeps every digit of the value as often as it occurs |
| `Text.PunctuationIndependent` | app/forms-aluno.tsx:65 | inserting a non-digit anywhere leaves the digit count unchanged, so punctuation never affects the CPF/RG/CEP rules |
| `Text.BlankHasNoDigits` | app/forms-aluno.tsx:59-68 | a blank value has digit count 0, so a blank CPF, RG or CEP always fails its rule |
| `Text.DateShapedMeaning` | app/forms-aluno.tsx:71 | the date pattern holds exactly for ten characters with slashes at positions 2 and 5, digits elsewhere, day value 1–31 and month value 1–12, with any year |
| `Text.DatePatternExamples` | app/forms-aluno.tsx:71 | `31/02/2024`, `29/02/2023` and `30/02/2023` pass; `00/01/2020`, `12/13/2020` and values of the wrong length fail |
| `Text.EmailShapedIffPattern` | app/forms-materno.tsx:153 | the direct e-mail check accepts exactly the strings that split as local part, `@`, domain part, `.` and final part, each part non-empty and free of whitespace and `@` |
| `Text.EmailExampleAccepted` | app/forms-materno.tsx:153 | `ana@escola.br` passes |
| `Text.EmailExamplesRejected` | app/forms-materno.tsx:153 | `ana@escola` (no dot after the `@`) and `@escola.br` (no local part) fail |
| `Text.EmailWithSpaceFails` | app/forms-materno.tsx:153 | a leading space makes any address fail |
| `Masks.FilledDigitCount` | app/forms-paterno.tsx:35-83 | a completely filled mask whose separators are not digits holds exactly as many digits as the mask has digit slots |
| `Masks.MaskDigitSlots` | app/forms-paterno.tsx:35-83 | the CPF, RG, CEP, date and telephone masks have 11, 9, 8, 8 and 11 digit slots |
| `Masks.FilledMasksPassDigitRules` | app/forms-paterno.tsx:124-150 | a filled CPF, RG or CEP mask always has the 11, 9 or 8 digits its validator demands, and a filled telephone mask has 11 digits |
| `Masks.FilledDateMask` | app/forms-paterno.tsx:83 | a filled date mask passes the date rule exactly when its day is 01–31 and its month is 01–12 |
| `ErrorMaps.Revalidate` | app/forms-aluno.tsx:56-61 | the update changes only the edited field. A failed rule records its message. A passed rule removes the entry when the value is non-blank and keeps it when the value is blank |
| `Store.InitialIsCleared` | app/Store/useFormStore.ts:82-85 | the store starts with all four sections empty |
| `Store.SetAluno` | app/Store/useFormStore.ts:88 | `aluno` becomes exactly the given record; `mae`, `pai` and `observacoes` are unchanged |
| `Store.SetMae` | app/Store/useFormStore.ts:89 | `mae` becomes exactly the given record; the other three sections are unchanged |
| `Store.SetPai` | app/Store/useFormStore.ts:90 | `pai` becomes exactly the given record; the other three sections are unchanged |
| `Store.SetObservacoes` | app/Store/useFormStore.ts:91 | `observacoes` becomes exactly the given record; the other three sections are unchanged |
| `Store.SettersLastWriteWins` | app/Store/useFormStore.ts:88-91 | for every section, two writes equal the second write, and writing the same record twice equals writing it once |
| `Store.SettersCommute` | app/Store/useFormStore.ts:88-91 | setters on different sections commute |
| `Store.ClearStore` | app/Store/useFormStore.ts:94-99 | every section is empty afterwards |
| `Store.ClearForgets` | app/Store/useFormStore.ts:94-99 | clearing gives the initial store from any state |
| `Store.ClearIdempotent` | app/Store/useFormStore.ts:94-99 | clearing twice is clearing once |
| `Debounce.OnlyLastCallSurvives` | app/forms-aluno.tsx:55 | after a burst of calls to the one debounced validator, only the last call is waiting |
| `StudentForm.With` | app/forms-aluno.tsx:101-104 | an edit sets the edited field and leaves every other field as it was |
| `StudentForm.ValidateField` | app/forms-aluno.tsx:55-99 | only the edited field's entry changes. CPF errors ("CPF inválido") exactly when its digit count is not 11. RG errors ("RG inválido") exactly when its count is not 9. The birth date errors exactly when it is not `DD/MM/YYYY`. Pickers get "Selecione uma opção" and other text fields "Campo obrigatório", each exactly when blank. Birthplace and nationality can lose an error but never gain one |
| `StudentForm.ErrorsTrackLastEdits` | app/forms-aluno.tsx:55-104 | from the empty error map, after any sequence of validated edits, a field has an error exactly when its latest edited value fails its rule |
| `StudentForm.Flush` | app/forms-aluno.tsx:108 | with nothing waiting, the errors are unchanged. With a waiting edit, only that field's entry changes. For a non-optional field, the entry is present exactly when the value fails its rule |
| `StudentForm.BurstValidatesOnlyLastEdit` | app/forms-aluno.tsx:55-108 | flushing after a burst of edits validates only the last edit, whichever field the earlier edits changed |
| `StudentForm.BurstDropsCpfError` | app/forms-aluno.tsx:55-108 | an invalid CPF typed just before the name, in one burst, is never flagged |
| `StudentForm.Submit` | app/forms-aluno.tsx:106-118 | the screen advances to the maternal screen exactly when the error map is empty, and then writes the draft to `aluno`. Otherwise the store is untouched and the incomplete-form alert is shown |
| `StudentForm.SubmitIdempotent` | app/forms-aluno.tsx:110-112 | submitting the same draft twice leaves the store as one submit does |
| `StudentForm.UntouchedDraftAdvances` | app/forms-aluno.tsx:51-115 | the screen opens with an all-empty draft and no errors, and submitting it at once advances and stores the all-empty record |
| `StudentForm.ValidEditsAdvance` | app/forms-aluno.tsx:101-115 | a draft whose edited fields all last received acceptable values is stored on submit |
| `StudentForm.PickerOptionsSatisfyRule` | app/forms-aluno.tsx:205-312 | every option the sex, shift, blood-type and race pickers offer clears that picker's error; the placeholder value sets it |
| `GuardianForm.With` | app/forms-materno.tsx:177-183 | an edit sets the edited field and leaves every other field as it was |
| `GuardianForm.ValidateField` | app/forms-materno.tsx:112-175 | with the section inactive, the map is unchanged. When active: CPF, CEP and RG errors depend only on digit counts 11, 8 and 9, and the birth date only on its pattern. A non-empty e-mail errors exactly when it is malformed. An empty e-mail keeps any earlier e-mail error. Name, phone, work phone, profession and house number are flagged exactly when blank. Workplace and address never gain an error |
| `GuardianForm.RequiredFilled` | app/forms-materno.tsx:200-218 | true when the section is inactive; when active, true exactly when all nine required fields are non-blank, the address included |
| `GuardianForm.Missing` | app/forms-materno.tsx:232-242 | lists the required fields whose value is the empty string, in the fixed order, and no others |
| `GuardianForm.Labels` | app/forms-materno.tsx:233-241 | each listed field is shown by its label, in the same order |
| `GuardianForm.Gate` | app/forms-materno.tsx:223-277 | an inactive section skips validation. An active one passes exactly when the required check holds and no error is recorded. A blocked submit lists the missing fields, or else reports the recorded errors |
| `GuardianForm.SilentBlock` | app/forms-materno.tsx:229-273 | a blocked submit shows no alert exactly when no error is recorded, no required field is empty, and some required field is whitespace only |
| `GuardianForm.SilentBlockOnBlankAddress` | app/forms-materno.tsx:229-273 | an address of one space, with every other required field filled and no errors, blocks the submit without any alert |
| `GuardianForm.ToggleScreen` | app/forms-materno.tsx:185-191 | the toggle flips the section. Switching off resets the draft to all-empty and clears the errors. Switching on keeps both |
| `GuardianForm.Edit` | app/forms-materno.tsx:177-183 | an edit sets the field and keeps the other eleven draft fields. An inactive section keeps its error map. An active one changes only the edited field's entry, as the validator decides. The toggle is unchanged |
| `MaternoForm.Toggle` | app/forms-materno.tsx:185-197 | switching off also writes the all-empty record to `mae` at once and leaves the other sections unchanged. Switching on leaves the store untouched |
| `MaternoForm.Submit` | app/forms-materno.tsx:199-297 | the screen advances to the paternal screen exactly when the section is inactive, or active with the required check passing and no errors. It writes `mae` only in the active case. A blocked submit leaves the store untouched and shows the gate's alert |
| `MaternoForm.UntouchedScreenSkipsSection` | app/forms-materno.tsx:86-227 | the screen opens with the section off, and submitting it as opened advances to the paternal screen without writing `mae` |
| `MaternoForm.ToggleOffThenNext` | app/forms-materno.tsx:185-226 | after switching off, next never blocks and `mae` holds the all-empty record |
| `MaternoForm.ToggleTwiceDiscardsDraft` | app/forms-materno.tsx:185-197 | switching off and on again does not restore the discarded draft |
| `MaternoForm.ClearingEmailKeepsError` | app/forms-materno.tsx:119-156 | emptying the e-mail does not remove an existing e-mail error |
| `MaternoForm.DefaultFieldsWhenEmptied` | app/forms-materno.tsx:158-166 | an emptied work phone or profession gets "Campo obrigatório"; workplace and address do not |
| `PaternoForm.Toggle` | app/forms-paterno.tsx:185-197 | switching off also writes the all-empty record to `pai` at once and leaves the other sections unchanged. Switching on leaves the store untouched |
| `PaternoForm.Submit` | app/forms-paterno.tsx:219-303 | the screen advances to the observations screen exactly when the section is inactive, or active with the required check passing and no errors. It writes `pai` only in the active case. A blocked submit leaves the store untouched and shows the gate's alert |
| `PaternoForm.InactiveEditsKeepErrors` | app/forms-paterno.tsx:117 | while the section is inactive, edits leave the error map unchanged |
| `PaternoForm.AddressOnlyCheckedAtSubmit` | app/forms-paterno.tsx:159-229 | the address never gains a field error, yet a blank address alone fails the active submit and leaves the store untouched |
| `PaternoForm.ClearingEmailKeepsError` | app/forms-paterno.tsx:119-156 | emptying the e-mail does not remove an existing e-mail error |
| `PaternoForm.ToggleOffThenNext` | app/forms-paterno.tsx:185-226 | after switching off, next never blocks and `pai` holds the all-empty record |
| `Observations.ValidateStep1` | app/forms-obs.tsx:87-103 | errors come in fixed order, each present exactly when its condition holds. The enrolment type is missing when it is unselected. The previous school is needed only for the two transfer types, when it is blank. Each yes/no question fails only when answered "sim" with a blank description |
| `Observations.Step1PassesIff` | app/forms-obs.tsx:87-102 | step 1 passes exactly when none of its six conditions holds |
| `Observations.Step1PickerOptions` | app/forms-obs.tsx:223-258 | every enrolment type the picker offers passes the type check. Only the two transfer types can ask for the previous school. Answering "não" never asks for a description |
| `Observations.InitialEnrolmentNeedsNoSchool` | app/forms-obs.tsx:90-92 | an initial enrolment never asks for the previous school |
| `Observations.TransferWithoutSchoolBlocks` | app/forms-obs.tsx:90-92 | a private transfer with an empty school name lists "Informe o nome da escola anterior" |
| `Observations.Step1Messages` | app/forms-obs.tsx:89-96 | each step 1 error is shown by its message, in the same order |
| `Observations.ValidateStep2` | app/forms-obs.tsx:105-117 | errors come in fixed order. Step 2 fails exactly when the residence or the guardian name is blank, or the guardian CPF or the telephone does not have 11 digits |
| `Observations.Step2Messages` | app/forms-obs.tsx:107-110 | each step 2 error is shown by its message, in the same order |
| `Observations.NextStep` | app/forms-obs.tsx:119-122 | the screen moves to sub-step 2 exactly when step 1 passes; otherwise it stays and lists the step 1 errors |
| `Observations.GuardianFields` | app/forms-obs.tsx:149-181 | a written section sends the eleven body fields with their stored values; an empty section sends none |
| `Observations.HouseNumberNeverSent` | app/forms-obs.tsx:150-163 | the house number never appears in a guardian body |
| `Observations.WhenYes` | app/forms-obs.tsx:187-193 | a description is sent exactly when its question is "sim", and is `null` otherwise |
| `Observations.Payload` | app/forms-obs.tsx:183-200 | the enrolment type, previous school, the four answers and the five second-sub-step fields are sent as entered. A description that is sent equals the one entered |
| `Observations.PayloadGating` | app/forms-obs.tsx:183-200 | the sibling, specialist, allergy and medication descriptions are non-null exactly when answered "sim" |
| `Observations.Plan` | app/forms-obs.tsx:129-200 | an uninterrupted run makes four requests, to /alunos, /maes, /pais and /observacoes in that order |
| `Observations.ErrorMessage` | app/forms-obs.tsx:206-211 | the failure text is "Erro no cadastro:" alone for errors not from the HTTP client. For HTTP-client errors it is followed by a line with the response's `message` when that is present and non-empty, and with the error's own message otherwise |
| `Observations.Submit` | app/forms-obs.tsx:124-215 | a failing step 2 posts nothing and shows its errors. Otherwise the requests made are a prefix of the four-request plan, and they stop right after the first failure. The store is cleared and home pushed exactly when all four succeed. Any failure leaves the store untouched and shows that failure's message |
| `Observations.RequestsKeyedByStudentId` | app/forms-obs.tsx:147-199 | every request after the first carries the id returned by /alunos |
| `Observations.GuardiansAlwaysPosted` | app/forms-obs.tsx:149-181 | once the student is created, /maes is posted whatever the store's `mae` section holds |
| `Observations.BothGuardiansOffScenario` | app/forms-obs.tsx:124-204 | with both guardians switched off and every reply successful, there are exactly four requests, the guardian bodies carry empty fields, and the store ends cleared |

## Left out

- Rendering, styles, keyboard and scroll handling are left out. So are the
  static screens (`aboutUs`, `index`, `_layout`, `solicitacoes`), the picker
  components and `globalStyles`. They hold no validation or orchestration logic.
- `api/axiosInstance.ts` and real HTTP are left out. Each POST is an abstract
  reply given to `Observations.Submit`.
- The e-mail and terms-download actions of the observations screen are left
  out. They only open external links.
- The 300 ms timing of the debounced validators is left out. A burst is a run
  of calls with no expiry between, and a flush runs the waiting call.
- React state batching and stale closures are left out. The submit gates are
  functions of the error map they are given. The model does not follow the
  `useCallback` re-creation of a guardian validator when its toggle changes,
  and it does not follow a call still pending on the old instance.
- Applying a mask to keystrokes is the input library's work and is left out.
  The masks are data, and a filled mask is characterised.
- Calendar validity of dates is left out because the code does not check it.
- The `isSubmitting`/`loading` flags are left out. They only disable the
  buttons while an action runs.
- Alert titles and button texts are left out, and so is the slightly
  different wording of the two guardian screens' dialogs. Alerts are modelled
  by kind, with the listed labels or messages.
- The back and home buttons are left out. They navigate only, and so does the
  return from observation sub-step 2 to sub-step 1.
- The guardian submit's `try`/`catch` around the store write is left out. A
  write to the model store cannot fail.
- The unused sorted `racasOptions` constant of the student screen is left out.
- StudentForm.Submit: the gate reads the error map as given. The source calls
  `validateField.flush()` first, but the state update that call schedules is
  not visible to the same handler, so the flushed result is not reflected.
- Observations.ErrorMessage: an HTTP-client error whose own `message` is
  undefined is not modelled. Its text would read "undefined".
