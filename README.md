# Record form and record list — a Dafny model

The application is a small React CRUD page. Users type a personal record into a form: name (`nome`),
phone (`telefone`), CPF (the Brazilian national ID, typed through the mask `999.999.999-99`), email
with confirmation, and password (`senha`) with confirmation. The page keeps the submitted records in
an ordered list, where each can be edited or deleted. This project models the two pieces of logic in
the application and proves what they do:

- `form.dfy`, module `RecordForm` (src/components/Form.js). The `form` and `errors` component state
  is the class `FormState`, with the handlers `HandleChange`, `HandleSubmit` and `Prefill` (the
  `useEffect` that copies `initialData` into the form). The submit-time check chain is the pure
  function `Validate`. Its contract says that a form is accepted exactly when all five checks pass,
  and that a rejection names the first failing check, in the order missing fields, phone, email,
  password, CPF. The phone's digit count (`replace(/[^\d]/g, '').length`) is `DigitCount`, built on
  `OnlyDigits`. Alerts (`Swal.fire`) become the returned `FormError`. The call of `onSubmit(form)`
  becomes a `Submitted(record)` outcome.
- `store.dfy`, module `RecordStore` (src/pages/HomePage.js). The `records` / `editingRecord` state is
  the class `Store`, with `HandleAddOrUpdate`, `HandleEdit` and `HandleDelete`. The arrays that the
  handlers build with `map` and `filter` are the functions `Replaced` and `Removed`. Their lemmas cover
  length, position, counts, order and the absent-record case. Records are references to the class
  `Record`, so `==` is JavaScript's `===`: two records with equal fields are different entries.

Some things the code does are easy to miss; the model follows the code:

- The CPF error flag is never raised. `handleChange` computes it, but the second `setErrors` call
  spreads the same old `errors` object and wins, so the flag keeps its value (Form.js:45-55).
  "Never raised" follows from four contracts together: the constructor starts the flag false,
  `FormState.HandleChange` keeps it, `FormState.HandleSubmit` keeps it or resets it to false, and
  `FormState.Prefill` leaves it alone.
- The CPF check at submit looks only at the length (14). A CPF still holding mask placeholders
  passes (`CpfCheckIsLengthOnly`). The length is JavaScript's `.length`, which counts UTF-16 code
  units (`Utf16Length`). For the digits, separators and `_` that the mask produces, this is the
  character count (`MaskTextLength`). A character outside the Basic Multilingual Plane counts twice
  (`AstralCpfRefused`).
- Add-or-update in edit mode replaces every entry identical to the target, not only the first
  (HomePage.js:12).
- Deletion has no confirmation step and reports no success or failure. `handleDelete` just filters.
- `handleDelete` leaves `editingRecord` alone. Deleting the record being edited and then submitting
  replaces nothing, and the submitted record is dropped. This follows from the contracts of
  `Store.HandleDelete`, `Store.HandleAddOrUpdate` and `Replaced`.
- Nothing keys records by CPF. A second record with an existing CPF is appended like any other
  (`DuplicateCpfKept`).

## Model

| member | source | states |
|---|---|---|
| `RecordForm.FormData.Set` | src/components/Form.js:43 | `{ ...form, [name]: value }` gives the named field the new value and keeps every other field |
| `RecordForm.EmptyFormIsEmpty` | src/components/Form.js:92-103 | the initial and reset form has every field empty |
| `RecordForm.OnlyDigits` | src/components/Form.js:69 | removing non-digits leaves only ASCII digits, is never longer, and keeps the length exactly when every character is a digit |
| `RecordForm.OnlyDigitsKeepsDigits` | src/components/Form.js:69 | each digit occurs in the result as often as in the input |
| `RecordForm.OnlyDigitsAppend` | src/components/Form.js:69 | removing non-digits works piece by piece, so the digits keep their order |
| `RecordForm.OnlyDigitsOfDigits` | src/components/Form.js:69 | a string of digits is left as it is |
| `RecordForm.DigitCount` | src/components/Form.js:51 | the digit count is at most the length, and equals it exactly when every character is a digit |
| `RecordForm.DigitCountAppend` | src/components/Form.js:69 | the digit counts of two pieces add up |
| `RecordForm.AllFilledByField` | src/components/Form.js:63 | the seven-way emptiness test is the same as "every field is non-empty" |
| `RecordForm.Validate` | src/components/Form.js:62-88 | accepted exactly when every field is filled, the phone has 11 digits, the emails and the passwords match, and the CPF's `.length` (UTF-16 code units) is 14; a rejection names a failing check with every check of lower rank passing |
| `RecordForm.CpfCheckIsLengthOnly` | src/components/Form.js:85-88 | any other CPF value of the same `.length`, placeholders included, gets the same verdict |
| `RecordForm.Utf16Length` | src/components/Form.js:85 | `.length` lies between the character count and twice it, and equals the character count exactly when every character is in the Basic Multilingual Plane |
| `RecordForm.Utf16LengthAppend` | src/components/Form.js:85 | the `.length` of two pieces adds up |
| `RecordForm.MaskTextLength` | src/components/Form.js:134 | for text made of the mask's digits, separators and `_`, `.length` is the character count |
| `RecordForm.AstralCpfRefused` | src/components/Form.js:85-88 | thirteen mask characters and one character outside the Basic Multilingual Plane are 14 characters but 15 code units, so the form is refused |
| `RecordForm.OrEmpty` | src/components/Form.js:30 | the fallback to `''` gives `''` for a missing value and the value itself otherwise (an empty value is itself `''`) |
| `RecordForm.Prefilled` | src/components/Form.js:29-37 | each field takes the `initialData` value, or `''` where that value is missing |
| `RecordForm.AsInitialData` | src/pages/HomePage.js:30 | a submitted form passed as `initialData` has every field present with its value |
| `RecordForm.PrefillRoundTrip` | src/components/Form.js:27-39 | prefilling from a form that was once submitted restores exactly that form |
| `RecordForm.FormState.constructor` | src/components/Form.js:9-22 | the form starts empty with both flags clear |
| `RecordForm.FormState.HandleChange` | src/components/Form.js:41-56 | the named field takes the value and no other field changes; the CPF flag keeps its old value; the phone flag is raised exactly when the phone changed to a value without 11 digits |
| `RecordForm.FormState.HandleSubmit` | src/components/Form.js:58-104 | submits exactly when `Validate` accepts, handing over the form as it was; a refusal reports `Validate`'s error and changes nothing; an accepted submit resets form and flags outside edit mode and changes nothing in edit mode |
| `RecordForm.FormState.Prefill` | src/components/Form.js:27-39 | only in edit mode with `initialData` present is the form replaced by the prefilled data; the flags never change |
| `RecordStore.Replaced` | src/pages/HomePage.js:12 | same length; each entry identical to the target becomes the new record at the same position, all others stay; an absent target changes nothing |
| `RecordStore.ReplacedCounts` | src/pages/HomePage.js:12 | every occurrence of the target moves to the new record and no other record's count changes |
| `RecordStore.ReplacedSingle` | src/pages/HomePage.js:12 | when the target occurs once, at position i, the update is a write at position i alone |
| `RecordStore.Removed` | src/pages/HomePage.js:24 | drops every entry identical to the record and nothing else (as multisets), so the length falls by the number of matches; an absent record leaves the list unchanged |
| `RecordStore.RemovedAppend` | src/pages/HomePage.js:24 | removal distributes over concatenation, so the remaining entries keep their relative order |
| `RecordStore.RemovedSingle` | src/pages/HomePage.js:24 | deleting a record that occurs once, at position i, gives the list with position i cut out |
| `RecordStore.DuplicateCpfKept` | src/pages/HomePage.js:15 | appending a record with a CPF already in the list gives two entries with that CPF |
| `RecordStore.Store.constructor` | src/pages/HomePage.js:7-8 | the list starts empty and no record is being edited |
| `RecordStore.Store.HandleAddOrUpdate` | src/pages/HomePage.js:10-17 | with no target, the record is appended and earlier entries stay in order; with a target, the list becomes `Replaced(records, target, data)` (same length); edit mode ends either way |
| `RecordStore.Store.HandleEdit` | src/pages/HomePage.js:19-21 | the record becomes the edit target and the list is unchanged |
| `RecordStore.Store.HandleDelete` | src/pages/HomePage.js:23-25 | the list becomes `Removed(records, record)` and the edit target is unchanged |

## Left out

- Rendering (JSX, Material-UI components, src/components/RecordList.js, src/App.js): these only
  display data and forward clicks. RecordList passes `onEdit(record)` / `onDelete(record)` with a record
  from the list, which is how `HandleEdit` and `HandleDelete` are called.
- Alerts (`Swal.fire`): each alert becomes the `FormError` value it would display.
- The password visibility toggles (`showSenha`, `showConfirmSenha`): presentation only.
- The `InputMask` library on the CPF input is external code. The CPF reaches `HandleChange` as an
  arbitrary string.
- React scheduling: each `setForm` / `setErrors` is treated as an assignment, and a later one
  overwrites an earlier one within the same handler (last write wins). When the prefill effect
  fires is not modelled. `Prefill` is the effect's body, called with the current props.
- The `Excluir` button (Form.js:217) only forwards clicks to an `onDelete` prop. HomePage does not pass
  that prop, so there is nothing to model.
- The link between the two files is not modelled end to end. HomePage passes neither `isEditing` nor
  `onDelete` to the form (HomePage.js:30). The form is modelled with `isEditing` as a parameter, and
  the store on its own.
- RecordForm.Prefilled: `initialData` fields are modelled as strings that may be missing (`None`
  standing for `undefined` or `null`). Non-string falsy JavaScript values (`0`, `false`, `NaN`) are
  not modelled.
- RecordStore.Record: records are never mutated after they are submitted, so a record's fields are
  `const`.
