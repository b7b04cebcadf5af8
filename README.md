# App registry form: validation, storage and listing, modelled in Dafny

This project models the logic of `myFunctions.js`, the one script of a small
site where a user registers an application (name, vendor, website, pricing,
domain, summary, optional logo and media). The jQuery and DOM layer is left
out. Five pieces remain, each in its own module:

- `Validator` (`validator.dfy`): `validateAppForm`. There are six independent rules, and every failing field is
  reported in a map from field to error.
- `RecordStore` (`record_store.dfy`): the single local-storage slot `ai_apps_list_v1`. It holds the whole
  list, which is read and written as a unit.
- `Submission` (`submission.dfy`): `submitAppForm`. It trims the fields, validates them, and then takes one of two
  paths. It either shows the errors next to the fields and leaves the store alone, or it puts the record at the
  head of the stored list and navigates.
- `LegacyForm` (`legacy_form.dfy`): the `#submitBtn` click handler of the alternate form. It runs six checks in a
  fixed order with early returns, reports only the first failure, stores nothing, and navigates after a delay.
- `AppsTable` (`apps_table.dfy`): `renderAppsTable`. It rebuilds the table from the store. Record `i` gets a
  summary row tagged `i` and a hidden detail row for `i`. Each toggle flips only its own detail row and its own
  `open` state.

Two support modules are shared by the others:

- `JsText` (`js_text.dfy`) models JavaScript strings as sequences of UTF-16 code units. This is what `.length`,
  `.trim()` and regular expressions without the `u` flag work on. It also holds the character classes `[A-Za-z]`,
  `[\u0600-\u06FF]` and `\s`, and `trim`.
- `JsRegex` (`js_regex.dfy`) models `re.test(s)` for the anchored patterns `^B$` the program uses. A test succeeds
  iff some slice `s[p..q]` matches `B`, with `^` allowed at `p` and `$` allowed at `q`. With the `m` flag, `^` and
  `$` may also match next to a line terminator.

The WHATWG `URL` constructor is a parameter, `parseUrl: JsString -> Option<JsString>`. It gives the parsed
`protocol`, or `None` where the constructor throws. Navigation and the 2000 ms timer become outcome values.

Three points of `myFunctions.js` are modelled as the code behaves:

- `loadAppsFromStorage` (lines 10-19) returns whatever `JSON.parse` yields. It does not check that the value is a
  list.
- `submitAppForm` trims `logo` and `media`, which are never validated, just as it trims the validated text fields
  (lines 134-135).
- The comment on line 33 says Arabic letters only, with spaces allowed. The class on line 34 accepts every code
  unit of U+0600..U+06FF, which includes Arabic digits and punctuation, and every `\s` character, which includes
  tabs and line breaks.

## Model

| member | source | states |
|---|---|---|
| JsText.TrimStartShape | myFunctions.js:128-135 | leading white space (the `\s` set) is dropped, and the result does not start with white space |
| JsText.TrimEndShape | myFunctions.js:128-135 | trailing white space is dropped, and the result does not end with white space |
| JsText.TrimIsSpaceFreeSlice | myFunctions.js:60 | `trim()` returns a slice `s[a..b]`; only white space lies outside it, and it neither starts nor ends with white space |
| JsText.TrimIdempotent | myFunctions.js:60 | trimming an already trimmed value changes nothing; pathway one trims the summary twice (lines 133 and 60) |
| JsRegex.WholeInputMatch | myFunctions.js:29 | without the `m` flag, `/^B$/.test(s)` holds iff the body matches all of `s` |
| JsRegex.MultilineMatchesALine | myFunctions.js:188 | with the `m` flag, a body that contains no line terminator matches iff it matches one whole line of `s` |
| Validator.WebsiteError | myFunctions.js:39-46 | no website error iff the URL parses and its protocol is `http:` or `https:`; a parse failure gives only the malformed error, and a wrong scheme only the scheme error |
| Validator.Validate | myFunctions.js:25-65 | the key set is exactly the set of failing rules (`free` must be exactly `yes`/`no`, `domain` one of three values, trimmed summary at least 10 code units); each key maps to its rule's error; the map is empty iff every rule passes |
| Validator.NameRule | myFunctions.js:29-31 | the name passes iff it is non-empty and every code unit is in A-Z/a-z |
| Validator.CompanyRule | myFunctions.js:34-36 | the company passes iff it is non-empty and every code unit is in U+0600..U+06FF or is white space |
| Validator.SampleAccepted | myFunctions.js:25-65 | the record (`MyApp`, `شركة الاختبار`, `https://test.com`, `yes`, `Education`, `A great learning tool`) gets no error |
| Validator.SampleWithSpaceRejected | myFunctions.js:29-31 | the same record named `My App` gets exactly one error, on the name |
| RecordStore.Store.Load | myFunctions.js:10-19 | an absent slot and content that `JSON.parse` rejects give `[]`, and a stored list comes back as it is (storage exceptions are left out, see below) |
| RecordStore.Store.Save | myFunctions.js:20-22 | saving overwrites the whole slot with the given list |
| RecordStore.SaveThenLoad | myFunctions.js:10-22 | loading after saving a list yields that list, whatever the slot held before |
| Submission.Collect | myFunctions.js:127-136 | `domain` is taken as read, untrimmed; with no checked `free` button `free` falls back to the empty string, as the `or ''` fallback on line 131 does; `free` passes its rule iff the checked button carries `yes` or `no` |
| Submission.CollectedFieldsAreTrimmed | myFunctions.js:127-136 | every text field of the collected record is already trimmed |
| Submission.ErrorDisplay.Clear | myFunctions.js:141 | every `.form-error` annotation is removed |
| Submission.ErrorDisplay.ShowAll | myFunctions.js:143-148 | after the loop over the error keys, each key's message is shown for its field, replacing any earlier entry for that field; on a cleared display exactly the keys of the error map are annotated |
| Submission.ErrorDisplay.Refresh | myFunctions.js:141-148 | old annotations are removed, and afterwards exactly the failing fields are annotated, each with its rule's message |
| Submission.SubmitAppForm | myFunctions.js:124-160 | result true iff the error map is empty. On errors, the annotations are the messages of the map, the store is unchanged and the outcome is `Rejected`. Otherwise the slot holds `[record] + old list` and the outcome is `Navigate(redirect)` |
| Submission.SubmitThenLoad | myFunctions.js:152-155 | after a successful submission, the loaded list has the new trimmed record at index 0 followed by the previous list; after a rejected one it is the previous list |
| LegacyForm.SubmitLegacy | myFunctions.js:176-221 | the status text is the message of the outcome; the outcome is a failure of the first check, in the order name, company, website, free, field, description, that does not pass; it is navigate-after-2000-ms to `app.html` iff all six pass; the store is not reachable |
| LegacyForm.Passes | myFunctions.js:177-213 | the six checks: the trimmed name non-empty and all ASCII letters; the trimmed company non-empty and all U+0600..U+06FF or white space; a passing trimmed website has at least nine code units; `free` and `field` non-empty as read; the trimmed description at least ten code units |
| LegacyForm.UrlBody | myFunctions.js:188 | a match of `(https?:\/\/)[^\s$.?#].[^\s]*` is at least nine code units long and holds no line terminator |
| LegacyForm.LegacyUrlOk | myFunctions.js:188 | `urlRegex.test(website)` succeeds only on values of at least nine code units |
| LegacyForm.LegacyUrlSingleLine | myFunctions.js:188 | on a value without line terminators, the URL pattern must match the whole value |
| LegacyForm.LegacyUrlAnyLine | myFunctions.js:188 | because of the `m` flag, a value passes as soon as any line after a line feed matches, whatever precedes it and whatever follows the next line terminator |
| LegacyForm.LegacyUrlExamples | myFunctions.js:188 | `http://a` fails, since two code units are needed after the scheme; `http://a b` passes, since the second may be a space |
| LegacyForm.PathwaysAgreeBesidesWebsite | myFunctions.js:186-213 | on the same raw values, both pathways agree on name, company and summary. What pathway one accepts for `free`/`domain` passes the legacy non-empty checks |
| AppsTable.BodyRows | myFunctions.js:83-110 | the loop emits two rows per record |
| AppsTable.BodyRowsLayout | myFunctions.js:83-110 | row `2i` is record `i`'s summary row tagged `i`, and row `2i+1` is its detail row for `i`, in stored order |
| AppsTable.TableShape | myFunctions.js:69-76 | an empty list shows only the placeholder; otherwise there is no placeholder and `2n` rows |
| AppsTable.DetailRowIsUnique | myFunctions.js:116-117 | the lookup `data-for="i"` finds exactly one row, the one right after summary row `i` |
| AppsTable.FreeColumn | myFunctions.js:89 | the free cell shows `نعم` iff `free` is exactly `yes`, else `لا` |
| AppsTable.BuildRows | myFunctions.js:73-110 | the `forEach` loop builds exactly the rows of the stored list, or the placeholder for an empty list |
| AppsTable.Table.constructor | myFunctions.js:68-113 | the first rendering shows the stored list with every detail row hidden and every toggle closed |
| AppsTable.Table.Render | myFunctions.js:68-113 | re-rendering rebuilds from the store alone: rows of the loaded list, fresh flags, all collapsed |
| AppsTable.Table.Toggle | myFunctions.js:115-120 | a click flips its own row's visibility and `open` state; every other index is unchanged; `open` always equals visibility |
| AppsTable.RenderTwice | myFunctions.js:68-113 | rendering twice from an unchanged store gives the same rows, all collapsed |
| AppsTable.ToggleTwice | myFunctions.js:115-120 | toggling the same row twice restores every flag |
| AppsTable.OpenTwo | myFunctions.js:114-120 | two different detail rows can be shown at once |

## Left out

- RecordStore.Store.Load, RecordStore.Store.Save: storage access is modelled as a get and a set that never fail. In the code, `localStorage.getItem` (line 11) sits outside the `try`, so it throws when storage access is blocked. `localStorage.setItem` (line 21) can throw a quota-exceeded error. A throw from the save on line 155 leaves `submitAppForm` after line 141 has already removed the annotations, with no return value and no navigation. Submission.SubmitAppForm does not model that path.
- JSON text is abstracted. The slot is `Absent`, `Corrupt` or `Stored(list)`. The model takes `JSON.parse(JSON.stringify(list))` to give back the list, which holds for records of plain strings.
- Stored text that is valid JSON but not a list (for example `null`) is outside the model. `loadAppsFromStorage` returns such a value unchanged, and its callers may throw: `renderAppsTable` shows the placeholder for a value of length 0, such as the string that `""` parses to (line 73), while `unshift` on line 154 throws. Lists whose elements are not records of eight strings are also outside the model; `Stored` holds only such records.
- The WHATWG URL parser is not part of this model. It is the parameter `parseUrl`, which yields the `protocol` or `None`.
- Markup is not modelled: the HTML strings, the fixed header row, CSS classes and inline styles (lines 79-107). Rows are datatypes.
- AppsTable.TableShape, AppsTable.DetailRowIsUnique: both assume field values that hold no markup. Lines 86-102 put `name`, `company`, `domain`, `website`, `summary`, `logo` and `media` into the row templates without HTML escaping. The validator accepts any summary of 10 or more code units and never checks `logo` or `media`. A stored value holding markup can therefore add rows, or a second `.details-row[data-for="i"]` that the lookup on line 117 also toggles. The "two rows per record" and "exactly one detail row" claims hold only for markup-free values.
- Presentation is not modelled: the slide animations (lines 118, 172) and the broken-logo `onerror` hiding (line 86). The toggle keeps only its boolean effect.
- Navigation (lines 158, 220) and the 2000 ms timer (line 219) are browser effects. They become the outcome values `Navigate` and `NavigateAfterDelay`.
- `console.error` (line 16) is logging only.
- `resetAppForm` (lines 163-165) is a pure DOM reset.
- The document-ready `.details-row` hiding and the `.details-btn` handler (lines 170-173) act on static page markup.
- A jQuery `.val()` on a select with nothing selected is `null`. The model uses the empty string, which every rule treats the same way: falsy, and not one of the allowed values.
- Reading a field that does not exist makes `.trim()` throw. This is not modelled.
- Submission.ErrorDisplay.ShowAll: assumes each of the six validated fields exists in the form. The source skips keys without a matching element (line 145). One map entry per field stands for every copy of the annotation line 146 inserts: the lookup on line 144 matches every element of that name, so the `free` message appears once after each radio button. Showing a second message for a field that already has one replaces it in the map, while the source would keep both annotations; `SubmitAppForm` always clears first (line 141), so it never meets that case.
- Concurrent writers in other tabs (last writer wins) are not modelled.
