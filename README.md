# rireki-ai résumé core in Dafny

rireki-ai builds Japanese job-application documents for foreign
candidates. A candidate fills in one résumé record, which holds:

- a visa tier: TITP, SSW or ENGINEER;
- personal details, with optional family and physical sections;
- education and work history;
- skills and motivation.

The application validates the record against a schema and keeps it in an
editing store. It can merge in a CV parsed by an AI service, and it prints
one of two paper forms:

- the Japanese Rirekisho (履歴書) for SSW and ENGINEER;
- the English Bio-Data sheet for TITP.

This project models that core as Dafny and proves its behaviour. The
modules are:

- `ResumeTypes` (types.dfy): the record and its enumerations.
- `NumberText` (number_text.dfy): decimal text of integers and its parser.
- `ResumeSchema` (schema.dfy): the validator. Each regular expression appears twice: once as written, once as a plain description of what it accepts. Lemmas prove the two agree.
- `ResumeStore` (store.dfy): the editing store, as class `Store`. Partial updates are patch values with one `Option` per key.
- `JapaneseDate` (japanese_date.dfy): the era-date conversion and the font helper.
- `PdfText`, `Rirekisho`, `BioData`, `Router`: the printed content of both forms and the choice between them. Styling is not modelled.
- `WorkHistoryForm` (work_history.dfy): the "Current Job" checkbox and its sync with the end date.
- `CvUpload` (cv_upload.dfy): the upload handler that merges a parsed CV through the store's actions.
- `KatakanaInput` (katakana.dfy): language detection and the suggestion workflow of the furigana field.

A few behaviours of the code worth noting:

- The "Use" button accepts a suggestion only when it is truthy, so an empty-string suggestion is not accepted.
- Rirekisho education and work rows have three cells: the start date, an empty cell, then the text.
- The Rirekisho skills cell prints the JLPT line whenever a level is set. That includes the level "None", printed as `日本語能力試験: None`.

## Model

| member | source | states |
|---|---|---|
| ResumeTypes.LabelsInjective | types/resume.ts:22-46 | The JLPT, gender and status enumerations print as distinct strings, so no two values share a label. |
| NumberText.NatToString | components/pdf/BioDataDocument.tsx:147-150 | Decimal text of a non-negative number: non-empty, all digits, no leading zero, one digit exactly for n < 10. |
| NumberText.IntToString | lib/fonts/helpers.ts:32-33 | Decimal text of an integer: starts with '-' exactly for negative numbers, otherwise all digits. |
| NumberText.ParseNatToString | lib/fonts/helpers.ts:32-33 | Reading the decimal text of n back gives n (induction on n). |
| NumberText.ParseIntToString | lib/fonts/helpers.ts:32-33 | Reading the text of any integer, sign included, gives the integer back. |
| NumberText.IntToStringInjective | lib/fonts/helpers.ts:32-33 | Different integers print differently. |
| ResumeSchema.DatePatternCharacterised | lib/schemas/resume.ts:25 | The pattern `^\d{4}-\d{2}-\d{2}$` accepts exactly the 10-character strings with digits everywhere except '-' at positions 4 and 7. |
| ResumeSchema.PhonePatternCharacterised | lib/schemas/resume.ts:3 | The phone pattern accepts exactly: an optional '+', a digit 1-9, then 0 to 15 more digits. |
| ResumeSchema.EmailPatternSound | lib/schemas/resume.ts:4 | Whatever the email pattern accepts has one '@' with a non-empty local part, no JavaScript whitespace, and a dot strictly inside the domain. |
| ResumeSchema.EmailPatternComplete | lib/schemas/resume.ts:4 | Every string of that shape is accepted by the pattern. |
| ResumeSchema.EmailPatternCharacterised | lib/schemas/resume.ts:4 | The two directions together: the pattern and the description agree on every string. |
| ResumeSchema.WorkEndDateCharacterised | lib/schemas/resume.ts:46-49 | A work end date is valid iff it is "Current" or a date string; "" is rejected and "Current" is not a date. |
| ResumeSchema.EducationRejectsCurrent | lib/schemas/resume.ts:38 | An education entry ending "Current" is invalid. |
| ResumeSchema.ValidityIgnoresOptionalSections | lib/schemas/resume.ts:13-32 | Tier, skills, physical stats, Japan address and photo never change whether a record is valid. |
| ResumeSchema.FamilyMembersChecked | lib/schemas/resume.ts:6-11 | In a valid record every family member has a non-empty name, relationship and occupation. |
| ResumeSchema.SampleDataRejected | lib/schemas/resume.ts:19-65 | The sample record fails validation (month-only education dates, hyphenated phone, 9-character self-PR), while its birth date and email pass. |
| ResumeStore.WithoutIndexInRange | lib/store/resumeStore.ts:97 | Removing an index in range drops exactly that entry, keeps the others in order and shifts later ones down. |
| ResumeStore.WithoutIndexOutOfRange | lib/store/resumeStore.ts:120 | Removing an index out of range leaves the list unchanged. |
| ResumeStore.RemovalLength | lib/store/resumeStore.ts:93-99 | Removal shortens the list by one exactly when the index is in range. |
| ResumeStore.RemoveThenAppendMovesEntry | lib/store/resumeStore.ts:78-99 | Removing entry i and appending it again moves it to the end, with the others in their old order. |
| ResumeStore.AppendThenEmptyUpdate | lib/store/resumeStore.ts:86-91 | Updating a just-added entry with an empty partial leaves the list unchanged. |
| ResumeStore.MergeIdentityAndIdempotence | lib/store/resumeStore.ts:70-138 | A shallow merge with an empty partial is the identity, and merging the same partial twice equals merging it once. |
| ResumeStore.MergeComposes | lib/store/resumeStore.ts:70-76 | Two successive personal-info updates equal one update with the later partial winning key by key. |
| ResumeStore.InitialStateInvalid | lib/store/resumeStore.ts:35-55 | The initial record has empty lists and does not pass the validator. |
| ResumeStore.Store.constructor | lib/store/resumeStore.ts:59-63 | The store starts from the initial record, step 0, not loading, no errors. |
| ResumeStore.Store.SetData | lib/store/resumeStore.ts:65-68 | Supplied top-level sections replace the old ones; the rest and the UI state are kept. |
| ResumeStore.Store.UpdatePersonalInfo | lib/store/resumeStore.ts:70-76 | Personal info becomes the shallow merge of the partial over it; nothing else changes. |
| ResumeStore.Store.AddEducation | lib/store/resumeStore.ts:78-84 | Education becomes the old list plus the new entry at the end; nothing else changes. |
| ResumeStore.Store.UpdateEducation | lib/store/resumeStore.ts:86-91 | Only entry i changes, to the merge of the partial over it; length and other entries are kept. |
| ResumeStore.Store.RemoveEducation | lib/store/resumeStore.ts:93-99 | Education loses exactly entry i when i is in range and is unchanged otherwise. |
| ResumeStore.Store.AddWorkHistory | lib/store/resumeStore.ts:101-107 | Work history becomes the old list plus the new entry at the end. |
| ResumeStore.Store.UpdateWorkHistory | lib/store/resumeStore.ts:109-114 | Only entry i changes, to the merge of the partial over it. |
| ResumeStore.Store.RemoveWorkHistory | lib/store/resumeStore.ts:116-122 | Work history loses exactly entry i when in range, otherwise unchanged. |
| ResumeStore.Store.UpdateSkills | lib/store/resumeStore.ts:124-130 | Skills become the shallow merge of the partial over them. |
| ResumeStore.Store.UpdateMotivation | lib/store/resumeStore.ts:132-138 | Motivation becomes the shallow merge of the partial over it. |
| ResumeStore.Store.SetTier | lib/store/resumeStore.ts:140-143 | Only the tier changes. |
| ResumeStore.Store.SetCurrentStep | lib/store/resumeStore.ts:145 | Only the step changes; the record is untouched. |
| ResumeStore.Store.SetErrors | lib/store/resumeStore.ts:147 | Only the errors change. |
| ResumeStore.Store.ClearErrors | lib/store/resumeStore.ts:149 | The errors become empty; nothing else changes. |
| ResumeStore.Store.Reset | lib/store/resumeStore.ts:151 | The record returns to the initial one, step 0, no errors; the loading flag is kept. |
| JapaneseDate.JapaneseFont | lib/fonts/helpers.ts:1-3 | Every weight gives "NotoSansJP". |
| JapaneseDate.EraYearRoundTrip | lib/fonts/helpers.ts:20-30 | 令和 for years from 2019, 平成 for 1989-2018, 昭和 below; era year plus offset gives back the year. |
| JapaneseDate.GannenYears | lib/fonts/helpers.ts:32 | 元 is printed exactly for 2019, 1989 and 1926. |
| JapaneseDate.ShowaFallback | lib/fonts/helpers.ts:26-30 | Years before 1926 still print as 昭和, with an era year of zero or less. |
| JapaneseDate.ParseConvertRoundTrip | lib/fonts/helpers.ts:5-34 | The converted text reads back to the original date for every date: no information is lost. |
| PdfText.JoinLength | components/pdf/BioDataDocument.tsx:319 | The length of a join is the sum of the item lengths plus one separator length per neighbouring pair. |
| PdfText.JoinAppend | components/pdf/BioDataDocument.tsx:319 | Joining a list with one more item at the end gives the old join, the separator, then the new item, so the items appear in order with one separator between each neighbouring pair. |
| PdfText.JoinStartsWithFirst | components/pdf/BioDataDocument.tsx:328 | A join starts with the first item; a one-item list joins to the item itself. |
| Rirekisho.RowLayout | components/pdf/RirekishoDocument.tsx:84-274 | The table has 12 + education + work rows: personal rows, the 学歴・職歴 and 学歴 headers, one row per school in order, 職歴, one row per job in order, 以上, 志望動機, 自己PR, then 技能・資格 with the skill lines joined by new lines. No placeholder rows. |
| Rirekisho.PersonalBlock | components/pdf/RirekishoDocument.tsx:86-125 | Five personal rows with raw values; gender prints 男 for Male and 女 for Female and tells the genders apart. |
| Rirekisho.PrintedFieldsDetermineSheet | components/pdf/RirekishoDocument.tsx:75-279 | Two records agreeing on the printed fields give the same sheet. |
| Rirekisho.UnprintedFieldsIgnored | components/pdf/RirekishoDocument.tsx:75-279 | Email, phone, tier, education end dates and job role, end date and description never change the sheet. |
| Rirekisho.SkillLinesShape | components/pdf/RirekishoDocument.tsx:256-272 | The skills cell has a JLPT line iff a level is set, reading "日本語能力試験: " and the level; then a technical line iff that list is non-empty, at index 1 after a JLPT line and 0 otherwise; then an SSW line iff that list is non-empty, as the last line. Items are joined by ", ". |
| BioData.SectionOrder | components/pdf/BioDataDocument.tsx:111-332 | Sections come in the order 1, 2, 3, 4, 5, and section 2 is present iff the family list exists and is non-empty. |
| BioData.EmptyFamilyOmitted | components/pdf/BioDataDocument.tsx:169-170 | An empty family list gives four sections and no family table. |
| BioData.FamilyRows | components/pdf/BioDataDocument.tsx:190-211 | One row per family member, in order: relationship, name, age in decimal, occupation. |
| BioData.PersonalRowsShape | components/pdf/BioDataDocument.tsx:114-165 | Seven rows, in order: full name, katakana name, gender (raw, "Male" or "Female"), date of birth, current address, email and phone, each a label and its value. With physical stats, three more: "<height> cm / <weight> kg" in decimal, the blood type ("N/A" when absent or empty), and the dominant hand. |
| BioData.TableRows | components/pdf/BioDataDocument.tsx:231-303 | Education and employment tables have one row per entry in order, or exactly one placeholder row when the list is empty. |
| BioData.CurrentJobPeriod | components/pdf/BioDataDocument.tsx:277-288 | A "Current" end date prints verbatim in the period; a description follows the role on a new line only when non-empty. |
| BioData.UnprintedFieldsIgnored | components/pdf/BioDataDocument.tsx:105-109 | Tier, photo, Japan address and motivation never change the sheet. |
| BioData.SkillsRows | components/pdf/BioDataDocument.tsx:308-331 | The Japanese level always prints first: the level when set, "None" otherwise. Then the SSW row iff that list is non-empty, then the technical row iff that list is non-empty as the last row, each joined by ", ". |
| Router.FormDependsOnTierOnly | components/pdf/DocumentRouter.tsx:5-12 | Bio-Data is chosen iff the tier is TITP; records with the same tier get the same form whatever else they hold. |
| Router.TitpIgnoresDate | components/pdf/DocumentRouter.tsx:7-9 | For TITP the output does not depend on the date. |
| Router.RirekishoDateLine | components/pdf/RirekishoDocument.tsx:80-82 | The Rirekisho date line ends in " 現在" and its date reads back to the day the sheet was made. |
| WorkHistoryForm.SyncedEndDate | components/builder/steps/WorkHistoryStep.tsx:77-83 | After the sync the end date is "Current" iff the box is ticked; an unticked box clears only the sentinel and keeps any other value. |
| WorkHistoryForm.NewEntry | components/builder/steps/WorkHistoryStep.tsx:15-23 | A new entry has every field empty (end date ""), so it is not current. |
| WorkHistoryForm.SyncIdempotent | components/builder/steps/WorkHistoryStep.tsx:77-83 | Running the sync twice equals running it once. |
| WorkHistoryForm.CheckThenUncheckLosesDate | components/builder/steps/WorkHistoryStep.tsx:78-81 | Ticking and then clearing the box leaves "" whatever date was there before. |
| WorkHistoryForm.UncheckedKeepsRealDate | components/builder/steps/WorkHistoryStep.tsx:80-81 | An unticked box leaves a non-sentinel date alone. |
| WorkHistoryForm.WorkHistoryFields.constructor | components/builder/steps/WorkHistoryStep.tsx:74-75 | Each box starts ticked iff its entry ends "Current", so the form starts consistent. |
| WorkHistoryForm.WorkHistoryFields.Sync | components/builder/steps/WorkHistoryStep.tsx:77-83 | The effect writes the synced end date into entry i and nothing else. |
| WorkHistoryForm.WorkHistoryFields.AddWorkHistory | components/builder/steps/WorkHistoryStep.tsx:15-23 | Appends the empty entry with a cleared box and keeps the form consistent. |
| WorkHistoryForm.WorkHistoryFields.Remove | components/builder/steps/WorkHistoryStep.tsx:91 | Drops entry i and its box, keeping the rest in order and consistent. |
| WorkHistoryForm.WorkHistoryFields.SetCurrent | components/builder/steps/WorkHistoryStep.tsx:126-131 | Ticking writes "Current"; clearing a ticked box leaves ""; other entries are unchanged; box and date stay consistent. |
| WorkHistoryForm.WorkHistoryFields.EditEndDate | components/builder/steps/WorkHistoryStep.tsx:135-141 | Typing a date into an unticked entry stores it; the sentinel is cleared by the effect. |
| CvUpload.ImportEffect | components/features/GapHunter/CVUpload.tsx:43-64 | An import keeps tier and motivation, appends parsed schools and jobs in order after the untouched old ones, and replaces technical skills only with a non-empty list, keeping JLPT and SSW. |
| CvUpload.EmptyImportIsIdentity | components/features/GapHunter/CVUpload.tsx:43-64 | An import that carries nothing leaves the record unchanged. |
| CvUpload.ImportTwiceDuplicates | components/features/GapHunter/CVUpload.tsx:48-58 | Importing the same CV twice appends its entries twice, while personal info and skills end as after one import. |
| CvUpload.CvUploader.constructor | components/features/GapHunter/CVUpload.tsx:10-14 | Starts idle, at progress 0, not uploading. |
| CvUpload.CvUploader.HandleFileUpload | components/features/GapHunter/CVUpload.tsx:17-80 | No file: no change. Failed response: record unchanged, status error, progress 0. Parsed response: record becomes the merge, status success, progress 100. Uploading is false at the end, and the store's UI state is never touched. |
| KatakanaInput.DetectLanguage | components/forms/KatakanaNameInput.tsx:16-22 | The result is one of the three labels: Myanmar iff the first character is in U+1000-U+109F, Chinese iff it is in U+4E00-U+9FFF, English otherwise, including for an empty name. |
| KatakanaInput.OnlyFirstCharacterMatters | components/forms/KatakanaNameInput.tsx:18-20 | Names with the same first character get the same label. |
| KatakanaInput.KatakanaNameInput.constructor | components/forms/KatakanaNameInput.tsx:11-12 | No suggestion and not translating at the start. |
| KatakanaInput.KatakanaNameInput.Transliterate | components/forms/KatakanaNameInput.tsx:24-48 | An empty name sends nothing and changes nothing. Otherwise it sends the name with its detected language; an ok answer sets the suggestion, a failure keeps the old one; the field is untouched and translating ends false. |
| KatakanaInput.KatakanaNameInput.AcceptSuggestion | components/forms/KatakanaNameInput.tsx:50-55 | A non-empty suggestion moves into the katakana field and is cleared; otherwise nothing changes. |
| KatakanaInput.KatakanaNameInput.Dismiss | components/forms/KatakanaNameInput.tsx:109 | Clears the suggestion and leaves the field alone. |

## Left out

- The AI routes are not modelled: CV parsing, gap analysis, chat and transliteration are Gemini network calls. Their answers enter the model as parameters (`UploadResponse`, `TransliterateResponse`). The gap evaluator exists only as prompt text, so there is nothing deterministic to model.
- Authentication, the Gemini client set-up, the model-listing script and the chat sidebar are outside this model.
- Persistence of the store to local storage is not modelled, nor is the three-second timer that returns the upload status to idle.
- Clock reads are not modelled: the date the Rirekisho is made is a parameter.
- `Number()` coercion of age, height and weight is not modelled: these values are natural numbers here, so NaN and fractions are out of scope.
- Styling is not modelled: page geometry, fonts, borders, widths and font registration. Each form is modelled as its ordered text content.
- The PDF preview provider is not part of this model. It always renders the Rirekisho whatever the tier, unlike the router.
- String lengths count Unicode characters where JavaScript counts UTF-16 code units. They differ only for characters outside the Basic Multilingual Plane.
- A required key passed explicitly as `undefined` in a partial update is not representable: patches can omit a key but cannot set it to `undefined`.
- The form widgets, the other wizard steps, the step navigation and the react-hook-form/zustand wiring are outside this model.
- React's scheduling of state updates and effects is simplified: each handler's updates happen in order, and an effect runs immediately after the change that triggers it.
- ResumeStore.Store.UpdateEducation: requires an index in range. The source does not check the index. With an index equal to the length it appends the bare partial as a new entry. With a larger index it writes past the end and leaves holes. With a negative index it sets a property that is not a list position, and the list is unchanged. None of these cases is modelled.
- ResumeStore.Store.UpdateWorkHistory: requires an index in range, for the same reasons. The out-of-range cases are the same as for education and are not modelled.
- JapaneseDate.JapaneseFont: takes the weight as a number only; the source also accepts a string weight, which it ignores in the same way.
- WorkHistoryForm.WorkHistoryFields.Remove: requires an index in range, because the remove button exists only for existing items.
- CvUpload.CvUploader.HandleFileUpload: the file itself and the parser's confidence scores are not modelled. The parse route's schema (app/api/parse-cv/route.ts:7-31) makes personal info, education, work history and skills required, with the three lists as arrays, so an ok answer is taken to have that shape. Inside a parsed school or job the start and end dates are optional (route.ts:17-18 and :25-26); an absent date is represented as "", which both forms print as nothing, which fails the date pattern as an absent date does, and which is not "Current". A body of another shape is not modelled. For example, a string in place of a list would make the handler throw after the personal-info merge, which would leave a partly merged record with an error status.
