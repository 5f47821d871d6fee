# Portal de Vagas web client — a Dafny model

This project models the client-side core of a job board (portal de vagas). On it,
candidates apply to jobs, employers publish and manage them, and administrators
moderate them. The repository holds four overlapping copies of the client:
- the root app (`src/`);
- the `portal-vagas-web/` app;
- a shared `packages/core/` package;
- an `apps/web/` app.

Each core source file becomes one Dafny module, named after the file. Where two copies of a
file differ, each copy gets its own module. Lemmas relate the copies where their
behaviour is meant to agree, and show where it does not.

What the model covers:
- **State stores**:
  - `AppStore` is the portal's application store, covering jobs, applications,
    companies, statistics and notifications.
  - `AuthStore` is the root authentication store.
  - Both are classes whose methods update their fields in place.
- **Validation schemas**:
  - `JobSchemas`, `AuthSchemas`, and the step schemas of the registration wizard
    (`BasicInfoStep`, `ProfileStep`).
  - Each schema is a function from a form to its list of issues.
  - Each has a parse function that succeeds exactly when there are no issues.
- **Components with local state**:
  - `MultiStepRegister`, `JobsList`, `JobModeration`, `JobDetails`, `JobCard`,
    `DataTable`, `AppShell`.
  - Each becomes a class holding the component's state variables.
  - A handler is a method, and a rendered choice is a function.
- **Pure view logic**:
  - `Breadcrumbs` and `Status` (the status tables).
  - The route guards `ProtectedRoute` and `WebProtectedRoute`.
  - The menus `Header` and `WebHeader`.
- **Hooks**:
  - `AuthHook`, `UseJobs` and `UseApplications`.
  - Their query keys are functions, with proved prefix relations.
  - Their query functions and mutation callbacks are methods. They act on the store,
    on a `QueryKeys.QueryCache` and on a scripted `Fetching.Source`, which stands for
    the service call and hands out its results in order.
- **Services**:
  - `RootApi`, `PortalApi` and `CoreApi` are the three HTTP clients with their
    request and response interceptors: the token header, the 401 refresh-and-retry,
    and sign-out.
  - `PortalAuthService` and `CoreAuthService` cover token and user storage.
  - The two job services, `PortalJobsService` and `RootJobsService`, share the call
    catalogue in `JobsApi` and the query-string building in `SearchParams`.

Shared foundations:
- `Wrappers`: `Option` and `Result`.
- `Text`: decimal digits, split and join, trimming, prefixes and upper-casing.
- `Codec`: a length-prefixed encoding standing in for `JSON.stringify`/`JSON.parse`,
  with its round trip proved.
- `Entities`: the job, application, user and filter records, and the `Object.assign`
  merge.
- `Lists`: first-match update, filter-removal and their laws.
- `Storage`: `localStorage` as a class over a map.
- `Network`, `Fetching`, `Navigation` and `Validation`: small support modules.

Both sources of outside input are modelled explicitly:
- The HTTP clients talk to a `Network.Backend` object. It is scripted with the outcome
  of each request: a value, a 401, or another error.
- The hooks and the registration wizard call a `Fetching.Source` object in place of a
  service. It is scripted with each call's result and logs the calls.
- Browser storage is a `Storage.LocalStorage` object.

## Model

| member | source | states |
|---|---|---|
| AppStore.BumpCount | portal-vagas-web/src/core/stores/appStore.ts:108 | the counter bump raises `applicationsCount` by exactly one and leaves every other job field as it was |
| AppStore.MakeNotification | portal-vagas-web/src/core/stores/appStore.ts:138-144 | the new notification's id parses back to the first clock reading, its timestamp is the second reading, and kind and message come from the input |
| AppStore.AppStore.constructor | portal-vagas-web/src/core/stores/appStore.ts:57-68 | the store starts with empty lists, no current job, company or stats, and both loading flags false |
| AppStore.AppStore.SetJobs | portal-vagas-web/src/core/stores/appStore.ts:71-73 | the job list is replaced wholesale and every other field keeps its value |
| AppStore.AppStore.AddJob | portal-vagas-web/src/core/stores/appStore.ts:75-77 | the new job is at index 0, the list grows by one and the old jobs follow in order; nothing else changes |
| AppStore.AppStore.UpdateJob | portal-vagas-web/src/core/stores/appStore.ts:79-84 | the patch is merged into the first job with that id only, and the list is unchanged when no id matches (through `Lists.UpdateFirst`'s contract) |
| AppStore.AppStore.RemoveJob | portal-vagas-web/src/core/stores/appStore.ts:86-88 | every job with that id is dropped and the others keep their order (through `Lists.RemoveAll`'s contract) |
| AppStore.AppStore.SetCurrentJob | portal-vagas-web/src/core/stores/appStore.ts:90-92 | only the current job changes |
| AppStore.AppStore.SetJobsLoading | portal-vagas-web/src/core/stores/appStore.ts:94-96 | only the jobs loading flag changes |
| AppStore.AppStore.SetApplications | portal-vagas-web/src/core/stores/appStore.ts:99-101 | only the application list changes, to the given list |
| AppStore.AppStore.AddApplication | portal-vagas-web/src/core/stores/appStore.ts:103-110 | the application is prepended and the first job whose id is its jobId has its counter bumped; jobs are unchanged when none matches |
| AppStore.AppStore.UpdateApplication | portal-vagas-web/src/core/stores/appStore.ts:112-117 | first-match merge by id on the applications, no change when the id is absent |
| AppStore.AppStore.SetApplicationsLoading | portal-vagas-web/src/core/stores/appStore.ts:119-121 | only the applications loading flag changes |
| AppStore.AppStore.SetCompanies | portal-vagas-web/src/core/stores/appStore.ts:124-126 | only the company list changes |
| AppStore.AppStore.SetCurrentCompany | portal-vagas-web/src/core/stores/appStore.ts:128-130 | only the current company changes |
| AppStore.AppStore.SetStats | portal-vagas-web/src/core/stores/appStore.ts:133-135 | only the stats change, to the given record |
| AppStore.AppStore.AddNotification | portal-vagas-web/src/core/stores/appStore.ts:138-145 | the notification built from the two clock readings is appended at the end; nothing else changes |
| AppStore.AppStore.RemoveNotification | portal-vagas-web/src/core/stores/appStore.ts:147-149 | every notification with that id is dropped, the rest keep their order |
| AppStore.AppStore.ClearNotifications | portal-vagas-web/src/core/stores/appStore.ts:151-153 | the notification list becomes empty and nothing else changes |
| AppStore.BumpRaisesTotalByOne | portal-vagas-web/src/core/stores/appStore.ts:103-110 | the sum of the jobs' application counts grows by exactly one when a job has the application's jobId and stays put otherwise |
| AppStore.RemoveUndoesAddJob | portal-vagas-web/src/core/stores/appStore.ts:75-88 | adding a job with a fresh id and then removing that id gives back the original list |
| AppStore.RemoveAfterAddNotification | portal-vagas-web/src/core/stores/appStore.ts:140-149 | removing a just-appended notification's id has the same effect as removing it from the list before the append |
| AuthStore.AuthStore.constructor | src/core/stores/authStore.ts:20-22 | the initial state is no user, not authenticated and loading, which satisfies the invariant that a user is present iff someone is signed in |
| AuthStore.AuthStore.SetUser | src/core/stores/authStore.ts:24-28 | the user is recorded, the flag is true iff a user was given, loading ends, the invariant holds, and the record saved to storage becomes that user with that flag |
| AuthStore.AuthStore.SetLoading | src/core/stores/authStore.ts:30-32 | only the loading flag changes, the invariant is preserved, and the record saved to storage is unchanged |
| AuthStore.AuthStore.Logout | src/core/stores/authStore.ts:34-38 | user cleared, flag false, loading false, invariant holds, and the saved record becomes no user, signed out |
| AuthStore.AuthStore.Persisted | src/core/stores/authStore.ts:41-45 | the saved record holds the user and the flag and no loading flag; under the invariant the two agree. SetUser, SetLoading, Logout and Rehydrate state which record each leaves behind |
| AuthStore.AuthStore.Rehydrate | src/core/stores/authStore.ts:40-46 | restoring a saved record brings back its user and flag and keeps the loading flag; saving again gives the same record, and a record that satisfied the invariant restores it |
| MultiStepRegister.MergeLaws | src/components/auth/MultiStepRegister.tsx:37-39 | the shallow merge is an override: the empty patch is neutral, merging the same patch twice equals merging it once, and a patch of the data's own values changes nothing |
| MultiStepRegister.RenderStep | src/components/auth/MultiStepRegister.tsx:62-93 | index 0 shows the basic-info step, index 2 the confirmation, and no step is shown exactly outside 0..2 |
| MultiStepRegister.Wizard.constructor | src/components/auth/MultiStepRegister.tsx:22-27 | the wizard starts on step 0 with empty email and password and role CANDIDATE |
| MultiStepRegister.Wizard.UpdateFormData | src/components/auth/MultiStepRegister.tsx:37-39 | the form data becomes the merge of the old data and the patch; the step is unchanged |
| MultiStepRegister.Wizard.NextStep | src/components/auth/MultiStepRegister.tsx:31-45 | the step advances only below the last of the three steps, the data is unchanged, and 0..2 is preserved |
| MultiStepRegister.Wizard.PrevStep | src/components/auth/MultiStepRegister.tsx:47-51 | the step goes back only above 0, the data is unchanged, and 0..2 is preserved |
| MultiStepRegister.Wizard.HandleSubmit | src/components/auth/MultiStepRegister.tsx:53-60 | the wizard's collected data, unchanged, is the one request sent for registration; navigation to '/' happens exactly when that request succeeds, and a failure navigates nowhere |
| Breadcrumbs.DropEmpty | src/shared/components/Breadcrumbs.tsx:11 | none of the kept pieces is empty, each comes from the input, and every non-empty input piece is kept; order and multiplicity are stated by `Breadcrumbs.DropEmptyFilters` |
| Breadcrumbs.Segments | src/shared/components/Breadcrumbs.tsx:11 | every segment is non-empty and contains no '/' |
| Breadcrumbs.DropEmptyKeepsNonEmpty | src/shared/components/Breadcrumbs.tsx:11 | the filter leaves a list with no empty pieces exactly as it was |
| Breadcrumbs.DropEmptyFilters | src/shared/components/Breadcrumbs.tsx:11 | `filter(x => x)` on strings is the list filter that drops the empty string: the kept pieces are a subsequence of the input, and each non-empty piece occurs as often as in the input |
| Breadcrumbs.SegmentsArePieces | src/shared/components/Breadcrumbs.tsx:11 | for every path, the segments are the non-empty pieces of its split on '/', in order and with their repetitions, and the segments around a slash are those of each side, so runs of slashes never add a segment |
| Breadcrumbs.Label | src/shared/components/Breadcrumbs.tsx:17-31 | a segment in the ten-entry table gets the table's label; any other keeps its length and text with its first character upper-cased |
| Breadcrumbs.Items | src/shared/components/Breadcrumbs.tsx:13-35 | one item per segment, in path order, each with the segment's label and its prefix path |
| Breadcrumbs.Breadcrumbs | src/shared/components/Breadcrumbs.tsx:38-58 | nothing is rendered exactly for '/', '/login' and '/register'; otherwise the trail's home icon goes to '/' and the trail has one item per segment |
| Breadcrumbs.TrailingSlashShows | src/shared/components/Breadcrumbs.tsx:47-51 | '/login/' is not one of the hidden paths: it renders, with the single segment 'login' |
| Breadcrumbs.ItemPathRoundTrip | src/shared/components/Breadcrumbs.tsx:14 | item i's path, split into segments again, is exactly the first i+1 segments |
| Breadcrumbs.ItemPathsNest | src/shared/components/Breadcrumbs.tsx:14 | each item's path is the previous item's path followed by '/' and its own segment |
| JobSchemas.JobIssues | portal-vagas-web/src/shared/validators/jobSchemas.ts:3-20 | no issue exactly when the job is valid (title ≥ 3, description ≥ 10, location ≥ 2, salaries numbers ≥ 0 when present, a known type, the salary order); a title, description or location left undefined is reported as 'Required' on its path, and a salary that is not a number as 'Expected number, received …'; the order issue on path salaryMax appears exactly when the parse was not aborted (no missing text field, no wrong-typed salary and no unknown type) and the refinement fails |
| JobSchemas.SalaryIssues | portal-vagas-web/src/shared/validators/jobSchemas.ts:9-10 | an absent salary or a number ≥ 0 gives no issue; a value of another type gives 'Expected number, received …' on its path; the order message never comes from here |
| JobSchemas.ParseJob | portal-vagas-web/src/shared/validators/jobSchemas.ts:3-20 | parsing succeeds iff the job is valid; on success every salary was a number and is kept, remote defaults to false, the type to FULL_TIME, and the other fields pass through; on failure the (non-empty) issues are reported |
| JobSchemas.ZeroMinimumSkipsOrderCheck | portal-vagas-web/src/shared/validators/jobSchemas.ts:12-16 | a zero minimum salary is falsy, so any non-negative maximum passes the refinement |
| JobSchemas.MissingTitleSkipsOrderCheck | portal-vagas-web/src/shared/validators/jobSchemas.ts:3-20 | a job with no title and salaries out of order reports only 'Required' on title: the missing title aborts the object and the refinement does not run |
| JobSchemas.InvalidTypeSkipsOrderCheck | portal-vagas-web/src/shared/validators/jobSchemas.ts:11-20 | with an unknown type the refinement does not run: salaries out of order then give only the type issue |
| JobSchemas.SalaryOrderBoundary | portal-vagas-web/src/shared/validators/jobSchemas.ts:13-15 | equal salaries pass, and a non-zero maximum below the minimum fails |
| JobSchemas.CompanyIssues | portal-vagas-web/src/shared/validators/jobSchemas.ts:22-28 | no issue exactly when the name has ≥ 2 characters and the website is absent, empty or a URL; issues only ever name those two fields |
| JobSchemas.EmptyWebsiteAccepted | portal-vagas-web/src/shared/validators/jobSchemas.ts:25 | the empty website passes whatever the URL recogniser says |
| AuthSchemas.LoginIssues | src/shared/validators/authSchemas.ts:3-6 | no issue exactly when the email is recognised and the password has ≥ 6 characters; the password issue appears exactly when it is shorter |
| AuthSchemas.RegisterIssues | src/shared/validators/authSchemas.ts:8-14 | no issue exactly when email, password and a role among CANDIDATE and EMPLOYER are given; the required-role message appears exactly when no role was chosen |
| AuthSchemas.ProfileIssues | src/shared/validators/authSchemas.ts:16-21 | no issue exactly when the full name has ≥ 2 characters; the other fields are optional |
| AuthSchemas.RegisterStrongerThanLogin | src/shared/validators/authSchemas.ts:3-14 | a valid registration carries a valid login, and role ADMIN is always rejected |
| AuthSchemas.PasswordThreshold | src/shared/validators/authSchemas.ts:5-10 | six characters are accepted and five rejected, in both login and registration |
| BasicInfoStep.BasicInfoIssues | src/components/auth/steps/BasicInfoStep.tsx:9-13 | no issue exactly when the email is recognised, the password has ≥ 6 characters and the role is CANDIDATE or EMPLOYER |
| BasicInfoStep.ParseBasicInfo | src/components/auth/steps/BasicInfoStep.tsx:9-25 | parsing succeeds iff the step is valid, and the parsed values overwrite exactly email, password and role of whatever they are merged into |
| BasicInfoStep.SelectorRolesAccepted | src/components/auth/steps/BasicInfoStep.tsx:89-99 | both values the account-type selector sets pass the role check |
| BasicInfoStep.AgreesWithRegisterSchema | src/components/auth/steps/BasicInfoStep.tsx:9-13 | the step accepts exactly what the registration schema accepts for the same email, password and chosen role |
| BasicInfoStep.OnSubmit | src/components/auth/steps/BasicInfoStep.tsx:27-30 | on valid values the wizard's data takes the three parsed fields (the update) and then the step advances (next); on invalid values nothing changes |
| ProfileStep.SchemaFor | src/components/auth/steps/ProfileStep.tsx:40 | the candidate schema is chosen exactly for role CANDIDATE; every other role gets the employer schema |
| Validation.MinField | src/components/auth/steps/ProfileStep.tsx:9-19 | a required text field reports no issue exactly when it is present with the minimum length; a missing one reports 'Required' on its path |
| ProfileStep.ProfileIssues | src/components/auth/steps/ProfileStep.tsx:9-40 | no issue exactly when the chosen schema holds: name ≥ 2, phone ≥ 10, location ≥ 2 for a candidate; company name ≥ 2, CNPJ ≥ 14, sector ≥ 2 otherwise |
| ProfileStep.ParseProfile | src/components/auth/steps/ProfileStep.tsx:40-45 | parsing succeeds iff the chosen schema holds, and the parsed values overwrite exactly that schema's three fields |
| ProfileStep.SectorNotCheckedAgainstList | src/components/auth/steps/ProfileStep.tsx:18-37 | a sector outside the dropdown's list passes: the sector is checked by length only |
| ProfileStep.OnSubmit | src/components/auth/steps/ProfileStep.tsx:47-50 | on valid values the parsed fields are merged into the wizard's data and the step advances; on invalid values nothing changes |
| ProfileStep.OnBack | src/components/auth/steps/ProfileStep.tsx:204-210 | 'Voltar' goes back one step without validating and without touching the data |
| ProfileStep.ProfileKeepsAccount | src/components/auth/steps/ProfileStep.tsx:47-50 | merging the profile keeps the email, password and role of the first step |
| JobForm.IsEdit | portal-vagas-web/src/features/employers/JobForm.tsx:8-10 | the form edits exactly when the route id is present and non-empty |
| JobForm.ConvertSalary | portal-vagas-web/src/features/employers/JobForm.tsx:85-86 | a salary becomes undefined exactly when it is falsy; a non-zero number is kept; a non-empty text becomes a number exactly when it is integer text, and then the number it spells |
| JobForm.Process | portal-vagas-web/src/features/employers/JobForm.tsx:83-87 | every field but the salaries passes through unchanged, and each salary is undefined exactly when it was falsy |
| JobForm.FormNeverSubmits | portal-vagas-web/src/features/employers/JobForm.tsx:118-124 | as written the resolver hands `z.number()` the salary inputs' strings, so every submit is refused with 'Expected number, received string' on both salaries and the handler never runs |
| JobForm.Preprocess | portal-vagas-web/src/features/employers/JobForm.tsx:85-86 | the conversion applied before validation: empty text is no salary, integer text the number it spells, and any other text NaN |
| JobForm.Resolve | portal-vagas-web/src/features/employers/JobForm.tsx:118-124 | the resolver with salaries converted first: text that spells no integer is refused; an accepted form keeps its typed fields and has as salaries the numbers their texts spell |
| JobForm.Submit | portal-vagas-web/src/features/employers/JobForm.tsx:80-105 | a submit is refused exactly when the resolver refuses, with issues; otherwise the handler gets the typed fields, a salary survives exactly when its text spells a non-zero integer and then equals it, and the toast and navigation are `JobForm.OnSubmitted`'s |
| JobForm.DefaultsSubmit | portal-vagas-web/src/features/employers/JobForm.tsx:73-105 | a form with long enough text and untouched salaries, type and remote flag is submitted as a full-time, on-site job without salaries |
| JobForm.TypedSalariesSubmit | portal-vagas-web/src/features/employers/JobForm.tsx:80-87 | salaries typed in order reach the handler as the numbers typed |
| JobForm.SalariesOutOfOrderRefused | portal-vagas-web/src/shared/validators/jobSchemas.ts:12-20 | salaries typed out of order with a known type are refused, and the order message on salaryMax is among the issues exactly when title, description and location were all filled in |
| JobForm.UntouchedFieldsRequired | portal-vagas-web/src/features/employers/JobForm.tsx:73-78 | the defaults leave title, description and location undefined; each one still undefined at submit is refused with 'Required' on its path, and the untouched form is refused with exactly those three issues |
| JobForm.InitialValuesLaws | portal-vagas-web/src/features/employers/JobForm.tsx:73-78 | the form starts on the schema's default type FULL_TIME, on-site, and with empty salary texts, which the converting resolver reads as no salary |
| JobForm.SalaryTextRoundTrip | portal-vagas-web/src/features/employers/JobForm.tsx:85-86 | the decimal text of any integer, converted before validation, is that integer |
| JobForm.ZeroSalary | portal-vagas-web/src/features/employers/JobForm.tsx:85-86 | a typed '0' reaches the schema as the number 0, while the handler drops a numeric 0 as falsy |
| JobForm.FromParsed | portal-vagas-web/src/features/employers/JobForm.tsx:80-87 | a schema-parsed job hands the handler a salary exactly when the schema kept one |
| JobForm.ParsedSalaries | portal-vagas-web/src/features/employers/JobForm.tsx:83-87 | for a job the schema accepted, a salary survives processing exactly when it is non-zero, keeps its value, and two surviving salaries keep the order the schema checked |
| JobForm.OnSubmitted | portal-vagas-web/src/features/employers/JobForm.tsx:100-101 | the success message is the update message exactly when editing and the create message otherwise, and navigation always goes to '/employer/jobs' |
| Status.JobStatus | src/shared/utils/status.ts:9-17 | an unknown job status shows itself as label with the secondary severity and no icon; the four known ones carry an icon |
| Status.ApplicationStatus | src/shared/utils/status.ts:19-27 | the same fallback for application statuses; the four known ones carry an icon and a non-secondary severity |
| Status.SeveritiesDistinct | src/shared/utils/status.ts:10-25 | within each table the four known statuses have pairwise distinct severities |
| Status.SharedStatusesAgree | src/shared/utils/status.ts:11-23 | APPROVED, PENDING and REJECTED get the same label, severity and icon in both tables |
| Status.InterviewOnlyForApplications | src/shared/utils/status.ts:9-27 | INTERVIEW is 'Entrevista' with the info severity and an icon in the application table, the only application status with that severity, while no job status is info and the job table shows INTERVIEW as itself |
| JobsList.StatusBadge | src/features/employers/JobsList.tsx:21-29 | any status outside the four known ones shows the 'Rascunho' badge |
| JobsList.BadgeAgreesWithStatusTable | src/features/employers/JobsList.tsx:21-29 | on the four known statuses the badge matches the shared status table, and on any other status it differs from it: the table shows the status itself, the badge 'Rascunho' |
| JobsList.RowActions | src/features/employers/JobsList.tsx:101-130 | the send-for-approval action is offered exactly for DRAFT rows; view comes first and delete last |
| JobsList.RowActionsAgreeWithStatusTable | src/features/employers/JobsList.tsx:21-130 | a row offering send-for-approval shows the draft badge, which is the status table's 'Rascunho'; for a known status the draft badge and the action go together; an unknown status shows the draft badge without the action |
| JobsList.CountShown | src/features/employers/JobsList.tsx:62 | on a row typed `any`, a missing applications count shows as 0, a present one as itself |
| JobsList.EditPath | src/features/employers/JobsList.tsx:75 | the edit path is '/employer/jobs/', then text that parses back to the row's id, then '/edit', so it fills the ':id' of the edit route |
| JobsList.DeleteDialog.constructor | src/features/employers/JobsList.tsx:16-17 | the dialog starts hidden with no job selected |
| JobsList.DeleteDialog.HandleDelete | src/features/employers/JobsList.tsx:88-91 | the job becomes the selection and the dialog opens |
| JobsList.DeleteDialog.ConfirmDelete | src/features/employers/JobsList.tsx:93-99 | with a selection the dialog closes and the selection is cleared; reading the id of a missing selection throws before any change |
| JobsList.DeleteDialog.Reject | src/features/employers/JobsList.tsx:216-221 | rejecting or hiding the dialog closes it and keeps the selection |
| JobsList.AcceptWhileOpen | src/features/employers/JobsList.tsx:214-221 | accepting an open dialog never throws, and closes it with the selection cleared |
| JobModeration.SalaryColumn | src/features/admin/JobModeration.tsx:54-59 | a range 'R$ min - R$ max' exactly when both salaries are truthy, 'A combinar' otherwise; `JobModeration.SalaryColumnAgreesWithDetailsPage` compares it with the public job page |
| JobModeration.SalaryColumnAgreesWithDetailsPage | src/features/admin/JobModeration.tsx:54-59 | for every job: with both salaries truthy the column and the public job page show the same range; with only the minimum the column says 'A combinar' where the page says 'A partir de R$ min'; with no truthy minimum both say the salary is to be agreed |
| JobModeration.Badge | src/features/admin/JobModeration.tsx:223-226 | the badge shows the pending count, 0 when unknown, and is in warning colours exactly when the count is non-zero, success colours otherwise |
| JobModeration.BadgeAgreesWithStatusTable | src/features/admin/JobModeration.tsx:223-226 | the badge text reads back as the pending count followed by ' Pendentes', and its colour is the status table's colour for PENDING when jobs are pending, for APPROVED when none are |
| JobModeration.ConfirmDisabled | src/features/admin/JobModeration.tsx:163 | the confirm button is disabled exactly when the reason trims to nothing |
| JobModeration.Moderation.constructor | src/features/admin/JobModeration.tsx:13-16 | nothing selected, both dialogs hidden, empty reason |
| JobModeration.Moderation.HandleViewDetails | src/features/admin/JobModeration.tsx:93-96 | the job is selected and the details dialog opens; the rejection state is untouched |
| JobModeration.Moderation.OpenRejectDialog | src/features/admin/JobModeration.tsx:98-101 | the job is selected and the rejection dialog opens; the reason is kept |
| JobModeration.Moderation.EditReason | src/features/admin/JobModeration.tsx:314-315 | typing replaces the reason and changes nothing else |
| JobModeration.Moderation.HandleReject | src/features/admin/JobModeration.tsx:77-91 | nothing is sent without a selection; otherwise the untrimmed reason is sent for the selected id, and only a successful request closes the dialog and clears reason and selection; a failure leaves the state as it was |
| JobModeration.Moderation.ClickConfirm | src/features/admin/JobModeration.tsx:159-165 | a click while the button is disabled does nothing, so every reason sent holds a non-whitespace character; an enabled click sends the selected job's id with the reason as typed (nothing without a selection), and only a successful request closes the dialog and clears reason and selection |
| JobModeration.Moderation.Cancel | src/features/admin/JobModeration.tsx:166-173 | 'Cancelar' hides the rejection dialog and clears the reason |
| JobModeration.Moderation.HideReject | src/features/admin/JobModeration.tsx:299 | closing the dialog otherwise hides it and keeps the reason |
| JobModeration.Moderation.DetailsApprove | src/features/admin/JobModeration.tsx:69-75 | approves the selected job's id (none without a selection, the failure being swallowed) and closes the details dialog |
| JobModeration.Moderation.DetailsReject | src/features/admin/JobModeration.tsx:140-148 | closes the details dialog and opens the rejection dialog on the same job |
| JobModeration.Moderation.CloseDetails | src/features/admin/JobModeration.tsx:149-153 | closes the details dialog and changes nothing else |
| JobDetails.FormatSalary | src/pages/public/JobDetailsPage.tsx:22-32 | no job gives 'Salário a combinar'; both salaries truthy give the range; only the minimum gives 'A partir de R$ min'; otherwise, including only the maximum, 'Salário a combinar' |
| JobDetails.JobTypeLabel | src/pages/public/JobDetailsPage.tsx:34-44 | no job gives the empty text and an unknown code is shown as itself |
| JobDetails.Render | src/pages/public/JobDetailsPage.tsx:61-117 | loading wins over an error, an error over a missing job; the details are shown exactly when none of those holds, with the fetched job and the apply area for the signed-in state |
| JobDetails.ApplyAreaFor | src/pages/public/JobDetailsPage.tsx:139-199 | the apply button exactly for a signed-in candidate, the sign-in prompt exactly for a signed-out visitor, and the candidates-only notice for anyone else |
| JobDetails.RenderAuthIndependent | src/pages/public/JobDetailsPage.tsx:59-199 | signing in or out never changes which state the page shows, only the apply area, and the apply button shows exactly when a click on it opens the application form |
| JobDetails.DetailsPage.constructor | src/pages/public/JobDetailsPage.tsx:18 | the application form starts closed |
| JobDetails.DetailsPage.HandleApply | src/pages/public/JobDetailsPage.tsx:46-59 | a signed-out visitor is sent to '/login', a signed-in user is not navigated, and the application form opens exactly for a signed-in candidate |
| JobCard.FormatSalary | portal-vagas-web/src/components/ui/JobCard.tsx:20-28 | the card's salary text, written out separately, is the root details page's text for every job: a range when both ends are truthy, a lower bound when only the minimum is, 'Salário a combinar' otherwise |
| JobCard.JobPath | portal-vagas-web/src/components/ui/JobCard.tsx:34-47 | the job page path is '/jobs/' followed by text that parses back to the job's id |
| JobCard.Footer | portal-vagas-web/src/components/ui/JobCard.tsx:90-104 | the apply button appears exactly when a candidate is signed in, the login button exactly when nobody is, and neither for other signed-in users |
| JobCard.FooterAgreesWithDetailsPage | portal-vagas-web/src/components/ui/JobCard.tsx:90-104 | the card's footer and the root details page make the same offer: apply button with apply button, login button with sign-in prompt, nothing with the candidates-only notice |
| JobCard.Card.constructor | portal-vagas-web/src/components/ui/JobCard.tsx:15-18 | the card holds its job with the application form closed |
| JobCard.Card.HandleApply | portal-vagas-web/src/components/ui/JobCard.tsx:30-50 | a signed-out visitor goes to '/login' remembering '/jobs/{id}', another signed-in user goes to '/jobs/{id}', and exactly a signed-in candidate gets the form opened without navigating |
| JobCard.Card.HandleViewDetails | portal-vagas-web/src/components/ui/JobCard.tsx:46-48 | 'Detalhes' always goes to '/jobs/{id}' |
| ProtectedRoute.DashboardPath | src/components/layout/ProtectedRoute.tsx:49-51 | ADMIN maps to '/admin/dashboard', EMPLOYER to '/employer/dashboard', and exactly every other role to '/candidate/dashboard' |
| ProtectedRoute.Guard | src/components/layout/ProtectedRoute.tsx:16-60 | the spinner exactly while loading; otherwise a replacing redirect to '/login' remembering the location exactly when not signed in or without a user; the content exactly for an admitted user (no role list, or the role in it); the restricted card, with '/' and the user's dashboard, for a role not in the list |
| ProtectedRoute.GuardMonotone | src/components/layout/ProtectedRoute.tsx:28 | admitting more roles never takes access away, no list admits at least as much as any list, and an empty list shuts every user out |
| ProtectedRoute.RestrictedDashboardIsElsewhere | src/components/layout/ProtectedRoute.tsx:28-58 | a user refused by an admin-only or employer-only route is never offered that route's own dashboard |
| WebProtectedRoute.Guard | apps/web/src/components/layout/ProtectedRoute.tsx:9-29 | the spinner exactly while loading; a replacing redirect to '/login' exactly without a user; a replacing redirect to '/' exactly for a role not admitted; the content exactly for an admitted user |
| WebProtectedRoute.AgreesWithRootGuard | apps/web/src/components/layout/ProtectedRoute.tsx:12-28 | when the sign-in flag agrees with the user, the web guard and the root guard grant the content and show the spinner in exactly the same cases, and the web guard's redirect to '/' happens exactly where the root guard shows its restricted card |
| AuthHook.RedirectPath | portal-vagas-web/src/shared/hooks/useAuth.ts:20-39 | the remembered origin is used when present, non-empty and neither '/login' nor '/register'; otherwise ADMIN, EMPLOYER and CANDIDATE go to their dashboards and any other role to '/' |
| AuthHook.RedirectPathLaws | portal-vagas-web/src/shared/hooks/useAuth.ts:20-39 | login never lands on a sign-in page; without an origin it agrees with the registration redirect on the three known roles only, because an unknown role goes to '/' after login but to the candidate dashboard after registering |
| AuthHook.AuthHook.constructor | portal-vagas-web/src/shared/hooks/useAuth.ts:9-13 | the hook works on the given auth store and storage |
| AuthHook.AuthHook.Mount | portal-vagas-web/src/shared/hooks/useAuth.ts:15-18 | the store's user becomes the user read back from storage, loading ends, storage is untouched, and store and storage agree |
| AuthHook.AuthHook.OnLoginSuccess | portal-vagas-web/src/shared/hooks/useAuth.ts:43-51 | the session is written to storage, the user is signed in in the store, and navigation replaces the page with the redirect path |
| AuthHook.AuthHook.OnRegisterSuccess | portal-vagas-web/src/shared/hooks/useAuth.ts:59-69 | as after login, but navigation always goes to the role's dashboard, ignoring any origin |
| AuthHook.AuthHook.Logout | portal-vagas-web/src/shared/hooks/useAuth.ts:83-88 | exactly the three session keys leave storage, the store is signed out, and navigation replaces the page with '/' |
| AppShell.RoleEntries | src/shared/components/AppShell.tsx:24-126 | a candidate has 4 entries, an employer or administrator 5, any other role none; the first entry is always 'Dashboard' pointing at the role's dashboard |
| AppShell.EntriesHaveDistinctUrls | src/shared/components/AppShell.tsx:24-122 | within each role's list no two entries point at the same url |
| AppShell.Mark | src/shared/components/AppShell.tsx:22 | an entry's item keeps its caption, icon, url and badge, and is active exactly when the pathname equals its url |
| AppShell.SidebarItems | src/shared/components/AppShell.tsx:19-127 | no items without a signed-in user; otherwise the role's entries in order, each active exactly when its url equals the pathname |
| AppShell.AtMostOneActive | src/shared/components/AppShell.tsx:22-122 | at most one sidebar item is active at a time |
| AppShell.DashboardItemActive | src/shared/components/AppShell.tsx:22-32 | on a known role's own dashboard the first item is the active one |
| AppShell.Shell.constructor | src/shared/components/AppShell.tsx:14 | the sidebar starts closed |
| AppShell.Shell.ToggleMenu | src/shared/components/AppShell.tsx:131 | the menu button opens the sidebar |
| AppShell.Shell.HideSidebar | src/shared/components/AppShell.tsx:136 | the sidebar's close control hides it |
| AppShell.Shell.Render | src/shared/components/AppShell.tsx:133-140 | the sidebar is rendered exactly when signed in, with the current open flag and the computed items |
| Header.MenuItems | portal-vagas-web/src/components/layout/Header.tsx:16-85 | the first item is always 'Vagas' → '/'; a visitor, a flag set with no user or an unknown role get only that item; a candidate or administrator get 3 items, an employer 4; the second item is 'Dashboard' leading to the role's dashboard |
| Header.MenuWithinSidebar | portal-vagas-web/src/components/layout/Header.tsx:28-84 | every role item of the menu bar leads to a page that the root shell's sidebar, mounted beside its header, lists for that role, with the same badge |
| Header.AvatarPath | portal-vagas-web/src/components/layout/Header.tsx:117-121 | the avatar leads to the administrator's or employer's dashboard, and to the candidate's for any other role or no user |
| Header.EndControls | portal-vagas-web/src/components/layout/Header.tsx:107-154 | signed in exactly when the flag is set, then the avatar's dashboard, the email when a user is present, and sign-out; otherwise 'Entrar' → '/login' and 'Cadastrar' → '/register' |
| Header.EndControlsAgreeWithGuard | portal-vagas-web/src/components/layout/Header.tsx:107-154 | where the root route guard sends a visitor to sign in, the bar offers 'Entrar' to that page; where the guard shows a signed-in user the restricted card, the avatar leads to the card's dashboard target, as does the role's first menu item |
| Header.MenuToggleGoesWithSignedInControls | portal-vagas-web/src/components/layout/Header.tsx:88-94 | the menu toggle (`ShowsMenuToggle`) appears exactly when the shell passed a handler and the bar ends with the signed-in controls; never beside 'Entrar' |
| WebHeader.DashboardLink | apps/web/src/components/layout/Header.tsx:9-17 | no user gives '/', the three known roles give their dashboards, and any other role gives '/' |
| WebHeader.DashboardLinkIsLoginRedirect | apps/web/src/components/layout/Header.tsx:9-17 | the web dashboard link equals the portal's login redirect without an origin, for every role, and differs from the root app's dashboard button for an unknown role |
| WebHeader.EndControls | apps/web/src/components/layout/Header.tsx:26-45 | signed in exactly when the flag is set, then the dashboard link, the email when a user is present, and logout; otherwise login and register links |
| WebHeader.EndControlsAgreeWithGuard | apps/web/src/components/layout/Header.tsx:26-45 | with the flag in step with the user, a visitor is offered the login page the web guard redirects to, a signed-in user is never sent there, and a user whose role has no dashboard has a dashboard link equal to where the guard sends a refused user |
| UseApplications.ListsKey | portal-vagas-web/src/shared/hooks/useApplications.ts:10 | the lists key extends the root key by one part |
| UseApplications.CandidateKey | portal-vagas-web/src/shared/hooks/useApplications.ts:11 | the candidate key extends the lists key by 'candidate' and the page |
| UseApplications.EmployerKey | portal-vagas-web/src/shared/hooks/useApplications.ts:12 | the employer key extends the lists key by 'employer' and the page |
| UseApplications.JobKey | portal-vagas-web/src/shared/hooks/useApplications.ts:13 | the per-job key extends the root key but not the lists key |
| UseApplications.KeyHierarchy | portal-vagas-web/src/shared/hooks/useApplications.ts:8-14 | every list key reaches back to the root key, a candidate key never equals an employer key, and two candidate keys are equal exactly when their pages are |
| UseApplications.CandidateEnabled | portal-vagas-web/src/shared/hooks/useApplications.ts:34 | the candidate list query runs exactly for a signed-in user whose role is CANDIDATE; its partner is `UseApplications.AtMostOneListQuery` |
| UseApplications.EmployerEnabled | portal-vagas-web/src/shared/hooks/useApplications.ts:57 | the employer list query runs exactly for a signed-in user whose role is EMPLOYER; its partner is `UseApplications.AtMostOneListQuery` |
| UseApplications.JobQueryEnabled | portal-vagas-web/src/shared/hooks/useApplications.ts:66 | a job's applications are fetched only for a truthy, that is non-zero, job id |
| UseApplications.AtMostOneListQuery | portal-vagas-web/src/shared/hooks/useApplications.ts:34-57 | the candidate and employer list queries are never both enabled |
| UseApplications.FetchApplications | portal-vagas-web/src/shared/hooks/useApplications.ts:22-56 | the request is made with the loading flag on; afterwards the flag is off whatever the outcome, the store's applications are replaced by the response exactly when it succeeded on page 0, and the result is the response or the error |
| UseApplications.OnStatusUpdated | portal-vagas-web/src/shared/hooks/useApplications.ts:79-88 | the lists key and the job's own key are invalidated, in that order, and the updated application is merged into the store |
| UseApplications.StatusUpdateReplaces | portal-vagas-web/src/shared/hooks/useApplications.ts:87 | after a status update the first application with that id is exactly the updated one, every other one is unchanged, and nothing changes when the id is absent |
| UseApplications.CountStatus | portal-vagas-web/src/shared/hooks/useApplications.ts:103-106 | a status count never exceeds the number of applications |
| UseApplications.Stats | portal-vagas-web/src/shared/hooks/useApplications.ts:98-110 | the total is the number of applications and each count is at most the total |
| UseApplications.KnownStatusesSumToTotal | portal-vagas-web/src/shared/hooks/useApplications.ts:101-107 | when every status is one of the four known ones, the four counts add up to the total |
| UseApplications.PrependCounts | portal-vagas-web/src/shared/hooks/useApplications.ts:101-107 | prepending an application adds one to the total and one to its own status's count, and leaves the other counts |
| QueryKeys.QueryCache.constructor | portal-vagas-web/src/shared/hooks/useJobs.ts:53 | the cache starts with no entries and no invalidations |
| QueryKeys.QueryCache.InvalidateQueries | portal-vagas-web/src/shared/hooks/useJobs.ts:61 | an invalidation is recorded and no entry changes |
| QueryKeys.QueryCache.SetQueryData | portal-vagas-web/src/shared/hooks/useJobs.ts:85-88 | the entry under exactly that key is written and nothing else changes |
| QueryKeys.QueryCache.RemoveQueries | portal-vagas-web/src/shared/hooks/useJobs.ts:111 | exactly the entries whose keys extend the given key are removed |
| UseJobs.ListsKey | portal-vagas-web/src/shared/hooks/useJobs.ts:10 | ['jobs', 'list'], extending the root key |
| UseJobs.ListKey | portal-vagas-web/src/shared/hooks/useJobs.ts:11 | a list key extends the lists key by the filters object |
| UseJobs.DetailsKey | portal-vagas-web/src/shared/hooks/useJobs.ts:12 | ['jobs', 'detail'], extending the root key |
| UseJobs.DetailKey | portal-vagas-web/src/shared/hooks/useJobs.ts:13 | a detail key extends the details key by the id |
| UseJobs.StatsKey | portal-vagas-web/src/shared/hooks/useJobs.ts:14 | ['jobs', 'stats'], extending the root key |
| UseJobs.KeyHierarchy | portal-vagas-web/src/shared/hooks/useJobs.ts:8-15 | list and detail keys reach back to the root key; no detail key and not the employer key lie under the lists key; one detail key extends another exactly when the ids are equal |
| UseJobs.DetailKeyOf | portal-vagas-web/src/shared/hooks/useJobs.ts:84-114 | the detail key the mutations write carries the id's decimal text, which parses back to the id |
| UseJobs.DetailKeyInjective | portal-vagas-web/src/shared/hooks/useJobs.ts:13 | two job ids share a detail key exactly when they are equal |
| UseJobs.FetchJobs | portal-vagas-web/src/shared/hooks/useJobs.ts:17-35 | the request is made with the loading flag on; afterwards the flag is off whatever the outcome and the store's jobs are the response's content exactly on success |
| UseJobs.JobQueryEnabled | portal-vagas-web/src/shared/hooks/useJobs.ts:47 | a job is fetched only for a truthy, that is non-empty, id; `UseJobs.FetchJob` requires it |
| UseJobs.FetchJob | portal-vagas-web/src/shared/hooks/useJobs.ts:37-50 | for a non-empty id, a fetched job becomes the current job; the loading flag is not touched |
| UseJobs.OnCreated | portal-vagas-web/src/shared/hooks/useJobs.ts:59-67 | the lists key is invalidated and the new job is put first in the store |
| UseJobs.OnUpdated | portal-vagas-web/src/shared/hooks/useJobs.ts:82-94 | the lists key is invalidated, the job's detail entry is written, and the job is merged into the store |
| UseJobs.UpdateAgrees | portal-vagas-web/src/shared/hooks/useJobs.ts:85-91 | after an update the detail entry and the first listed job with that id are both the updated job, and the list is unchanged when the id is absent |
| UseJobs.OnDeleted | portal-vagas-web/src/shared/hooks/useJobs.ts:108-117 | the lists key is invalidated, the job's detail entry is removed, and no job with that id is left in the store |
| UseJobs.OnApplied | portal-vagas-web/src/shared/hooks/useJobs.ts:132-140 | every application query is invalidated, the application is prepended in the store and its job's count bumped |
| UseJobs.EmployerJobs | portal-vagas-web/src/shared/hooks/useJobs.ts:159 | the query's content whenever the query has data, even an empty page, and the store's jobs otherwise; `UseJobs.EmployerListAfterDelete` states what a deletion does to it |
| UseJobs.EmployerLoading | portal-vagas-web/src/shared/hooks/useJobs.ts:160 | loading exactly when the query or the store is loading; `UseJobs.EmployerViewAroundStoreFetch` follows it through a store fetch |
| UseJobs.EmployerListAfterDelete | portal-vagas-web/src/shared/hooks/useJobs.ts:147-162 | a deletion hides the job from the employer list only while the list comes from the store; once the employer query has a page, the store's removal does not show and the lists invalidation does not reach the employer key |
| UseJobs.EmployerViewAroundStoreFetch | portal-vagas-web/src/shared/hooks/useJobs.ts:147-162 | during a store fetch the employer view is loading; afterwards it is loading exactly while its own query is, and before its query has data it lists what the fetch left in the store |
| DataTable.DensityKey | src/shared/components/DataTable.tsx:69 | the density key exists exactly for a non-empty id, and is 'pv_dt_density_' followed by it |
| DataTable.ColumnsKey | src/shared/components/DataTable.tsx:70 | the columns key exists exactly for a non-empty id, and is 'pv_dt_cols_' followed by it |
| DataTable.KeysDistinct | src/shared/components/DataTable.tsx:69-70 | a table's two keys differ from each other and from the three session keys, so saving preferences never touches the session |
| DataTable.Fields | src/shared/components/DataTable.tsx:74-79 | the list of every column's field, in column order |
| DataTable.InitialDense | src/shared/components/DataTable.tsx:71-72 | the `dense` prop when given; otherwise compact exactly when a key exists and storage holds 'compact' under it |
| DataTable.InitialVisible | src/shared/components/DataTable.tsx:73-81 | every field when there is no key, no saved value or a value that does not decode; the saved list otherwise |
| DataTable.Rendered | src/shared/components/DataTable.tsx:178 | every rendered column comes from the columns and has a visible field, and every column with a visible field is rendered; order and multiplicity are stated by `DataTable.RenderedKeepsOrder` |
| DataTable.RenderedKeepsOrder | src/shared/components/DataTable.tsx:178 | the rendered columns are a subsequence of the columns; a column with a visible field occurs as often as in the columns, a hidden one never |
| DataTable.AllVisibleRendersAll | src/shared/components/DataTable.tsx:178 | with every field visible, every column is rendered, in order |
| DataTable.RenderedIgnoresOrder | src/shared/components/DataTable.tsx:178 | the rendered columns follow the columns' own order: showing the same fields in another order renders the same columns |
| DataTable.Table.constructor | src/shared/components/DataTable.tsx:67-81 | the keys derive from the id, the offset starts at 0, and density and visible columns are read from storage as above |
| DataTable.Table.OnColumnsChange | src/shared/components/DataTable.tsx:105-109 | the new list is shown and, exactly when a key exists, saved, so that a table mounted later with that storage shows it again |
| DataTable.Table.OnDensityChange | src/shared/components/DataTable.tsx:119-124 | compact exactly when 'compact' was chosen, saved exactly when a key exists, so that a later mount without a `dense` prop agrees |
| DataTable.Table.OnPage | src/shared/components/DataTable.tsx:156-166 | a page event records its offset and is forwarded exactly when the caller handles paging, that is exactly when the table is lazy (`Lazy`, `lazy={!!onPage}`) |
| RootApi.IsPublic | src/services/api.ts:23-25 | `isPublicEndpoint`: the url starts with one of the four listed prefixes; its laws are `RootApi.PublicPrefixLaws` |
| RootApi.PublicPrefixLaws | src/services/api.ts:14-25 | each listed prefix makes public every url it begins, whatever follows; a public url stays public when text is appended; '/api/jobs' and '/api/jobs?…' (the employer list and job creation) are not public |
| RootApi.Authorization | src/services/api.ts:14-35 | a request whose url starts with one of the four public prefixes keeps its header; any other gets 'Bearer ' + the stored access token when one is stored, and keeps its header otherwise |
| RootApi.PublicJobsUrlIsNotPublic | src/services/api.ts:14-25 | no url under '/api/public/jobs' starts with a listed public prefix, so such requests carry the token |
| RootApi.RequestConfig.constructor | src/services/api.ts:41-44 | a fresh request configuration has its url and header and is not yet marked retried |
| RootApi.Send | src/services/api.ts:22-66 | the first send carries the interceptor's header; a non-401 reply, or a 401 on a request already retried, settles with no refresh, no storage change and no redirect; a first 401 leads to at most one refresh; a successful refresh sends the stored refresh token, stores the new session (`PortalAuthService.AfterStore`), re-sends the request exactly once with the new token and settles on the re-sent reply; the session keys are removed and the browser sent to '/login' exactly when no refresh token is stored or the refresh fails, with every other key kept and the rejection being the refresh failure or, without a refresh token, the original 401 |
| PortalApi.Authorization | portal-vagas-web/src/services/api.ts:13-19 | every request gets 'Bearer ' + the stored access token when one is stored, whatever its url, and keeps its header otherwise |
| PortalApi.RequestConfig.constructor | portal-vagas-web/src/services/api.ts:34 | a fresh request configuration has its url and header |
| PortalApi.AlwaysUnauthorizedTail | portal-vagas-web/src/services/api.ts:25-35 | a backend that answers 401 to everything and refreshes every time still does so after one exchange |
| PortalApi.Send | portal-vagas-web/src/services/api.ts:13-45 | the first send carries the interceptor's header; a non-401 reply or a 401 without a refresh token settles at once with storage untouched; a 401 with a refresh token sends that token to refresh; a failed refresh then always removes both tokens, redirects to '/login' and rejects with the original 401, after one send; a successful one re-sends the request with 'Bearer ' + the new access token, and when the re-sent reply is not a 401 the call ends after two sends and one refresh with the new access token stored, every other key kept and the re-sent reply as the outcome; each refresh is followed by a re-send, with no guard, so a backend that always answers 401 gets one refresh and one re-send per reply |
| PortalApi.SendGuarded | portal-vagas-web/src/services/api.ts:22-45 | with a `_retry` guard added: one call refreshes at most once and sends at most twice; a re-sent request settles on its reply with storage untouched; a failed refresh redirects after one send; a successful one stores the new access token, re-sends with it and settles on the re-sent reply, whatever it is; against a backend that always answers 401 it ends after two sends and one refresh, rejected with the 401 |
| CoreApi.ApiClient.constructor | packages/core/src/services/api.ts:6-15 | the client works in or outside a browser on the given storage and backend |
| CoreApi.ApiClient.GetToken | packages/core/src/services/api.ts:37-42 | the stored access token in a browser, null elsewhere |
| CoreApi.ApiClient.Authorization | packages/core/src/services/api.ts:18-24 | 'Bearer ' + the token exactly when a non-empty token is found; otherwise the header is kept |
| CoreApi.ApiClient.Request | packages/core/src/services/api.ts:26-69 | one request through both interceptors: it resolves to the reply's data, any error is rejected unchanged, and a 401 removes both tokens (only in a browser) and nothing else |
| CoreAuthService.UnauthorizedSignsOut | packages/core/src/services/api.ts:29-31 | after a 401 in a browser the package's auth service no longer reports a signed-in user, and a stored user record is left alone |
| PortalAuthService.StoredUser | portal-vagas-web/src/services/auth.ts:26-33 | no user when the key is missing or holds the empty string (and none when the text does not decode to a user) |
| PortalAuthService.StoreAuth | portal-vagas-web/src/services/auth.ts:35-39 | the access token, the refresh token and the encoded user are written under their three keys and nothing else changes |
| PortalAuthService.Logout | portal-vagas-web/src/services/auth.ts:20-24 | exactly the three session keys are removed |
| PortalAuthService.StoreThenRead | portal-vagas-web/src/services/auth.ts:26-38 | the user read back after storing a session is the user stored, the whole `{ id, email, role }` record the session's user type declares |
| PortalAuthService.LogoutThenRead | portal-vagas-web/src/services/auth.ts:20-33 | after logout no user is read back, and every other key keeps its value |
| CoreAuthService.WithTokens | packages/core/src/services/auth.ts:21-26 | in a browser both tokens are written and every other key kept; outside one storage is unchanged |
| CoreApi.WithoutTokens | packages/core/src/services/api.ts:44-48 | in a browser both tokens are gone and every other key kept; outside one storage is unchanged |
| CoreAuthService.AuthService.constructor | packages/core/src/services/auth.ts:4 | the service sends through the package's client and works on that client's storage, in or outside a browser as the client does |
| CoreAuthService.AuthService.StoreTokens | packages/core/src/services/auth.ts:21-26 | storage becomes the storage with both tokens written (in a browser only) |
| CoreAuthService.AuthService.ClearTokens | packages/core/src/services/auth.ts:28-33 | storage becomes the storage without both tokens (in a browser only) |
| CoreAuthService.AuthService.Authenticate | packages/core/src/services/auth.ts:5-15 | login and register post through the client with its header; a success hands back the response and stores both of its tokens; a failure is rejected with the reply, and storage is then untouched except that a 401 has removed both tokens |
| CoreAuthService.AuthService.Logout | packages/core/src/services/auth.ts:17-19 | both tokens are cleared |
| CoreAuthService.AuthService.IsSignedIn | packages/core/src/services/auth.ts:35-40 | signed in exactly in a browser with a non-empty access token stored |
| CoreAuthService.SignInOut | packages/core/src/services/auth.ts:21-40 | storing a non-empty access token signs in, clearing the tokens signs out, and outside a browser nobody is ever signed in |
| Codec.FieldsRoundTrip | portal-vagas-web/src/services/auth.ts:26-39 | decoding the encoding of any list of fields, followed by any text, gives back the fields and the text |
| Codec.StringsRoundTrip | src/shared/components/DataTable.tsx:77-108 | a stored list of column names reads back as the same list |
| Codec.EncodeUser | portal-vagas-web/src/services/auth.ts:38 | a stored user is never the empty string, so it is always truthy where the client tests it |
| Codec.UserRoundTrip | portal-vagas-web/src/services/auth.ts:26-39 | a stored user reads back as the same user |
| Lists.FirstIndex | portal-vagas-web/src/core/stores/appStore.ts:80-113 | `findIndex` gives the first position holding the key, and nothing exactly when no element holds it |
| Lists.RemoveAll | portal-vagas-web/src/core/stores/appStore.ts:86-88 | the filter keeps exactly the elements without the key |
| Lists.UpdateFirst | portal-vagas-web/src/core/stores/appStore.ts:79-117 | only the first element holding the key is changed, every other element is kept, the length is kept, and nothing changes when no element holds the key |
| Lists.RemoveAllKeepsOrder | portal-vagas-web/src/core/stores/appStore.ts:86-88 | the filter keeps the other elements in their original order |
| Lists.RemoveAllKeepsCount | portal-vagas-web/src/core/stores/appStore.ts:86-88 | the filter keeps every other element with its multiplicity |
| Lists.RemoveAllAbsent | portal-vagas-web/src/core/stores/appStore.ts:87 | with no element holding the key the filter changes nothing |
| Lists.RemoveAllConcat | portal-vagas-web/src/core/stores/appStore.ts:148 | filtering distributes over concatenation |
| Entities.MergeJobLaws | portal-vagas-web/src/core/stores/appStore.ts:82 | `Object.assign` with an empty patch changes nothing, and with a whole job replaces every field |
| Entities.MergeApplicationReplaces | portal-vagas-web/src/core/stores/appStore.ts:115 | `Object.assign` with a whole application makes the entry exactly that application |
| JobsApi.PageQuery | portal-vagas-web/src/services/jobs.ts:30-38 | a paged call's query always starts with '?' |
| JobsApi.PageQueryRoundTrip | src/services/jobs.ts:31-39 | splitting the query at '&' gives exactly a `page=` and a `size=` piece, carrying the arguments or the defaults 0 and 10, and both numbers parse back to what was given |
| PortalJobsService.RequestFor | portal-vagas-web/src/services/jobs.ts:6-100 | every call of this copy has a request and only the company lookup has none; the caller's data is sent exactly by apply, create and update; the verb is GET exactly for the calls that change nothing |
| PortalJobsService.GetPublicJobs | portal-vagas-web/src/services/jobs.ts:6-17 | building the parameters step by step gives the request the call is specified to make |
| PortalJobsService.DefaultPageQuery | portal-vagas-web/src/services/jobs.ts:30-38 | without arguments a paged call asks for `?page=0&size=10` |
| PortalJobsService.CandidateApplicationsDefaults | portal-vagas-web/src/services/jobs.ts:30-33 | the candidate's applications are fetched from `/candidates/applications?page=0&size=10` when no page or size is passed |
| PortalJobsService.RejectRequests | portal-vagas-web/src/services/jobs.ts:86-89 | a rejection always carries a `{ reason }` body, even when no reason was given, and two jobs are rejected at the same URL only when they are the same job |
| RootJobsService.RequestFor | src/services/jobs.ts:5-98 | every call of this copy has a request; the per-job applications and per-job statistics calls, which this copy lacks, have none |
| RootJobsService.GetPublicJobs | src/services/jobs.ts:7-18 | building the parameters step by step gives the request the call is specified to make |
| RootJobsService.UnderApiPrefix | src/services/jobs.ts:26-85 | every call both copies share, other than the two public ones, makes the portal's request with the same verb and body and '/api' in front of the URL |
| RootJobsService.PublicJobsCarryToken | src/services/jobs.ts:16-21 | the public job URLs are not under the client's public exemption, so the access token is attached to them |
| RootJobsService.CompanyUrl | src/services/jobs.ts:88-91 | the company lookup's URL is `/api/companies/` followed by exactly the id given |
| SearchParams.KeyNamesDistinct | src/services/jobs.ts:10-14 | the five parameter names are pairwise different |
| SearchParams.Segment | portal-vagas-web/src/services/jobs.ts:9-13 | each filter contributes at most one pair, and only under its own key |
| SearchParams.Params.constructor | portal-vagas-web/src/services/jobs.ts:7 | a new parameter list is empty |
| SearchParams.Params.Append | portal-vagas-web/src/services/jobs.ts:9-13 | appending adds the pair at the end and keeps the earlier pairs in order |
| SearchParams.BuildParams | portal-vagas-web/src/services/jobs.ts:7-13 | the conditional appends produce exactly the pairs the filters call for, in key order |
| SearchParams.Lookup | portal-vagas-web/src/services/jobs.ts:9-13 | a value found under a key is the value of some pair with that key; nothing is found only when no pair has the key |
| SearchParams.LookupSkip | portal-vagas-web/src/services/jobs.ts:9-13 | pairs under other keys in front do not change what a key looks up |
| SearchParams.LookupHead | portal-vagas-web/src/services/jobs.ts:9-13 | a key's own segment in front of other keys decides its lookup |
| SearchParams.Normalized | portal-vagas-web/src/services/jobs.ts:9-10 | the normalised filters carry no empty title or location |
| SearchParams.Rank | portal-vagas-web/src/services/jobs.ts:9-13 | each key has a position in the append order, and that position names the key back |
| SearchParams.SegmentsFrom | portal-vagas-web/src/services/jobs.ts:9-13 | the pairs from position n on only use keys of rank n or later |
| SearchParams.PairsAreSegments | portal-vagas-web/src/services/jobs.ts:9-13 | the appended pairs are the segments of all five keys in order |
| SearchParams.LookupSegments | portal-vagas-web/src/services/jobs.ts:9-13 | a key looked up in the segments from its own position on finds exactly its filter's contribution |
| SearchParams.LookupParam | portal-vagas-web/src/services/jobs.ts:9-13 | looking up any key in the query's pairs finds exactly what its filter contributes |
| SearchParams.ReadsNumber | portal-vagas-web/src/services/jobs.ts:12-13 | a page or size sent as decimal text reads back as the same number, and an absent one stays absent |
| SearchParams.ParamsRoundTrip | portal-vagas-web/src/services/jobs.ts:9-13 | reading the query back gives the filters, except that an empty title or location is lost; remote false, page 0 and size 0 survive |
| SearchParams.PrependInKeyOrder | portal-vagas-web/src/services/jobs.ts:9-13 | one pair of a lower rank in front of higher-ranked pairs in order keeps the order |
| SearchParams.SegmentsInKeyOrder | portal-vagas-web/src/services/jobs.ts:9-13 | the segments from any position on come in strictly increasing key order |
| SearchParams.ParamsInKeyOrder | portal-vagas-web/src/services/jobs.ts:9-13 | the query's keys come in the fixed order title, location, remote, page, size, each at most once |
| SearchParams.NoFiltersNoQuery | portal-vagas-web/src/services/jobs.ts:6-15 | with no filters nothing is appended and the query string is empty |

## Left out

- Rendering:
  - JSX, PrimeReact and shadcn components, CSS and layout are left out.
  - Where markup encodes a decision (which buttons show, what a column reads, which
    step renders), that decision is modelled as a function. The markup is not.
- Toasts and console logging are left out. They change no state the code reads back.
- HTTP itself is not modelled.
  - Each client request is answered by a scripted `Network.Backend`: success with a value, a
    401, or another error.
  - Real refresh responses are stand-in values.
  - Timing and concurrency between requests are not modelled, so each interceptor run
    is sequential.
  - The query functions of the hooks in `UseJobs` and `UseApplications` are answered
    by a scripted `Fetching.Source` instead of a client, so their requests carry no
    header and pass no interceptor.
- `URLSearchParams` percent-encoding is not modelled. `SearchParams.QueryString`
  joins the raw values, and the round-trip lemmas work on the pairs.
- react-query internals are not modelled: refetching after invalidation, staleTime
  and gcTime, retries, `enabled` scheduling, and `refetchInterval` polling.
  `QueryKeys.QueryCache` records only the entries the callbacks write, invalidate or
  remove.
- zustand, immer and persist middleware mechanics are left out. Writing the saved
  record to storage is not modelled; `AuthStore.AuthStore.Rehydrate` stands for the
  merge of a saved record into the store.
- `JSON.stringify` and `JSON.parse` are replaced by `Codec`, whose round trip is
  proved.
  - A saved column list that is valid JSON but not a list of strings counts as a
    decode failure.
  - Any other text that does not decode counts as a parse failure, as in the source's
    `catch`.
- PortalAuthService.StoredUser: stored text that is valid JSON but not a user, such as
  `{}` or `42`, gives no user here. `JSON.parse` returns that value and the source
  hands it on as the user. Only texts `Codec` decodes to a user are modelled as users.
- portal-vagas-web/src/core/stores/authStore.ts is not part of this model. The portal's
  `useAuth` imports it (portal-vagas-web/src/shared/hooks/useAuth.ts:4); `AuthHook`
  uses the root app's `AuthStore` in its place.
- src/components/layout/Header.tsx, the header the root shell mounts, is not part of
  this model. The portal's header (`Header`) stands for it beside the root sidebar.
- RootApi.Send: the refresh request is a separate `Network.Backend.Refresh` answer, not
  a request through `Send`. src/services/auth.ts is not part of this model, so the
  refresh is assumed to bypass the interceptors. If it went through the same client, a
  401 on the refresh would start the response interceptor again with a fresh `_retry`
  flag, and the refresh-once bound would not cover that nesting.
- Breadcrumbs.Label: the source looks the segment up in a plain object, so a segment
  such as 'constructor' finds an inherited member. The model's table holds only the
  listed keys, so such a segment takes the upper-casing fallback.
- Status.ApplicationStatus: the same plain-object lookup (`map[status]`) finds
  inherited keys such as 'constructor'; the model gives them the fallback. It does not
  restate each label; `Status.SeveritiesDistinct`, `Status.SharedStatusesAgree` and
  `Status.InterviewOnlyForApplications` state the table's properties.
- JobsList.StatusBadge: `config[status]` also finds inherited keys such as
  'constructor', which the model sends to the DRAFT fallback.
- JobDetails.JobTypeLabel: `types[job.type]` also finds inherited keys such as
  'constructor', which the model shows as the code itself.
- Library behaviour taken as parameters:
  - zod's email and URL recognisers are the parameters `isEmail` and `isUrl`.
  - `toLocaleString` is the formatting parameter `fmt`.
  - `Date.now()` is supplied as two clock readings.
- `Number()` is modelled on optionally signed decimal digit strings. Any other
  non-empty text stands for `NaN`, whatever the text.
- Only ASCII letters are upper-cased (breadcrumb labels). String length counts
  characters, not UTF-16 code units.
- `state.from` is modelled as the pathname alone, not a whole location object.
- Browser effects are not modelled: `window.location` redirects are recorded as a
  navigation, and there is no clipboard, upload or document access.
- The `packages/core` client's `typeof window` checks are a boolean `hasWindow`
  parameter.
- src/services/auth.ts is not part of this model. `RootApi` assumes its `storeAuth`
  and `logout` behave like the portal's copy, and that a refresh response carries
  both tokens and the user.
- The route tables in the three `App.tsx` files are left out, because they depend on
  react-router's pattern matching.
- Thin hooks with no logic of their own, mock-data dashboards and pages, and type-only
  files are left out. The type files supply the datatype declarations.
- `useApplicationNotifications` (portal-vagas-web/src/shared/hooks/useApplications.ts:113-140)
  is left out. It is a polling query with no state changes of its own.
- `useEmployerJobs` hands the query context to `getEmployerJobs` as its page argument.
  The model passes no page, so the request uses the default page.
- The catch branch of `JobForm`'s submit handler is left out. The save call in its try
  block is commented out, so nothing there can fail in the model.
- Status.JobStatus: the plain-object lookup (`map[status]`) finds inherited keys such
  as 'constructor'; the model gives them the fallback. It states the fallback for an
  unknown status and which known statuses carry an icon. It does not restate each
  label and severity of the table; `Status.SeveritiesDistinct` and
  `Status.SharedStatusesAgree` state the table's properties.
- PortalJobsService.CandidateApplicationsDefaults: spells out only the candidate
  applications URL. The other paged calls share `JobsApi.PageQuery`, whose defaults
  `PortalJobsService.DefaultPageQuery` states.
- CoreApi.ApiClient.Request: models `get`, `post`, `put` and `delete` as one method
  with a verb argument. They differ only in the verb they pass on.
- `getJobApplications` and `getJobStats` exist only in the portal copy of the job
  service, and `getCompany` only in the root copy. Each copy's `RequestFor` returns
  `None` for the calls it lacks.

## Findings

| source | as written | input that shows it | evidently intended | confidence | as-written member | corrected member |
|---|---|---|---|---|---|---|
| portal-vagas-web/src/features/employers/JobForm.tsx:118-124 | the job form validates with `jobSchema`, whose salaries are `z.number()`, while the form's number inputs hand it their text | any form, for example the untouched defaults with salaries `''` | salary text converted to a number (or left out when empty) before validation, as the submit handler's own `Number(...)` suggests | high, not executed | JobForm.FormNeverSubmits | JobForm.Resolve |
| portal-vagas-web/src/services/api.ts:22-45 | a 401 always triggers a refresh and a re-send, with no `_retry` guard | a backend that answers 401 to every request while refreshes succeed: one refresh and one re-send per reply, without end | refresh at most once per request, as the root client's `_retry` flag does | medium, not executed | PortalApi.Send | PortalApi.SendGuarded |
