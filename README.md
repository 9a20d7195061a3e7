# Jira integration components: a Dafny model

This project models three Lightning web components of a Salesforce Jira integration.

- **Story viewer** (`jiraStoryWorkItemCreator`): it looks up the Jira project key of the current record and asks the backend to process that project's issues. It then fetches the created stories and shapes them into accordion rows. Each row carries a progress indicator: the completion is clamped to 0–100 and classified into six bands. The model gives each band its label, badge and gradient colours.
- **Integration modal** (`jiraIntegrationModal`): it collects a project key, validates it and asks the backend to process the issues. Its `addError` adds only non-empty messages that are not yet listed, so it keeps a duplicate-free list duplicate-free; a result's own errors replace the list as received, duplicates included. It also builds mocked story and work-item lists for the counts the backend reports.
- **Configuration page** (`configurationSetup`): it strips whitespace from the two credential inputs and has a show/hide toggle for each. A three-entry navigation switches views when a timer fires. The page also verifies the credentials against Jira.

The model is split into five modules:

- `Js` (`js.dfy`): the JavaScript value behaviour the components rely on. This covers absent values, and the whitespace class shared by `\s` and `String.prototype.trim`. It also covers `replace(/\s/g, '')`, `trim`, decimal rendering of numbers in template literals, and `Array.prototype.join`.
- `Platform` (`platform.dfy`): toasts, the outcome of an awaited Apex call (a value or a rejection with `body`/`message`), and the processing result object.
- `Progress` (`progress.dfy`): `calculateProgressData` and `lightenColor`.
- `JiraStoryWorkItemCreator`, `JiraIntegrationModal`, `ConfigurationSetup`: one class `Component` each, with the component's fields. Each handler is a method that changes those fields. Every awaited Apex call is a parameter of the method that awaits it. Every dispatched toast is appended to a `toasts` sequence.

How the model handles the parts that are not plain values:

- **Timer queue.** The configuration page's navigation timer is modelled as a queue `pendingNavigations`. `HandleNavigation` schedules a view switch and `FireNavigationTimer` performs the earliest one.
- **Class invariant.** The page's `Valid()` states two things: the view flags are always those of the active tab, and a transition is under way only while a timer is pending.
- **Message constants.** In the modal, the message constants are read as properties of the class (`JiraIntegrationModal.ERROR_MESSAGES`), but they are declared on each instance. The class methods model the evidently intended behaviour. The code as written is modelled separately; see "## Findings".

## Model

| member | source | states |
|---|---|---|
| Js.StripWhitespace | force-app/main/default/lwc/configurationSetup/configurationSetup.js:51 | the stripped value holds no whitespace and is no longer than the input |
| Js.StripWhitespaceKeepsOthers | force-app/main/default/lwc/configurationSetup/configurationSetup.js:51 | every non-whitespace character survives as often as it occurs in the input |
| Js.StripWhitespaceAppend | force-app/main/default/lwc/configurationSetup/configurationSetup.js:51 | stripping distributes over concatenation, so the kept characters stay in order |
| Js.StripWhitespaceKeepsClean | force-app/main/default/lwc/configurationSetup/configurationSetup.js:49-52 | a value without whitespace is stored unchanged |
| Js.StripWhitespaceFixedPoints | force-app/main/default/lwc/configurationSetup/configurationSetup.js:49-52 | stripping is the identity exactly on values without whitespace |
| Js.StripWhitespaceIdempotent | force-app/main/default/lwc/configurationSetup/configurationSetup.js:49-52 | stripping an already stripped value changes nothing |
| Js.Trim | force-app/main/default/lwc/jiraIntegrationModal/jiraIntegrationModal.js:111 | the trimmed key is an infix of the input with only whitespace cut from both ends, neither end is whitespace, and it is empty exactly when the input is all whitespace |
| Js.TrimKeepsTrimmed | force-app/main/default/lwc/jiraIntegrationModal/jiraIntegrationModal.js:111 | a value with no whitespace at either end is its own trim |
| Js.TrimIdempotent | force-app/main/default/lwc/jiraIntegrationModal/jiraIntegrationModal.js:111 | trimming twice is trimming once |
| Js.NatToString | force-app/main/default/lwc/jiraIntegrationModal/jiraIntegrationModal.js:214-226 | a number renders as a non-empty string of decimal digits with no leading zero |
| Js.NatToStringRoundTrip | force-app/main/default/lwc/jiraIntegrationModal/jiraIntegrationModal.js:214-226 | reading the rendered digits back gives the number |
| Js.NatToStringInjective | force-app/main/default/lwc/jiraIntegrationModal/jiraIntegrationModal.js:214-226 | distinct numbers render differently |
| Js.IntToStringInjective | force-app/main/default/lwc/jiraIntegrationModal/jiraIntegrationModal.js:52-60 | distinct counts, negative ones included, render differently |
| Js.Join | force-app/main/default/lwc/jiraStoryWorkItemCreator/jiraStoryWorkItemCreator.js:105 | joining no errors gives "", one error gives that error, and otherwise the text starts with the first error and has the length of all parts plus one separator between neighbours |
| Js.JoinSnoc | force-app/main/default/lwc/jiraStoryWorkItemCreator/jiraStoryWorkItemCreator.js:105 | joining one more error appends the separator and that error, so the error text holds every error in order with `, ` between neighbours |
| Progress.Normalize | force-app/main/default/lwc/jiraStoryWorkItemCreator/jiraStoryWorkItemCreator.js:173 | the completion is clamped to [0, 100]: kept inside the range, 0 when absent or not positive, 100 from 100 on |
| Progress.StageMonotone | force-app/main/default/lwc/jiraStoryWorkItemCreator/jiraStoryWorkItemCreator.js:177-201 | a larger completion never falls into an earlier band of the threshold table |
| Progress.FillColor | force-app/main/default/lwc/jiraStoryWorkItemCreator/jiraStoryWorkItemCreator.js:177-201 | every band's fill colour is a well-formed lower-case `#rrggbb` |
| Progress.CalculateProgressData | force-app/main/default/lwc/jiraStoryWorkItemCreator/jiraStoryWorkItemCreator.js:172-209 | the bar style is fixed; the fill starts with the clamped width; each of the six status labels and three badge classes is shown exactly in its threshold band |
| Progress.ByteToHex | force-app/main/default/lwc/jiraStoryWorkItemCreator/jiraStoryWorkItemCreator.js:221 | a channel pads to two lower-case hex digits whose value is the channel |
| Progress.Channel | force-app/main/default/lwc/jiraStoryWorkItemCreator/jiraStoryWorkItemCreator.js:212-215 | a parsed channel is below 256 |
| Progress.LightenChannel | force-app/main/default/lwc/jiraStoryWorkItemCreator/jiraStoryWorkItemCreator.js:217-219 | a lightened channel never gets darker and stays at most 255; 0 per cent keeps it and 100 per cent or more makes it 255 |
| Progress.FormatColor | force-app/main/default/lwc/jiraStoryWorkItemCreator/jiraStoryWorkItemCreator.js:221 | the formatted colour is lower-case `#rrggbb` and parses back to the three channels |
| Progress.LightenColor | force-app/main/default/lwc/jiraStoryWorkItemCreator/jiraStoryWorkItemCreator.js:211-222 | the result is a lower-case colour; each channel is the lightened input channel, between the input channel and 255 |
| Progress.ByteToHexOfChannel | force-app/main/default/lwc/jiraStoryWorkItemCreator/jiraStoryWorkItemCreator.js:213-221 | formatting a parsed lower-case channel gives back its two digits |
| Progress.LowerHexRoundTrip | force-app/main/default/lwc/jiraStoryWorkItemCreator/jiraStoryWorkItemCreator.js:213-221 | formatting a parsed lower-case hex digit gives the digit back |
| Progress.LightenColorByZero | force-app/main/default/lwc/jiraStoryWorkItemCreator/jiraStoryWorkItemCreator.js:211-222 | lightening a lower-case colour by 0 per cent returns it unchanged (parse and format are inverse) |
| Progress.LightenColorToWhite | force-app/main/default/lwc/jiraStoryWorkItemCreator/jiraStoryWorkItemCreator.js:217-221 | lightening by 100 per cent or more gives `#ffffff` |
| JiraStoryWorkItemCreator.Section | force-app/main/default/lwc/jiraStoryWorkItemCreator/jiraStoryWorkItemCreator.js:149-167 | a row has the story's id as id and name and starts collapsed; its label counts its work items; it keeps the raw completion (0 when absent), while its progress fields and fill width use the clamped value |
| JiraStoryWorkItemCreator.AccordionData | force-app/main/default/lwc/jiraStoryWorkItemCreator/jiraStoryWorkItemCreator.js:149-168 | one row per story, in the same order |
| JiraStoryWorkItemCreator.ProcessFailure | force-app/main/default/lwc/jiraStoryWorkItemCreator/jiraStoryWorkItemCreator.js:91-96 | the processing step fails exactly when the call rejects or returns nothing, and an empty result fails with the null-result message |
| JiraStoryWorkItemCreator.Summary | force-app/main/default/lwc/jiraStoryWorkItemCreator/jiraStoryWorkItemCreator.js:280-285 | "No records created" exactly when both counts are zero or absent, otherwise the count line |
| JiraStoryWorkItemCreator.ProjectKeyLabel | force-app/main/default/lwc/jiraStoryWorkItemCreator/jiraStoryWorkItemCreator.js:287-289 | the label is never blank: a loaded key is shown as it is, and any text other than "Not loaded" is the loaded key |
| JiraStoryWorkItemCreator.Component.constructor | force-app/main/default/lwc/jiraStoryWorkItemCreator/jiraStoryWorkItemCreator.js:11-21 | the initial field values |
| JiraStoryWorkItemCreator.Component.GetStateParameters | force-app/main/default/lwc/jiraStoryWorkItemCreator/jiraStoryWorkItemCreator.js:23-29 | a delivered page reference sets the wired record id; none leaves it |
| JiraStoryWorkItemCreator.Component.SetRecordId | force-app/main/default/lwc/jiraStoryWorkItemCreator/jiraStoryWorkItemCreator.js:31-38 | the setter stores the record id |
| JiraStoryWorkItemCreator.Component.ShowToast | force-app/main/default/lwc/jiraStoryWorkItemCreator/jiraStoryWorkItemCreator.js:255-262 | exactly one toast with the given title, message and variant is dispatched |
| JiraStoryWorkItemCreator.Component.InitializeComponent | force-app/main/default/lwc/jiraStoryWorkItemCreator/jiraStoryWorkItemCreator.js:44-75 | without a record id, a failing key query or an empty key: the matching error and toast and no result changes; otherwise the processing step runs and results are shown |
| JiraStoryWorkItemCreator.Component.HandleProcessJiraIssues | force-app/main/default/lwc/jiraStoryWorkItemCreator/jiraStoryWorkItemCreator.js:77-130 | without a key only the missing-key error; otherwise, for every outcome of the call, it ends not loading and showing results, with the error, story ids, toasts and rows of that outcome |
| JiraStoryWorkItemCreator.Component.FetchStoriesWithWorkItems | force-app/main/default/lwc/jiraStoryWorkItemCreator/jiraStoryWorkItemCreator.js:132-145 | fetched stories (none when absent) become the rows; a failure empties the stories and raises a toast |
| JiraStoryWorkItemCreator.Component.PrepareAccordionData | force-app/main/default/lwc/jiraStoryWorkItemCreator/jiraStoryWorkItemCreator.js:147-170 | the rows are the accordion data of the stored stories |
| JiraIntegrationModal.AddErrorTo | force-app/main/default/lwc/jiraIntegrationModal/jiraIntegrationModal.js:232-236 | the old list is a prefix; a non-empty message ends up listed; an empty or listed message changes nothing; nothing else is added; a duplicate-free list stays duplicate-free |
| JiraIntegrationModal.AddErrorIdempotent | force-app/main/default/lwc/jiraIntegrationModal/jiraIntegrationModal.js:232-236 | adding the same message twice adds it once |
| JiraIntegrationModal.ErrorText | force-app/main/default/lwc/jiraIntegrationModal/jiraIntegrationModal.js:196-198 | the text reported for a processing failure is never empty |
| JiraIntegrationModal.ValidationErrors | force-app/main/default/lwc/jiraIntegrationModal/jiraIntegrationModal.js:142-151 | no error exactly when a key is present; a missing key yields the one invalid-key message |
| JiraIntegrationModal.ProcessingErrors | force-app/main/default/lwc/jiraIntegrationModal/jiraIntegrationModal.js:153-170 | a rejected or empty call always leaves exactly one non-empty message, the processing-failed message for an empty result |
| JiraIntegrationModal.ErrorsAfterProcessIssues | force-app/main/default/lwc/jiraIntegrationModal/jiraIntegrationModal.js:115-121 | a missing key and every failed call are reported by exactly one non-empty message |
| JiraIntegrationModal.HandleProcessIssuesAsWritten | force-app/main/default/lwc/jiraIntegrationModal/jiraIntegrationModal.js:115-207 | as written, a missing key rejects with nothing listed, and any rejection leaves the list empty |
| JiraIntegrationModal.EmptyKeyUnreportedAsWritten | force-app/main/default/lwc/jiraIntegrationModal/jiraIntegrationModal.js:145-146 | as written, a missing key lists no message, where the invalid-key message is intended |
| JiraIntegrationModal.NullResultMisreportedAsWritten | force-app/main/default/lwc/jiraIntegrationModal/jiraIntegrationModal.js:160-166 | as written, an empty result lists the TypeError's text instead of the processing-failed message |
| JiraIntegrationModal.SilentFailureAsWritten | force-app/main/default/lwc/jiraIntegrationModal/jiraIntegrationModal.js:196-198 | as written, a rejection without any message lists nothing and rejects, where the unexpected-error message is intended |
| JiraIntegrationModal.AsWrittenAgreesOtherwise | force-app/main/default/lwc/jiraIntegrationModal/jiraIntegrationModal.js:153-207 | on every other input the code as written already lists the intended messages and settles |
| JiraIntegrationModal.LoopCount | force-app/main/default/lwc/jiraIntegrationModal/jiraIntegrationModal.js:212 | a loop bounded by an absent count runs zero times, and one bounded by a count runs max(0, count) times |
| JiraIntegrationModal.MockKeysDistinct | force-app/main/default/lwc/jiraIntegrationModal/jiraIntegrationModal.js:209-230 | two mocked stories, or two mocked work items, at different positions have different ids and different Jira keys |
| JiraIntegrationModal.MockKeysCollideAcrossKinds | force-app/main/default/lwc/jiraIntegrationModal/jiraIntegrationModal.js:214-226 | across the two kinds keys can collide: story i + 100 and work item i get the same Jira key |
| JiraIntegrationModal.MockParentLinks | force-app/main/default/lwc/jiraIntegrationModal/jiraIntegrationModal.js:222-228 | work item i has a parent exactly when story i exists, and then it is story i's key |
| JiraIntegrationModal.CountLabel | force-app/main/default/lwc/jiraIntegrationModal/jiraIntegrationModal.js:52-60 | a heading starts with its title and ` (`, ends with `)`, and is `title (0)` when the count is absent |
| JiraIntegrationModal.CountLabelReadBack | force-app/main/default/lwc/jiraIntegrationModal/jiraIntegrationModal.js:52-60 | the text between the parentheses reads back to the count (0 for absent): its decimal digits, after a minus sign for a negative count |
| JiraIntegrationModal.CountLabelInjective | force-app/main/default/lwc/jiraIntegrationModal/jiraIntegrationModal.js:52-60 | two headings with the same title are equal exactly when their counts (0 for absent) are |
| JiraIntegrationModal.Component.constructor | force-app/main/default/lwc/jiraIntegrationModal/jiraIntegrationModal.js:16-22 | the modal starts open and in the cleared state |
| JiraIntegrationModal.Component.IsProcessButtonDisabled | force-app/main/default/lwc/jiraIntegrationModal/jiraIntegrationModal.js:33-35 | the button is disabled exactly while processing or while the key is blank; enabled implies a non-empty key |
| JiraIntegrationModal.Component.ShowSuccessMessage | force-app/main/default/lwc/jiraIntegrationModal/jiraIntegrationModal.js:41-45 | success is shown only with no errors and a positive count |
| JiraIntegrationModal.Component.ShowResults | force-app/main/default/lwc/jiraIntegrationModal/jiraIntegrationModal.js:47-50 | results show only when some count is present; they show whenever the success message does, and never in the cleared state |
| JiraIntegrationModal.Component.OpenModal | force-app/main/default/lwc/jiraIntegrationModal/jiraIntegrationModal.js:81-84 | the modal is open and cleared |
| JiraIntegrationModal.Component.CloseModal | force-app/main/default/lwc/jiraIntegrationModal/jiraIntegrationModal.js:104-107 | the modal is closed and cleared |
| JiraIntegrationModal.Component.HandleProjectKeyChange | force-app/main/default/lwc/jiraIntegrationModal/jiraIntegrationModal.js:110-113 | the key is the trimmed input ("" when absent), so it is trimmed, the errors are cleared, and the button is disabled exactly while processing or for an empty key |
| JiraIntegrationModal.Component.HandleProcessIssues | force-app/main/default/lwc/jiraIntegrationModal/jiraIntegrationModal.js:115-121 | the error list is the intended one; a missing key changes nothing else; otherwise the processing step's outcome |
| JiraIntegrationModal.Component.ResetComponentState | force-app/main/default/lwc/jiraIntegrationModal/jiraIntegrationModal.js:133-140 | the cleared state |
| JiraIntegrationModal.Component.ValidateInputs | force-app/main/default/lwc/jiraIntegrationModal/jiraIntegrationModal.js:142-151 | valid exactly when a key is present; the list holds only the invalid-key message otherwise |
| JiraIntegrationModal.Component.ProcessJiraIssuesAsync | force-app/main/default/lwc/jiraIntegrationModal/jiraIntegrationModal.js:153-170 | for every outcome of the call: not processing afterwards, the error list of that outcome, the result and mock lists on success, and the toast of that outcome |
| JiraIntegrationModal.Component.HandleProcessingSuccess | force-app/main/default/lwc/jiraIntegrationModal/jiraIntegrationModal.js:172-191 | the result is kept; its errors, if any, replace the list; the mock lists match the counts; a success toast only when the success message shows |
| JiraIntegrationModal.Component.HandleProcessingError | force-app/main/default/lwc/jiraIntegrationModal/jiraIntegrationModal.js:193-207 | the failure's text is added to the list and the error toast is raised |
| JiraIntegrationModal.Component.CreateMockResultData | force-app/main/default/lwc/jiraIntegrationModal/jiraIntegrationModal.js:209-230 | one mocked story per created story and one mocked work item per created work item, each built for its position |
| JiraIntegrationModal.Component.AddError | force-app/main/default/lwc/jiraIntegrationModal/jiraIntegrationModal.js:232-236 | the list becomes AddErrorTo of the old list, keeps the old list as a prefix, and stays duplicate-free |
| JiraIntegrationModal.Component.ClearErrors | force-app/main/default/lwc/jiraIntegrationModal/jiraIntegrationModal.js:238-240 | the list is empty |
| JiraIntegrationModal.Component.ShowToast | force-app/main/default/lwc/jiraIntegrationModal/jiraIntegrationModal.js:252-260 | exactly one toast is dispatched |
| ConfigurationSetup.ViewsFor | force-app/main/default/lwc/configurationSetup/configurationSetup.js:78-100 | after a reset and an update, a known item shows exactly its own view and an unknown item shows none |
| ConfigurationSetup.VerificationOutcome | force-app/main/default/lwc/configurationSetup/configurationSetup.js:119-128 | success keeps the profile and leaves no message; failure keeps no profile and reports the result's error; a rejection reports `Error verifying credentials: ` followed by the error's message, in the error toast as well; the toast is an error toast exactly when verification did not succeed |
| ConfigurationSetup.Component.constructor | force-app/main/default/lwc/configurationSetup/configurationSetup.js:8-19 | the initial field values, which satisfy the class invariant |
| ConfigurationSetup.ToggleIcon | force-app/main/default/lwc/configurationSetup/configurationSetup.js:25-30 | a toggle shows `utility:hide` exactly when its input is hidden, `utility:preview` otherwise |
| ConfigurationSetup.InputType | force-app/main/default/lwc/configurationSetup/configurationSetup.js:33-38 | an input is a `password` field exactly when it is hidden, which is exactly when its toggle shows the hide icon |
| ConfigurationSetup.Component.ToggleUserNameVisibility | force-app/main/default/lwc/configurationSetup/configurationSetup.js:41-43 | the flag is negated and the class invariant is kept |
| ConfigurationSetup.Component.ToggleApiKeyVisibility | force-app/main/default/lwc/configurationSetup/configurationSetup.js:44-46 | the flag is negated and the class invariant is kept |
| ConfigurationSetup.Component.ToggleTwiceRestoresVisibility | force-app/main/default/lwc/configurationSetup/configurationSetup.js:41-46 | each toggle is an involution: two clicks restore the flags, icons and input types |
| ConfigurationSetup.Component.HandleInputChange | force-app/main/default/lwc/configurationSetup/configurationSetup.js:49-52 | the named input holds the value stripped of whitespace, a clean value is stored as it is, and the other input is untouched; the class invariant is kept |
| ConfigurationSetup.Component.HandleNavigation | force-app/main/default/lwc/configurationSetup/configurationSetup.js:55-68 | selecting the active tab changes no state; any other item starts a transition and schedules its switch; the invariant is kept |
| ConfigurationSetup.Component.FireNavigationTimer | force-app/main/default/lwc/configurationSetup/configurationSetup.js:62-67 | the earliest scheduled item becomes the active tab, the transition ends, and the views are those of the item |
| ConfigurationSetup.Component.Navigate | force-app/main/default/lwc/configurationSetup/configurationSetup.js:55-100 | after a click and its timer the item is active, no transition is under way, exactly one view shows for a known item and none for an unknown one |
| ConfigurationSetup.Component.ResetViews | force-app/main/default/lwc/configurationSetup/configurationSetup.js:79-83 | all three view flags are off |
| ConfigurationSetup.Component.UpdateView | force-app/main/default/lwc/configurationSetup/configurationSetup.js:86-100 | a known item turns its own flag on and leaves the others; an unknown item changes nothing |
| ConfigurationSetup.Component.VerifyCredentials | force-app/main/default/lwc/configurationSetup/configurationSetup.js:103-132 | missing credentials only raise a toast and leave spinner, profile and message alone; otherwise the spinner ends off and profile, message and toast are the outcome of the call; the class invariant is kept |
| ConfigurationSetup.Component.ShowToast | force-app/main/default/lwc/configurationSetup/configurationSetup.js:135-142 | exactly one toast is dispatched |

## Left out

- Apex procedures (`processJiraIssues`/`processJiraSubtasks`, `getStoriesWithWorkItems`, `getProjectJiraKey`, `verifyJiraCredentials`): opaque server procedures. Their results or rejections are method parameters.
- Await points: each handler runs to completion in one method. The states in between (`isLoading` or `showSpinner` true while a call is pending) are not observable, and neither are handlers that interleave with a pending call.
- The one-second delay before the story query in the story viewer, the 50 ms and 100 ms focus timers of the modal, and the modal's debugging block in `openModal`: they only wait or touch the DOM.
- Console logging, `JSON.stringify`, and the `mode: 'dismissable'` toast option: they do not change component state.
- Navigation to records (`handleStoryLinkClick`, `handleWorkItemLinkClick`, `navigateToRecord`), `handleClose`, `updateNavItems` and the document-link labels: they are platform navigation, events and DOM class toggling.
- Lifecycle hooks (`connectedCallback`, `disconnectedCallback`, `initializeComponent` and `cleanup` of the modal, `handleRefresh`): they only call `resetComponentState` or `initializeComponent`, which are modelled.
- The quick-action launcher `jiraIntegrationQuickAction` is not part of this model; it has no logic of its own.
- JiraIntegrationModal.Component.ShowResults: a result property that is present but `null` is not modelled; the model folds it into the absent case. JavaScript evaluates `null >= 0` as true, so `showResults` shows results for a `null` count, where the model's `ShowResults()` does not. Likewise a `null` count or `body.message` prints as `null` in a toast, where `ShowCount` and `Show` print `undefined`.
- Numbers: percentages and counts are integers. Fractional completions, `NaN` and the floating-point evaluation of `percent / 100` are not modelled.
- Progress.LightenColor: requires a well-formed `#rrggbb` colour and a non-negative percentage, because it is only called with the six fixed colours and 20. It does not model the `NaN` text produced for malformed input.
- ConfigurationSetup.Component.HandleInputChange: models `this[name]` only for the two credential inputs `userName` and `apiKey`; writing an arbitrary property is not modelled.
- ConfigurationSetup.VerificationOutcome: does not model a null result (whose `result.success` read throws inside the `try`), and its `error` is a string, so `errorMessage` never becomes `undefined`.
- JiraStoryWorkItemCreator.Component.HandleProcessJiraIssues: a result's `storyIds` and `errors` are taken as arrays of strings; other JSON shapes are not modelled.
- Getters without a contract of their own, written as simple expressions over the fields: JiraStoryWorkItemCreator.Component.HasResults and HasError (conjunctions with `!isLoading`) and HasStories; JiraIntegrationModal.Component.HasErrors, HasStories and HasWorkItems (non-empty lists). The getters JiraStoryWorkItemCreator.Component.SummaryMessage and CurrentProjectKey, JiraIntegrationModal.Component.StoriesLabel and WorkItemsLabel, and ConfigurationSetup.Component.ToggleIconClientId, ToggleIconClientSecret, UserNameType and ApiKeyType are one call each to Summary, ProjectKeyLabel, CountLabel, ToggleIcon and InputType, whose contracts state their meaning.

## Findings

| source | as written | input that shows it | evidently intended | confidence | as-written member | corrected member |
|---|---|---|---|---|---|---|
| force-app/main/default/lwc/jiraIntegrationModal/jiraIntegrationModal.js:146 | `JiraIntegrationModal.ERROR_MESSAGES` is read from the class, but the constants are an instance field, so the read throws a TypeError after the list was cleared | an empty project key | list "Please enter a valid project key" and stop | high; not executed | JiraIntegrationModal.EmptyKeyUnreportedAsWritten | JiraIntegrationModal.Component.ValidateInputs |
| force-app/main/default/lwc/jiraIntegrationModal/jiraIntegrationModal.js:163 | the same read throws inside `try`; the `catch` lists the TypeError's text and raises the error toast | a call that resolves with no result | list "Failed to process Jira issues" | high; not executed | JiraIntegrationModal.NullResultMisreportedAsWritten | JiraIntegrationModal.Component.ProcessJiraIssuesAsync |
| force-app/main/default/lwc/jiraIntegrationModal/jiraIntegrationModal.js:198 | the fallback read throws inside `catch`, so nothing is listed, no toast is raised and the handler rejects | a rejection with no `body.message` and no `message` | list "An unexpected error occurred" and raise the error toast | high; not executed | JiraIntegrationModal.SilentFailureAsWritten | JiraIntegrationModal.Component.HandleProcessingError |
