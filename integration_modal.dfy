/** The Jira integration modal: it collects a project key, asks the backend to process the
    project's Jira issues, and lists mocked stories and work items for the counts the backend
    reports. `addError` adds only non-empty messages that are not yet listed, so it keeps a
    duplicate-free list duplicate-free; a result's own errors replace the list as received. The awaited Apex call is a
    parameter of the methods that await it. */
module JiraIntegrationModal {
  import opened Js
  import opened Platform

  const InvalidProjectKey := "Please enter a valid project key"
  const ProcessingFailed := "Failed to process Jira issues"
  const UnexpectedError := "An unexpected error occurred"

  const ErrorToast := Toast("Error", "Failed to process Jira issues. Please check the details and try again.", "error")

  predicate NoDuplicates(s: seq<string>) {
    forall i, j :: 0 <= i < j < |s| ==> s[i] != s[j]
  }

  /** `addError`: a non-empty message not yet listed is appended; anything else leaves the
      list as it was. */
  function AddErrorTo(errors: seq<string>, message: string): (r: seq<string>)
    ensures errors <= r && |r| <= |errors| + 1
    ensures message != "" ==> message in r
    ensures message == "" || message in errors ==> r == errors
    ensures forall m :: m in r ==> m in errors || m == message
    ensures NoDuplicates(errors) ==> NoDuplicates(r)
  {
    if message != "" && message !in errors then errors + [message] else errors
  }

  /** Adding the same message twice adds it once. */
  lemma AddErrorIdempotent(errors: seq<string>, message: string)
    ensures AddErrorTo(AddErrorTo(errors, message), message) == AddErrorTo(errors, message)
  {
  }

  /** The text reported for a caught processing error: the body's message, else the error's own
      message, else the unexpected-error message, skipping empty ones. It is never empty. */
  function ErrorText(f: Failure): (m: string)
    ensures m != ""
  {
    var bodyMessage := if f.body.Some? then f.body.value else None;
    if Truthy(bodyMessage) then bodyMessage.value
    else if Truthy(f.message) then f.message.value
    else UnexpectedError
  }

  /** The error list `validateInputs` leaves: empty for a key, one message for no key. */
  function ValidationErrors(projectKey: string): (errors: seq<string>)
    ensures errors == [] <==> projectKey != ""
    ensures projectKey == "" ==> errors == [InvalidProjectKey]
  {
    if projectKey == "" then AddErrorTo([], InvalidProjectKey) else []
  }

  /** The error list `processJiraIssuesAsync` leaves (it clears the list first). */
  function ProcessingErrors(call: Call<Option<ProcessResult>>): (errors: seq<string>)
    ensures call.Threw? || call.value.None? ==> |errors| == 1 && errors[0] != ""
    ensures call == Returned(None) ==> errors == [ProcessingFailed]
  {
    match call
    case Returned(Some(result)) => if ReportsErrors(result) then result.errors.value else []
    case Returned(None) => AddErrorTo([], ProcessingFailed)
    case Threw(f) => AddErrorTo([], ErrorText(f))
  }

  /** The error list `handleProcessIssues` leaves: a missing key and every failed call are
      reported by exactly one non-empty message. */
  function ErrorsAfterProcessIssues(projectKey: string, call: Call<Option<ProcessResult>>): (errors: seq<string>)
    ensures projectKey == "" ==> errors == [InvalidProjectKey]
    ensures projectKey != "" && (call.Threw? || call.value.None?) ==> |errors| == 1 && errors[0] != ""
    ensures projectKey != "" && call == Returned(None) ==> errors == [ProcessingFailed]
    ensures projectKey != "" && call.Threw? ==> errors == [ErrorText(call.failure)]
  {
    if projectKey == "" then ValidationErrors(projectKey) else ProcessingErrors(call)
  }

  // ---------------------------------------------------------------------------
  // The code as it stands reads the message constants as `JiraIntegrationModal.ERROR_MESSAGES`,
  // a property of the class, while they are declared as a field of each instance. The class
  // property is undefined, so reading one of its entries throws a TypeError.

  /** How `handleProcessIssues` settles: normally, or rejected by a TypeError nobody catches. */
  datatype Ending = Settled | RejectedByTypeError

  /** Error list and ending of `handleProcessIssues` as the code stands; `typeErrorText` is the
      engine's message for the TypeError. */
  function HandleProcessIssuesAsWritten(
    projectKey: string, call: Call<Option<ProcessResult>>, typeErrorText: string): (r: (seq<string>, Ending))
    ensures projectKey == "" ==> r == ([], RejectedByTypeError)
    ensures r.1 == RejectedByTypeError ==> r.0 == []
  {
    if projectKey == "" then
      // the list was cleared; the message read throws before anything is added
      ([], RejectedByTypeError)
    else match call
      case Returned(Some(result)) =>
        (if ReportsErrors(result) then result.errors.value else [], Settled)
      case Returned(None) =>
        // the message read throws inside `try`; the `catch` reports the TypeError's own text
        (AddErrorTo([], typeErrorText), Settled)
      case Threw(f) =>
        var bodyMessage := if f.body.Some? then f.body.value else None;
        if Truthy(bodyMessage) then ([bodyMessage.value], Settled)
        else if Truthy(f.message) then ([f.message.value], Settled)
        // the fallback message read throws inside `catch`
        else ([], RejectedByTypeError)
  }

  /** With no project key the code as it stands shows no message at all. */
  lemma EmptyKeyUnreportedAsWritten(call: Call<Option<ProcessResult>>, typeErrorText: string)
    ensures HandleProcessIssuesAsWritten("", call, typeErrorText).0 == []
    ensures ErrorsAfterProcessIssues("", call) == [InvalidProjectKey]
  {
  }

  /** For an empty result the code as it stands shows the TypeError's text instead of the
      processing-failed message. */
  lemma NullResultMisreportedAsWritten(projectKey: string, typeErrorText: string)
    requires projectKey != "" && typeErrorText != ProcessingFailed
    ensures HandleProcessIssuesAsWritten(projectKey, Returned(None), typeErrorText).0
            != ErrorsAfterProcessIssues(projectKey, Returned(None))
  {
  }

  /** For a rejection without any message the code as it stands shows nothing and rejects. */
  lemma SilentFailureAsWritten(projectKey: string, typeErrorText: string)
    requires projectKey != ""
    ensures HandleProcessIssuesAsWritten(projectKey, Threw(Failure(None, None)), typeErrorText)
            == ([], RejectedByTypeError)
    ensures ErrorsAfterProcessIssues(projectKey, Threw(Failure(None, None))) == [UnexpectedError]
  {
  }

  /** Everywhere else the code as it stands already behaves as intended. */
  lemma AsWrittenAgreesOtherwise(projectKey: string, call: Call<Option<ProcessResult>>, typeErrorText: string)
    requires projectKey != "" && call != Returned(None)
    requires call.Threw? ==> ErrorText(call.failure) != UnexpectedError
    ensures HandleProcessIssuesAsWritten(projectKey, call, typeErrorText)
            == (ErrorsAfterProcessIssues(projectKey, call), Settled)
  {
  }

  // ---------------------------------------------------------------------------
  // Mocked result lists

  datatype MockStory = MockStory(id: string, name: string, jiraKey: string)

  datatype MockWorkItem = MockWorkItem(id: string, subject: string, jiraKey: string, parentStory: Option<string>)

  /** The object pushed for story `i`. */
  function MockStoryAt(projectKey: string, i: nat): MockStory {
    MockStory(
      "story-" + NatToString(i + 1),
      "Story " + NatToString(i + 1) + " - Sample Story Name",
      projectKey + "-" + NatToString(i + 100))
  }

  /** The object pushed for work item `i`, linked to story `i` when there is one. */
  function MockWorkItemAt(projectKey: string, i: nat, stories: seq<MockStory>): MockWorkItem {
    MockWorkItem(
      "workitem-" + NatToString(i + 1),
      "JIRA-" + projectKey + "-" + NatToString(i + 200) + ": Sample Work Item Subject",
      projectKey + "-" + NatToString(i + 200),
      if i < |stories| then Some(stories[i].jiraKey) else None)
  }

  /** How often a loop counting up from 0 while below `n` runs, for a count that may be absent. */
  function LoopCount(n: Option<int>): (k: nat)
    ensures n.None? ==> k == 0
    ensures n.Some? ==> k == if n.value > 0 then n.value else 0
  {
    if n.Some? && n.value > 0 then n.value else 0
  }

  /** The lists `createMockResultData` builds for `result`. */
  ghost predicate IsMockData(projectKey: string, result: ProcessResult, stories: seq<MockStory>, items: seq<MockWorkItem>) {
    && |stories| == LoopCount(result.storiesCreated)
    && (forall i :: 0 <= i < |stories| ==> stories[i] == MockStoryAt(projectKey, i))
    && |items| == LoopCount(result.workItemsCreated)
    && (forall i :: 0 <= i < |items| ==> items[i] == MockWorkItemAt(projectKey, i, stories))
  }

  /** Distinct positions get distinct ids and distinct Jira keys. */
  lemma MockKeysDistinct(projectKey: string, i: nat, j: nat, stories: seq<MockStory>)
    requires i != j
    ensures MockStoryAt(projectKey, i).id != MockStoryAt(projectKey, j).id
    ensures MockStoryAt(projectKey, i).jiraKey != MockStoryAt(projectKey, j).jiraKey
    ensures MockWorkItemAt(projectKey, i, stories).id != MockWorkItemAt(projectKey, j, stories).id
    ensures MockWorkItemAt(projectKey, i, stories).jiraKey != MockWorkItemAt(projectKey, j, stories).jiraKey
  {
    AppendCancel("story-", NatToString(i + 1), NatToString(j + 1));
    NatToStringInjective(i + 1, j + 1);
    AppendCancel(projectKey + "-", NatToString(i + 100), NatToString(j + 100));
    NatToStringInjective(i + 100, j + 100);
    AppendCancel("workitem-", NatToString(i + 1), NatToString(j + 1));
    AppendCancel(projectKey + "-", NatToString(i + 200), NatToString(j + 200));
    NatToStringInjective(i + 200, j + 200);
  }

  /** A story and a work item can share a Jira key: story `i + 100` and work item `i` do. */
  lemma MockKeysCollideAcrossKinds(projectKey: string, i: nat, stories: seq<MockStory>)
    ensures MockStoryAt(projectKey, i + 100).jiraKey == MockWorkItemAt(projectKey, i, stories).jiraKey
  {
    assert (i + 100) + 100 == i + 200;
  }

  /** In mocked lists, work item `i` has a parent exactly when story `i` exists, and then it is
      that story's key. */
  lemma MockParentLinks(projectKey: string, result: ProcessResult, stories: seq<MockStory>, items: seq<MockWorkItem>, i: nat)
    requires IsMockData(projectKey, result, stories, items) && i < |items|
    ensures items[i].parentStory.Some? <==> i < LoopCount(result.storiesCreated)
    ensures i < |stories| ==> items[i].parentStory == Some(stories[i].jiraKey)
    ensures items[i].jiraKey == projectKey + "-" + NatToString(i + 200)
  {
  }

  /** A count as a template literal renders it; an absent count renders as `undefined`. */
  function ShowCount(n: Option<int>): string {
    if n.Some? then IntToString(n.value) else "undefined"
  }

  function SuccessToast(result: ProcessResult): Toast {
    Toast("Success",
      "Processing completed! Created " + ShowCount(result.storiesCreated) + " stories and "
      + ShowCount(result.workItemsCreated) + " work items.", "success")
  }

  /** A section heading with its count, 0 when the count is absent. */
  function CountLabel(title: string, n: Option<int>): (heading: string)
    ensures title + " (" <= heading && heading[|heading| - 1] == ')'
    ensures n.None? ==> heading == title + " (0)"
    ensures |heading| >= |title| + 3
  {
    title + " (" + IntToString(CountOrZero(n)) + ")"
  }

  /** The text between the parentheses reads back to the count: its decimal digits, after a
      minus sign for a negative count. */
  lemma CountLabelReadBack(title: string, n: Option<int>)
    ensures var h := CountLabel(title, n);
      CountOrZero(n) >= 0 ==>
        IsDigits(h[|title| + 2 .. |h| - 1]) && DigitsValue(h[|title| + 2 .. |h| - 1]) == CountOrZero(n)
    ensures var h := CountLabel(title, n);
      CountOrZero(n) < 0 ==>
        |h| >= |title| + 4 && h[|title| + 2] == '-'
        && IsDigits(h[|title| + 3 .. |h| - 1]) && DigitsValue(h[|title| + 3 .. |h| - 1]) == -CountOrZero(n)
  {
    var c := CountOrZero(n);
    var h := CountLabel(title, n);
    if c >= 0 {
      assert h[|title| + 2 .. |h| - 1] == NatToString(c);
      NatToStringRoundTrip(c);
    } else {
      assert h[|title| + 3 .. |h| - 1] == NatToString(-c);
      NatToStringRoundTrip(-c);
    }
  }

  /** Headings with the same title show distinct counts differently. */
  lemma CountLabelInjective(title: string, m: Option<int>, n: Option<int>)
    ensures CountLabel(title, m) == CountLabel(title, n) <==> CountOrZero(m) == CountOrZero(n)
  {
    var a, b := IntToString(CountOrZero(m)), IntToString(CountOrZero(n));
    AppendCancelRight(title + " (" + a, title + " (" + b, ")");
    AppendCancel(title + " (", a, b);
    IntToStringInjective(CountOrZero(m), CountOrZero(n));
  }

  predicate Positive(n: Option<int>) { n.Some? && n.value > 0 }

  predicate NonNegative(n: Option<int>) { n.Some? && n.value >= 0 }

  class Component {
    var isModalOpen: bool
    var projectKey: string
    var isProcessing: bool
    var processingResult: ProcessResult
    var errorMessages: seq<string>
    var createdStories: seq<MockStory>
    var createdWorkItems: seq<MockWorkItem>
    /** The toast events dispatched so far, oldest first. */
    var toasts: seq<Toast>

    constructor ()
      ensures isModalOpen && Cleared() && toasts == []
    {
      isModalOpen, projectKey, isProcessing, processingResult := true, "", false, NoResult;
      errorMessages, createdStories, createdWorkItems, toasts := [], [], [], [];
    }

    /** The state `resetComponentState` leaves. */
    ghost predicate Cleared()
      reads this
    {
      && projectKey == "" && !isProcessing && processingResult == NoResult
      && errorMessages == [] && createdStories == [] && createdWorkItems == []
    }

    // -------------------------------------------------------------------------
    // Getters

    /** `isProcessButtonDisabled`: processing, or a key that is blank once trimmed. */
    function IsProcessButtonDisabled(): (disabled: bool)
      reads this
      ensures disabled <==> isProcessing || AllWhitespace(projectKey)
      ensures !disabled ==> projectKey != ""
    {
      isProcessing || Trim(projectKey) == ""
    }

    function HasErrors(): bool
      reads this
    {
      |errorMessages| > 0
    }

    /** `showSuccessMessage`: some count is positive and no error is listed. */
    function ShowSuccessMessage(): (shown: bool)
      reads this
      ensures shown ==> errorMessages == []
      ensures shown ==> CountOrZero(processingResult.storiesCreated) > 0
                        || CountOrZero(processingResult.workItemsCreated) > 0
    {
      (Positive(processingResult.storiesCreated) || Positive(processingResult.workItemsCreated))
      && !HasErrors()
    }

    /** `showResults`: some count is present and not negative; so results show whenever the
        success message does, and never in the cleared state. */
    function ShowResults(): (shown: bool)
      reads this
      ensures shown ==> processingResult.storiesCreated.Some? || processingResult.workItemsCreated.Some?
      ensures ShowSuccessMessage() ==> shown
      ensures processingResult == NoResult ==> !shown
    {
      NonNegative(processingResult.storiesCreated) || NonNegative(processingResult.workItemsCreated)
    }

    function StoriesLabel(): string
      reads this
    {
      CountLabel("Stories Created", processingResult.storiesCreated)
    }

    function WorkItemsLabel(): string
      reads this
    {
      CountLabel("Work Items Created", processingResult.workItemsCreated)
    }

    function HasStories(): bool
      reads this
    {
      |createdStories| > 0
    }

    function HasWorkItems(): bool
      reads this
    {
      |createdWorkItems| > 0
    }

    // -------------------------------------------------------------------------
    // Operations

    /** `openModal`, without its delayed focus and debugging. */
    method OpenModal()
      modifies this
      ensures isModalOpen && Cleared() && toasts == old(toasts)
    {
      isModalOpen := true;
      ResetComponentState();
    }

    method CloseModal()
      modifies this
      ensures !isModalOpen && Cleared() && toasts == old(toasts)
    {
      isModalOpen := false;
      ResetComponentState();
    }

    /** `handleProjectKeyChange`: the trimmed input, or `''` when there is none. */
    method HandleProjectKeyChange(value: Option<string>)
      modifies this`projectKey, this`errorMessages
      ensures projectKey == if value.Some? then Trim(value.value) else ""
      ensures IsTrimmed(projectKey) && errorMessages == []
      ensures IsProcessButtonDisabled() <==> isProcessing || projectKey == ""
    {
      projectKey := if value.Some? then Trim(value.value) else "";
      ClearErrors();
    }

    /** `handleProcessIssues`: validation, then processing when the key is present. */
    method HandleProcessIssues(call: Call<Option<ProcessResult>>)
      modifies this`isProcessing, this`errorMessages, this`processingResult,
               this`createdStories, this`createdWorkItems, this`toasts
      ensures errorMessages == ErrorsAfterProcessIssues(projectKey, call)
      ensures projectKey == "" ==>
        && isProcessing == old(isProcessing) && processingResult == old(processingResult)
        && createdStories == old(createdStories) && createdWorkItems == old(createdWorkItems)
        && toasts == old(toasts)
      ensures projectKey != "" ==>
        AfterProcessing(call, old(processingResult), old(createdStories), old(createdWorkItems), old(toasts))
    {
      var valid := ValidateInputs();
      if !valid {
        return;
      }
      ProcessJiraIssuesAsync(call);
    }

    method ResetComponentState()
      modifies this`projectKey, this`isProcessing, this`processingResult,
               this`errorMessages, this`createdStories, this`createdWorkItems
      ensures Cleared()
    {
      projectKey := "";
      isProcessing := false;
      processingResult := NoResult;
      errorMessages := [];
      createdStories := [];
      createdWorkItems := [];
    }

    /** `validateInputs`, with the message it evidently means to add for a missing key. */
    method ValidateInputs() returns (valid: bool)
      modifies this`errorMessages
      ensures valid <==> projectKey != ""
      ensures errorMessages == ValidationErrors(projectKey)
    {
      ClearErrors();
      if projectKey == "" {
        AddError(InvalidProjectKey);
        return false;
      }
      return true;
    }

    // The state after `processJiraIssuesAsync`, given the fields it may change as they were
    // before it.
    ghost predicate AfterProcessing(
      call: Call<Option<ProcessResult>>, result0: ProcessResult, stories0: seq<MockStory>,
      items0: seq<MockWorkItem>, toasts0: seq<Toast>)
      reads this
    {
      && !isProcessing
      && errorMessages == ProcessingErrors(call)
      && match call
         case Returned(Some(result)) =>
           && processingResult == result
           && IsMockData(projectKey, result, createdStories, createdWorkItems)
           && toasts == toasts0 + (if ShowSuccessMessage() then [SuccessToast(result)] else [])
         case Returned(None) =>
           && processingResult == result0 && createdStories == stories0 && createdWorkItems == items0
           && toasts == toasts0
         case Threw(_) =>
           && processingResult == result0 && createdStories == stories0 && createdWorkItems == items0
           && toasts == toasts0 + [ErrorToast]
    }

    /** `processJiraIssuesAsync`, with the processing call's outcome as a parameter, and with
        the messages it evidently means to add. It always ends not processing. */
    method ProcessJiraIssuesAsync(call: Call<Option<ProcessResult>>)
      modifies this`isProcessing, this`errorMessages, this`processingResult,
               this`createdStories, this`createdWorkItems, this`toasts
      ensures AfterProcessing(call, old(processingResult), old(createdStories), old(createdWorkItems), old(toasts))
    {
      isProcessing := true;
      ClearErrors();
      match call {
        case Returned(Some(result)) =>
          HandleProcessingSuccess(result);
        case Returned(None) =>
          AddError(ProcessingFailed);
        case Threw(f) =>
          HandleProcessingError(f);
      }
      isProcessing := false;
    }

    /** `handleProcessingSuccess`: the result is kept, its errors (if any) replace the list,
        the mock lists are rebuilt and success is announced when `showSuccessMessage` holds. */
    method HandleProcessingSuccess(result: ProcessResult)
      modifies this`processingResult, this`errorMessages, this`createdStories,
               this`createdWorkItems, this`toasts
      ensures processingResult == result
      ensures errorMessages == if ReportsErrors(result) then result.errors.value else old(errorMessages)
      ensures IsMockData(projectKey, result, createdStories, createdWorkItems)
      ensures toasts == old(toasts) + (if ShowSuccessMessage() then [SuccessToast(result)] else [])
    {
      processingResult := result;
      if ReportsErrors(result) {
        errorMessages := result.errors.value;
      }
      CreateMockResultData(result);
      if ShowSuccessMessage() {
        ShowToast(SuccessToast(result));
      }
    }

    /** `handleProcessingError`, with the fallback message it evidently means to use. */
    method HandleProcessingError(f: Failure)
      modifies this`errorMessages, this`toasts
      ensures errorMessages == AddErrorTo(old(errorMessages), ErrorText(f))
      ensures toasts == old(toasts) + [ErrorToast]
    {
      AddError(ErrorText(f));
      ShowToast(ErrorToast);
    }

    /** `createMockResultData`: one mocked story per created story and one mocked work item
        per created work item. */
    method CreateMockResultData(result: ProcessResult)
      modifies this`createdStories, this`createdWorkItems
      ensures IsMockData(projectKey, result, createdStories, createdWorkItems)
    {
      createdStories := [];
      var i := 0;
      while result.storiesCreated.Some? && i < result.storiesCreated.value
        invariant 0 <= i <= LoopCount(result.storiesCreated) && |createdStories| == i
        invariant forall k :: 0 <= k < i ==> createdStories[k] == MockStoryAt(projectKey, k)
        decreases LoopCount(result.storiesCreated) - i
      {
        createdStories := createdStories + [MockStoryAt(projectKey, i)];
        i := i + 1;
      }
      ghost var stories := createdStories;
      createdWorkItems := [];
      i := 0;
      while result.workItemsCreated.Some? && i < result.workItemsCreated.value
        invariant createdStories == stories
        invariant 0 <= i <= LoopCount(result.workItemsCreated) && |createdWorkItems| == i
        invariant forall k :: 0 <= k < i ==> createdWorkItems[k] == MockWorkItemAt(projectKey, k, createdStories)
        decreases LoopCount(result.workItemsCreated) - i
      {
        createdWorkItems := createdWorkItems + [MockWorkItemAt(projectKey, i, createdStories)];
        i := i + 1;
      }
    }

    /** `addError`: keeps a duplicate-free list duplicate-free, and keeps what was listed. */
    method AddError(message: string)
      modifies this`errorMessages
      ensures errorMessages == AddErrorTo(old(errorMessages), message)
      ensures old(errorMessages) <= errorMessages
      ensures NoDuplicates(old(errorMessages)) ==> NoDuplicates(errorMessages)
    {
      if message != "" && message !in errorMessages {
        errorMessages := errorMessages + [message];
      }
    }

    method ClearErrors()
      modifies this`errorMessages
      ensures errorMessages == []
    {
      errorMessages := [];
    }

    method ShowToast(t: Toast)
      modifies this`toasts
      ensures toasts == old(toasts) + [t]
    {
      toasts := toasts + [t];
    }
  }
}
