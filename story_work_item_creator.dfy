/** The story and work-item viewer: it fetches the Jira project key of the current record,
    asks the backend to process the project's Jira issues, fetches the stories that were
    created and shapes them into accordion rows with a progress indicator. Every awaited Apex
    call is a parameter of the method that awaits it. */
module JiraStoryWorkItemCreator {
  import opened Js
  import opened Platform
  import opened Progress

  /** A work-item record; the component copies it without reading its fields. */
  datatype WorkItem = WorkItem(fields: map<string, string>)

  /** A story record as returned by the story query. */
  datatype Story = Story(
    id: string,                         // Id
    name: string,                       // Name
    workItems: Option<seq<WorkItem>>,   // Work_Items__r
    jiraTicketKey: Option<string>,      // Jira_Ticket_Key__c
    completionPercentage: Option<int>)  // Completion_Percentage__c

  /** One row of the accordion. */
  datatype AccordionSection = AccordionSection(
    id: string,
    name: string,
    labelText: string,  // label
    isExpanded: bool,
    workItems: seq<WorkItem>,
    jiraTicketKey: Option<string>,
    completionPercentage: int,
    progressBarStyle: string,
    progressFillStyle: string,
    progressStatus: string,
    progressBadgeClass: string)

  /** A row label: the story name followed by its work-item count in parentheses. */
  function SectionLabel(name: string, count: nat): string {
    name + " (" + NatToString(count) + " Work Items)"
  }

  /** The row built for one story: it keeps the story's raw completion (0 when absent) while
      the progress fields, and so the fill width, use the clamped value. */
  function Section(story: Story): (row: AccordionSection)
    ensures row.id == story.id && row.name == story.id
    ensures !row.isExpanded
    ensures row.workItems == story.workItems.GetOr([])
    ensures row.labelText == SectionLabel(story.name, |row.workItems|)
    ensures row.jiraTicketKey == story.jiraTicketKey
    ensures row.completionPercentage == story.completionPercentage.GetOr(0)
    ensures WidthToken(Normalize(story.completionPercentage)) <= row.progressFillStyle
    ensures var d := CalculateProgressData(story.completionPercentage);
      && row.progressBarStyle == d.progressBarStyle && row.progressFillStyle == d.progressFillStyle
      && row.progressStatus == d.progressStatus && row.progressBadgeClass == d.progressBadgeClass
  {
    var completion := story.completionPercentage.GetOr(0);
    var progress := CalculateProgressData(Some(completion));
    var items := story.workItems.GetOr([]);
    AccordionSection(
      story.id, story.id, SectionLabel(story.name, |items|), false, items,
      story.jiraTicketKey, completion, progress.progressBarStyle, progress.progressFillStyle,
      progress.progressStatus, progress.progressBadgeClass)
  }

  /** The accordion rows: one row per story, in the same order. */
  function AccordionData(stories: seq<Story>): (rows: seq<AccordionSection>)
    ensures |rows| == |stories|
    ensures forall i :: 0 <= i < |stories| ==> rows[i] == Section(stories[i])
  {
    seq(|stories|, i requires 0 <= i < |stories| => Section(stories[i]))
  }

  /** The text of a caught error: the body's message when there is a body, otherwise the
      error's own message. */
  function FailureMessage(f: Failure): Option<string> {
    if f.body.Some? then f.body.value else f.message
  }

  const NullResultMessage := "processJiraIssues returned null or undefined"

  /** What the `catch` block of the processing step receives, if anything: the rejection of the
      call, or the error thrown for an empty result. */
  function ProcessFailure(call: Call<Option<ProcessResult>>): (f: Option<Failure>)
    ensures f.None? <==> call.Returned? && call.value.Some?
    ensures call.Returned? && call.value.None? ==> FailureMessage(f.value) == Some(NullResultMessage)
  {
    match call
    case Threw(e) => Some(e)
    case Returned(None) => Some(Failure(None, Some(NullResultMessage)))
    case Returned(Some(_)) => None
  }

  /** The count line of the story viewer, with 0 for an absent count. */
  function SummaryLine(stories: Option<int>, workItems: Option<int>): string {
    "Created " + IntToString(CountOrZero(stories)) + " stories and "
    + IntToString(CountOrZero(workItems)) + " work items"
  }

  /** The `summaryMessage` getter: a count line unless both counts are zero or absent. */
  function Summary(r: ProcessResult): (m: string)
    ensures m == "No records created"
            <==> CountOrZero(r.storiesCreated) == 0 && CountOrZero(r.workItemsCreated) == 0
    ensures m != "No records created" ==> m == SummaryLine(r.storiesCreated, r.workItemsCreated)
  {
    if CountOrZero(r.storiesCreated) != 0 || CountOrZero(r.workItemsCreated) != 0 then
      var line := SummaryLine(r.storiesCreated, r.workItemsCreated);
      assert line[0] == 'C';
      line
    else "No records created"
  }

  /** The `currentProjectKey` getter: the loaded key, or a placeholder while none is loaded,
      so the label is never blank; any text other than the placeholder is the loaded key. */
  function ProjectKeyLabel(key: Option<string>): (text: string)
    ensures text != ""
    ensures Truthy(key) ==> text == key.value
    ensures text != "Not loaded" ==> key == Some(text)
  {
    if Truthy(key) then key.value else "Not loaded"
  }

  /** A page reference delivered by the wire service, with its `state.recordId`. */
  datatype PageReference = PageReference(stateRecordId: Option<string>)

  class Component {
    var isLoading: bool
    var showResults: bool
    var processingResult: ProcessResult
    var storiesWithWorkItems: seq<Story>
    var accordionSections: seq<AccordionSection>
    var error: Option<string>
    var projectKey: Option<string>
    var createdStoryIds: seq<string>
    var wireRecordId: Option<string>
    var currentRecordId: Option<string>
    /** The toast events dispatched so far, oldest first. */
    var toasts: seq<Toast>

    constructor ()
      ensures !isLoading && !showResults && processingResult == NoResult
      ensures storiesWithWorkItems == [] && accordionSections == [] && error == None
      ensures projectKey == None && createdStoryIds == []
      ensures wireRecordId == None && currentRecordId == None && toasts == []
    {
      isLoading, showResults, processingResult := false, false, NoResult;
      storiesWithWorkItems, accordionSections, error := [], [], None;
      projectKey, createdStoryIds := None, [];
      wireRecordId, currentRecordId, toasts := None, None, [];
    }

    /** `getStateParameters`: a delivered page reference supplies the wired record id. */
    method GetStateParameters(reference: Option<PageReference>)
      modifies this`wireRecordId
      ensures wireRecordId == if reference.Some? then reference.value.stateRecordId else old(wireRecordId)
    {
      if reference.Some? {
        wireRecordId := reference.value.stateRecordId;
      }
    }

    /** The `recordId` setter. */
    method SetRecordId(value: Option<string>)
      modifies this`currentRecordId
      ensures currentRecordId == value
    {
      currentRecordId := value;
    }

    method ShowToast(title: string, message: string, variant: string)
      modifies this`toasts
      ensures toasts == old(toasts) + [Toast(title, message, variant)]
    {
      toasts := toasts + [Toast(title, message, variant)];
    }

    // The state after `handleProcessJiraIssues` ran with a project key, given the fields that
    // step may change as they were before it.
    ghost predicate AfterProcessing(
      processCall: Call<Option<ProcessResult>>, fetchCall: Call<Option<seq<Story>>>,
      result0: ProcessResult, stories0: seq<Story>, sections0: seq<AccordionSection>,
      toasts0: seq<Toast>)
      reads this
    {
      && !isLoading && showResults
      && match ProcessFailure(processCall)
         case Some(f) =>
           && error == FailureMessage(f) && createdStoryIds == [] && processingResult == result0
           && storiesWithWorkItems == stories0 && accordionSections == sections0
           && toasts == toasts0 + [Toast("Error", "Failed to process Jira issues: " + Show(FailureMessage(f)), "error")]
         case None =>
           var result := processCall.value.value;
           && processingResult == result
           && createdStoryIds == result.storyIds.GetOr([])
           && if ReportsErrors(result) then
                && error == Some(Join(result.errors.value, ", "))
                && storiesWithWorkItems == stories0 && accordionSections == sections0
                && toasts == toasts0 + [Toast("Error", Join(result.errors.value, ", "), "error")]
              else
                var success := Toast("Success", SummaryLine(result.storiesCreated, result.workItemsCreated), "success");
                && error == None
                && if createdStoryIds == [] then
                     && storiesWithWorkItems == stories0 && accordionSections == sections0
                     && toasts == toasts0 + [success, Toast("Warning", "No stories were created", "warning")]
                   else
                     Fetched(fetchCall, sections0, toasts0 + [success])
    }

    // The state after `fetchStoriesWithWorkItems`, given the rows and toasts before it.
    ghost predicate Fetched(fetchCall: Call<Option<seq<Story>>>, sections0: seq<AccordionSection>, toasts0: seq<Toast>)
      reads this
    {
      match fetchCall
      case Returned(stories) =>
        && storiesWithWorkItems == stories.GetOr([])
        && accordionSections == AccordionData(storiesWithWorkItems)
        && toasts == toasts0
      case Threw(f) =>
        && storiesWithWorkItems == [] && accordionSections == sections0
        && toasts == toasts0 + [Toast("Error", "Failed to fetch stories: " + Show(FailureMessage(f)), "error")]
    }

    /** `initializeComponent`, with the results of the project-key query, of the processing
        call and of the story query as parameters. */
    method InitializeComponent(
      keyCall: Call<Option<string>>, processCall: Call<Option<ProcessResult>>,
      fetchCall: Call<Option<seq<Story>>>)
      modifies this`isLoading, this`error, this`projectKey, this`createdStoryIds,
               this`processingResult, this`toasts, this`storiesWithWorkItems,
               this`accordionSections, this`showResults
      ensures !Truthy(old(wireRecordId)) && !Truthy(old(currentRecordId)) ==>
        && error == Some("No record ID provided")
        && toasts == old(toasts) + [Toast("Error", "Record ID is required", "error")]
        && isLoading == old(isLoading) && projectKey == old(projectKey)
        && ResultsUnchanged()
      ensures (Truthy(old(wireRecordId)) || Truthy(old(currentRecordId))) && keyCall.Threw? ==>
        && error == FailureMessage(keyCall.failure) && !isLoading && projectKey == old(projectKey)
        && toasts == old(toasts) + [Toast("Error", "Failed to initialize: " + Show(error), "error")]
        && ResultsUnchanged()
      ensures (Truthy(old(wireRecordId)) || Truthy(old(currentRecordId))) && keyCall.Returned? ==>
        && projectKey == keyCall.value
        && if !Truthy(keyCall.value) then
             && error == Some("No Jira Project Key found") && !isLoading
             && toasts == old(toasts) + [Toast("Error", "Jira Project Key is not configured", "error")]
             && ResultsUnchanged()
           else
             && AfterProcessing(processCall, fetchCall, old(processingResult),
                                old(storiesWithWorkItems), old(accordionSections), old(toasts))
             && HasResults()
    {
      if !Truthy(wireRecordId) && !Truthy(currentRecordId) {
        error := Some("No record ID provided");
        ShowToast("Error", "Record ID is required", "error");
        return;
      }
      isLoading := true;
      match keyCall {
        case Threw(f) =>
          error := FailureMessage(f);
          ShowToast("Error", "Failed to initialize: " + Show(error), "error");
          isLoading := false;
        case Returned(key) =>
          projectKey := key;
          if !Truthy(projectKey) {
            error := Some("No Jira Project Key found");
            ShowToast("Error", "Jira Project Key is not configured", "error");
            isLoading := false;
            return;
          }
          HandleProcessJiraIssues(processCall, fetchCall);
      }
    }

    twostate predicate ResultsUnchanged()
      reads this
    {
      && showResults == old(showResults) && processingResult == old(processingResult)
      && createdStoryIds == old(createdStoryIds) && storiesWithWorkItems == old(storiesWithWorkItems)
      && accordionSections == old(accordionSections)
    }

    /** `handleProcessJiraIssues`: without a project key it only reports the missing key;
        otherwise it always ends not loading and showing results. */
    method HandleProcessJiraIssues(processCall: Call<Option<ProcessResult>>, fetchCall: Call<Option<seq<Story>>>)
      modifies this`isLoading, this`error, this`createdStoryIds, this`processingResult,
               this`toasts, this`storiesWithWorkItems, this`accordionSections, this`showResults
      ensures !Truthy(projectKey) ==>
        && error == Some("Project key is not available")
        && toasts == old(toasts) + [Toast("Error", "Project key is required", "error")]
        && isLoading == old(isLoading) && ResultsUnchanged()
      ensures Truthy(projectKey) ==>
        && AfterProcessing(processCall, fetchCall, old(processingResult),
                           old(storiesWithWorkItems), old(accordionSections), old(toasts))
        && HasResults()
    {
      if !Truthy(projectKey) {
        error := Some("Project key is not available");
        ShowToast("Error", "Project key is required", "error");
        return;
      }
      isLoading := true;
      error := None;
      createdStoryIds := [];
      var thrown: Option<Failure> := None;
      match processCall {
        case Threw(f) =>
          thrown := Some(f);
        case Returned(None) =>
          thrown := Some(Failure(None, Some(NullResultMessage)));
        case Returned(Some(result)) =>
          processingResult := result;
          createdStoryIds := result.storyIds.GetOr([]);
          if ReportsErrors(result) {
            error := Some(Join(result.errors.value, ", "));
            ShowToast("Error", error.value, "error");
          } else {
            ShowToast("Success", SummaryLine(result.storiesCreated, result.workItemsCreated), "success");
            if |createdStoryIds| > 0 {
              FetchStoriesWithWorkItems(fetchCall);
            } else {
              ShowToast("Warning", "No stories were created", "warning");
            }
          }
      }
      if thrown.Some? {
        error := FailureMessage(thrown.value);
        ShowToast("Error", "Failed to process Jira issues: " + Show(error), "error");
      }
      isLoading := false;
      showResults := true;
    }

    /** `fetchStoriesWithWorkItems`, with the story query's outcome as a parameter. */
    method FetchStoriesWithWorkItems(fetchCall: Call<Option<seq<Story>>>)
      modifies this`storiesWithWorkItems, this`accordionSections, this`toasts
      ensures Fetched(fetchCall, old(accordionSections), old(toasts))
    {
      match fetchCall {
        case Returned(stories) =>
          storiesWithWorkItems := stories.GetOr([]);
          PrepareAccordionData();
        case Threw(f) =>
          ShowToast("Error", "Failed to fetch stories: " + Show(FailureMessage(f)), "error");
          storiesWithWorkItems := [];
      }
    }

    /** `prepareAccordionData`: the rows are rebuilt from the fetched stories. */
    method PrepareAccordionData()
      modifies this`accordionSections
      ensures accordionSections == AccordionData(storiesWithWorkItems)
    {
      accordionSections := AccordionData(storiesWithWorkItems);
    }

    function HasResults(): bool
      reads this
    {
      showResults && !isLoading
    }

    function HasError(): bool
      reads this
    {
      Truthy(error) && !isLoading
    }

    function HasStories(): bool
      reads this
    {
      |storiesWithWorkItems| > 0
    }

    function SummaryMessage(): string
      reads this
    {
      Summary(processingResult)
    }

    function CurrentProjectKey(): string
      reads this
    {
      ProjectKeyLabel(projectKey)
    }
  }
}
