/** The prompt proposals block: it fetches a list of prompt variations for
    the analysis, selects the first, and reports the selected prompt to the
    page whenever the selection is made. */
module PromptProposal {
  import opened Wrappers
  import opened PipelineState
  import opened VideoGenerator

  /** The message of the `TypeError` raised when a successful reply holds
      no proposal and the first one's prompt is read (the V8 wording). */
  const NO_FIRST_PROPOSAL: string := "Cannot read properties of undefined (reading 'prompt')"

  /** The fetch happens by itself only once there is an analysis and hashtags. */
  predicate AutoFetches(hasAnalysis: bool, hasHashtags: bool) {
    hasAnalysis && hasHashtags
  }

  class ProposalView {
    var proposals: seq<Proposal>
    var selectedIndex: nat
    var loading: bool
    var error: string
    /** The last prompt handed to the page's `onPromptsReady`. */
    var reported: Option<string>

    /** Whenever there are proposals, one of them is selected and its
        prompt is the one the page last heard of. */
    predicate Valid()
      reads this
    {
      |proposals| > 0 ==> selectedIndex < |proposals| && reported == Some(proposals[selectedIndex].prompt)
    }

    constructor()
      ensures proposals == [] && selectedIndex == 0 && !loading && error == "" && reported == None
      ensures Valid()
    {
      proposals := [];
      selectedIndex := 0;
      loading := false;
      error := "";
      reported := None;
    }

    /** Before the request: loading, no error and no proposals. */
    method BeginFetch()
      modifies this
      ensures loading && error == "" && proposals == []
      ensures selectedIndex == old(selectedIndex) && reported == old(reported)
      ensures Valid()
    {
      loading := true;
      error := "";
      proposals := [];
    }

    /** The reply. With proposals the first is selected and reported; a
        reply without any keeps the list empty and fails on the first
        one's prompt; a failed request keeps the list empty and shows its
        error. Loading ends either way. */
    method CompleteFetch(outcome: Response<seq<Proposal>>)
      requires proposals == []
      modifies this
      ensures !loading && Valid()
      ensures outcome.OkBody? && outcome.body != [] ==>
                proposals == outcome.body && selectedIndex == 0
                && reported == Some(outcome.body[0].prompt) && error == old(error)
      ensures outcome.OkBody? && outcome.body == [] ==>
                proposals == [] && selectedIndex == 0 && reported == old(reported) && error == NO_FIRST_PROPOSAL
      ensures !outcome.OkBody? ==>
                proposals == [] && selectedIndex == old(selectedIndex) && reported == old(reported)
                && error == ErrorMessage(outcome)
    {
      if outcome.OkBody? {
        proposals := outcome.body;
        selectedIndex := 0;
        if |outcome.body| > 0 {
          reported := Some(outcome.body[0].prompt);
        } else {
          error := NO_FIRST_PROPOSAL;
        }
      } else {
        error := ErrorMessage(outcome);
      }
      loading := false;
    }

    /** Choosing a proposal selects it and reports its prompt. */
    method Select(index: nat)
      requires index < |proposals|
      modifies this
      ensures proposals == old(proposals) && loading == old(loading) && error == old(error)
      ensures selectedIndex == index && reported == Some(proposals[index].prompt)
      ensures Valid()
    {
      selectedIndex := index;
      reported := Some(proposals[index].prompt);
    }
  }

  /** What the block shows: a spinner while loading, else the error with a
      retry, else nothing without proposals, else the options. */
  datatype ProposalScreen = Spinner | Failure(message: string) | Hidden | Options(selected: nat)

  function ScreenOf(loading: bool, error: string, proposals: seq<Proposal>, selectedIndex: nat): (s: ProposalScreen)
    ensures s == Spinner <==> loading
    ensures s.Failure? <==> !loading && error != ""
    ensures s.Failure? ==> s.message == error
    ensures s == Hidden <==> !loading && error == "" && proposals == []
    ensures s.Options? ==> s.selected == selectedIndex
  {
    if loading then Spinner
    else if error != "" then Failure(error)
    else if proposals == [] then Hidden
    else Options(selectedIndex)
  }
}
