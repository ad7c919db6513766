/**
 * stream.py: a single-question page. The text box keyed "query" hands its value over to
 * session_state.user_input through the on_change callback submit(); each script run makes sure
 * user_input exists, and only a non-empty user_input is sent to the assistant, whose deltas are
 * shown through the result buffer.
 */
module StreamPage {
  import opened Wrappers
  import opened DeltaBuffer

  /** The session keys of the page; user_input is None until the first run creates it. */
  datatype Fields = Fields(userInput: Option<string>, query: string)

  /** Lines 10-11: user_input is set to "" only when it is absent. */
  function Initialised(f: Fields): (r: Fields)
    ensures r.userInput.Some? && r.query == f.query
    ensures f.userInput.Some? ==> r == f
    ensures f.userInput.None? ==> r.userInput == Some("")
  {
    if f.userInput.None? then f.(userInput := Some("")) else f
  }

  /** submit(): user_input takes the old query and the query box is cleared. */
  function Submitted(f: Fields): (r: Fields)
    ensures r.userInput == Some(f.query) && r.query == ""
  {
    Fields(Some(f.query), "")
  }

  /** What a run sends to the assistant: the user input, when it is not empty. */
  function Sent(f: Fields): (r: Option<string>)
    requires f.userInput.Some?
    ensures r.Some? <==> f.userInput.value != ""
    ensures r.Some? ==> r.value == f.userInput.value
  {
    if f.userInput.value != "" then Some(f.userInput.value) else None
  }

  /** Initialising twice is initialising once, and it never touches an existing user_input. */
  lemma InitialisedIdempotent(f: Fields)
    ensures Initialised(Initialised(f)) == Initialised(f)
    ensures f.userInput.Some? ==> Initialised(f).userInput == f.userInput
  {
  }

  /** The run after a submission sends exactly the text that was typed, unless it was empty. */
  lemma SubmittedQueryIsSent(f: Fields)
    ensures Sent(Initialised(Submitted(f))) == if f.query != "" then Some(f.query) else None
  {
  }

  /** k script runs with no submission in between: each one only initialises (lines 10-11). */
  function Reruns(f: Fields, k: nat): Fields
  {
    if k == 0 then f else Initialised(Reruns(f, k - 1))
  }

  /**
   * user_input is never cleared: after one submission, every later run keeps the submitted
   * state, and each of them sends the typed question again, unless it was empty.
   */
  lemma {:induction false} SubmittedQueryIsResent(f: Fields, k: nat)
    ensures Reruns(Submitted(f), k) == Submitted(f)
    ensures k >= 1 ==> Sent(Reruns(Submitted(f), k)) == if f.query != "" then Some(f.query) else None
  {
    if k > 0 {
      SubmittedQueryIsResent(f, k - 1);
    }
  }

  /** The page's session state, updated in place by the callback and by each run. */
  class QueryPage {
    var hasUserInput: bool
    var userInput: string
    var query: string

    function Snapshot(): Fields
      reads this
    {
      Fields(if hasUserInput then Some(userInput) else None, query)
    }

    /** A new session: no user_input yet and an empty query box. */
    constructor ()
      ensures Snapshot() == Fields(None, "")
    {
      hasUserInput := false;
      userInput := "";
      query := "";
    }

    /** The text box keyed "query" stores what the user typed (line 37). */
    method Enter(text: string)
      modifies this
      ensures Snapshot() == old(Snapshot()).(query := text)
    {
      query := text;
    }

    /** submit(), lines 14-16. */
    method Submit()
      modifies this
      ensures Snapshot() == Submitted(old(Snapshot()))
    {
      hasUserInput := true;
      userInput := query;
      query := "";
    }

    /**
     * One script run: lines 10-11 create user_input when absent. Lines 41-42 then retrieve the
     * assistant and create a thread; when either raises (sdkError) the exception ends the run
     * and nothing is sent. Otherwise, when user_input is not empty, lines 44-60 show
     * "Processing...", post it and redraw res_box once per delta that arrives; when posting or
     * streaming raises (streamError, with deltas the ones that arrived before it) the exception
     * ends the run after those redraws. The run reports what it sent, every text res_box showed
     * and the exception that escaped, if any.
     */
    method RunScript(sdkError: Option<string>, deltas: seq<string>, streamError: Option<string>)
      returns (sent: Option<string>, shown: seq<string>, raised: Option<string>)
      modifies this
      ensures Snapshot() == Initialised(old(Snapshot()))
      ensures sent == if sdkError.None? then Sent(Snapshot()) else None
      ensures shown == if sent.Some? then Renders(deltas) else []
      ensures raised == if sdkError.Some? then sdkError else if sent.Some? then streamError else None
    {
      if !hasUserInput {
        hasUserInput := true;
        userInput := "";
      }
      var input := userInput;
      if sdkError.Some? {
        return None, [], sdkError;
      }
      if input != "" {
        shown := RunStream(deltas);
        sent := Some(input);
        raised := streamError;
      } else {
        sent, shown, raised := None, [], None;
      }
    }
  }
}
