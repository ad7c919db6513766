/**
 * The chat page of streaming.py: chat() turns the completion stream into one text item per
 * chunk, and the session keeps the transcript, the streaming flag and the pending generator.
 * One Streamlit script run is one step of the session; st.rerun() ends the step.
 */
module Streaming {
  import opened Wrappers
  import opened Text

  datatype Role = User | Assistant

  /** One {"role", "content"} entry of the chat history. */
  datatype Turn = Turn(role: Role, content: string)

  /** A chunk of the completion stream, as the per-chunk handler of chat() sees it. */
  datatype Chunk =
    | Delta(content: string)  // finish_reason is not "stop": the delta text is yielded
    | Stop                    // finish_reason == "stop"
    | Bad(msg: string)        // reading the chunk raised an exception whose text is msg

  /**
   * What the completion service delivers: the chunks that arrive, then possibly an exception
   * raised outside the per-chunk handler (posting the message, opening the run, or iterating).
   */
  datatype Stream = Stream(chunks: seq<Chunk>, failure: Option<string>)

  const ErrorPrefix := "error: "
  const ParentErrorPrefix := "parent error: "
  /** str(e) of the IndexError raised by messages[0] on an empty list */
  const IndexErrorText := "list index out of range"

  function ChunkItem(c: Chunk): string
  {
    match c
    case Delta(s) => s
    case Stop => ""
    case Bad(m) => ErrorPrefix + m
  }

  /** The items the per-chunk handler yields: exactly one per chunk, in arrival order. */
  function ChunkItems(cs: seq<Chunk>): (r: seq<string>)
    ensures |r| == |cs|
    ensures forall i :: 0 <= i < |cs| ==>
              && (cs[i].Delta? ==> r[i] == cs[i].content)
              && (cs[i].Stop? ==> r[i] == "")
              && (cs[i].Bad? ==> r[i] == ErrorPrefix + cs[i].msg)
  {
    if cs == [] then [] else ChunkItems(cs[..|cs| - 1]) + [ChunkItem(cs[|cs| - 1])]
  }

  /** More chunks arriving only extends what was already yielded: nothing is reordered or merged. */
  lemma {:induction false} ChunkItemsAppend(a: seq<Chunk>, b: seq<Chunk>)
    ensures ChunkItems(a + b) == ChunkItems(a) + ChunkItems(b)
  {
    if b == [] {
      assert a + b == a;
    } else {
      var b' := b[..|b| - 1];
      assert (a + b)[..|a + b| - 1] == a + b';
      ChunkItemsAppend(a, b');
    }
  }

  /**
   * The items chat() yields for one stream: the per-chunk items, then, when an exception
   * escaped the loop, one "parent error" item, after which the generator ends.
   */
  function Decode(s: Stream): (r: seq<string>)
    ensures |r| == |s.chunks| + (if s.failure.Some? then 1 else 0)
    ensures r[..|s.chunks|] == ChunkItems(s.chunks)
    ensures s.failure.Some? ==> r[|r| - 1] == ParentErrorPrefix + s.failure.value
  {
    match s.failure
    case None => ChunkItems(s.chunks)
    case Some(m) => ChunkItems(s.chunks) + [ParentErrorPrefix + m]
  }

  /** The prompt chat() posts: messages[0]["content"], or None when messages[0] raises. */
  function FirstContent(messages: seq<Turn>): Option<string>
  {
    if messages == [] then None else Some(messages[0].content)
  }

  /**
   * chat(messages, thread_id): the items of the generator, given the completion service as a
   * function from the posted prompt to the stream it answers with.
   */
  function Chat(messages: seq<Turn>, service: string -> Stream): (r: seq<string>)
    ensures messages != [] ==> r == Decode(service(messages[0].content))
    ensures messages == [] ==> r == [ParentErrorPrefix + IndexErrorText]
  {
    match FirstContent(messages)
    case None => [ParentErrorPrefix + IndexErrorText]
    case Some(prompt) => Decode(service(prompt))
  }

  /** A started generator: the items it will yield and how many it has yielded so far. */
  datatype Generator = Generator(items: seq<string>, cursor: nat)

  /**
   * The three st.session_state keys of the page; None while a key is absent:
   * chat_history, streaming and generator.
   */
  datatype Session = Session(history: Option<seq<Turn>>, streaming: Option<bool>, generator: Option<Generator>)

  /** A new browser session: no key is set yet. */
  const Fresh := Session(None, None, None)

  /** Turns come in (user, assistant) pairs. */
  predicate Alternates(h: seq<Turn>)
  {
    |h| % 2 == 0 && forall i :: 0 <= i < |h| ==> h[i].role == (if i % 2 == 0 then User else Assistant)
  }

  /**
   * What every reachable session satisfies: the history is a list of pairs; a generator exists
   * whenever the flag is up; the last turn holds exactly the items pulled from the current
   * generator, glued together; and a generator whose flag is down has been drained.
   */
  predicate Inv(s: Session)
  {
    && (s.history.Some? ==> Alternates(s.history.value))
    && (s.streaming == Some(true) ==> s.generator.Some?)
    && (s.generator.Some? ==>
          && s.history.Some? && s.streaming.Some?
          && |s.history.value| >= 2
          && s.generator.value.cursor <= |s.generator.value.items|
          && s.history.value[|s.history.value| - 1].content
             == Concat(s.generator.value.items[..s.generator.value.cursor])
          && (s.streaming == Some(false) ==> s.generator.value.cursor == |s.generator.value.items|))
  }

  /** Session state initialisation in main(): each key is created only when it is absent. */
  function Initialised(s: Session): (r: Session)
    ensures r.history == (if s.history.Some? then s.history else Some([]))
    ensures r.streaming == (if s.streaming.Some? then s.streaming else Some(false))
    ensures r.generator == s.generator
    ensures Inv(s) ==> Inv(r)
  {
    Session(if s.history.None? then Some([]) else s.history,
            if s.streaming.None? then Some(false) else s.streaming,
            s.generator)
  }

  /**
   * process_user_input with a non-empty input: append the user turn, install a new generator
   * over the whole history, raise the flag, append an empty assistant placeholder. It is
   * accepted whatever the flag says; a generator still running is dropped.
   */
  function Submitted(s: Session, input: string, service: string -> Stream): (r: Session)
    requires s.history.Some?
    ensures r.history == Some(s.history.value + [Turn(User, input), Turn(Assistant, "")])
    ensures r.streaming == Some(true)
    ensures r.generator.Some? && r.generator.value.cursor == 0
  {
    var h := s.history.value + [Turn(User, input)] + [Turn(Assistant, "")];
    assert h == s.history.value + [Turn(User, input), Turn(Assistant, "")];
    Session(Some(h), Some(true), Some(Generator(Chat(h, service), 0)))
  }

  /**
   * The new generator answers the first turn of the history, not the latest submission: only
   * on an empty history is the prompt the input just typed.
   */
  lemma SubmittedPrompt(s: Session, input: string, service: string -> Stream)
    requires s.history.Some?
    ensures Submitted(s, input, service).generator.value.items
            == Decode(service(if s.history.value == [] then input else s.history.value[0].content))
  {
    var h := Submitted(s, input, service).history.value;
    assert h[0] == if s.history.value == [] then Turn(User, input) else s.history.value[0];
  }

  /** chat_history[-1]["content"] += chunk */
  function AppendToLast(h: seq<Turn>, chunk: string): (r: seq<Turn>)
    requires h != []
    ensures |r| == |h| && r[..|h| - 1] == h[..|h| - 1]
    ensures r[|h| - 1].role == h[|h| - 1].role
    ensures r[|h| - 1].content == h[|h| - 1].content + chunk
  {
    h[..|h| - 1] + [h[|h| - 1].(content := h[|h| - 1].content + chunk)]
  }

  /**
   * update_assistant_response: next(generator) either yields a chunk, which is glued onto the
   * last turn, or raises StopIteration, which lowers the flag.
   */
  function Pulled(s: Session): (r: Session)
    requires s.history.Some? && s.generator.Some?
    requires s.generator.value.cursor < |s.generator.value.items| ==> s.history.value != []
    ensures s.generator.value.cursor < |s.generator.value.items| ==>
              && r.history == Some(AppendToLast(s.history.value, s.generator.value.items[s.generator.value.cursor]))
              && r.streaming == s.streaming
              && r.generator == Some(s.generator.value.(cursor := s.generator.value.cursor + 1))
    ensures s.generator.value.cursor >= |s.generator.value.items| ==>
              r == s.(streaming := Some(false))
  {
    var g := s.generator.value;
    if g.cursor < |g.items| then
      Session(Some(AppendToLast(s.history.value, g.items[g.cursor])), s.streaming,
              Some(Generator(g.items, g.cursor + 1)))
    else
      Session(s.history, Some(false), s.generator)
  }

  /** process_user_input: a submission when there is input, otherwise one pull from the generator. */
  function Processed(s: Session, input: string, service: string -> Stream): Session
    requires Inv(s) && s.history.Some?
    requires input == "" ==> s.generator.Some?
  {
    if input != "" then Submitted(s, input, service) else Pulled(s)
  }

  /** Lines 108-114: the chat interface runs only for a present, non-empty API key. */
  predicate ChatReached(apiKey: Option<string>)
  {
    apiKey.Some? && apiKey.value != ""
  }

  /**
   * One run of the script (main): initialise the keys; with a non-empty API key run the chat
   * interface. There threads.create (line 125) comes first: when it raises (threadError), the
   * exception ends the run before any input is processed. Otherwise the interface acts only
   * when there is input or a response is streaming.
   */
  function ScriptRun(s: Session, apiKey: Option<string>, threadError: Option<string>, input: string,
                     service: string -> Stream): Session
    requires Inv(s)
  {
    var t := Initialised(s);
    if ChatReached(apiKey) && threadError.None? && (input != "" || t.streaming.value) then
      Processed(t, input, service)
    else
      t
  }

  /** The exception a run lets escape: the thread failure, once the chat interface is reached. */
  function Raised(apiKey: Option<string>, threadError: Option<string>): Option<string>
  {
    if ChatReached(apiKey) then threadError else None
  }

  /**
   * A run whose thread creation fails leaves the session as the initialisation made it: no
   * submission and no pull, whatever the input, and the failure escapes the run.
   */
  lemma ThreadFailureKeepsSession(s: Session, apiKey: Option<string>, e: string, input: string,
                                  service: string -> Stream)
    requires Inv(s) && ChatReached(apiKey)
    ensures ScriptRun(s, apiKey, Some(e), input, service) == Initialised(s)
    ensures Raised(apiKey, Some(e)) == Some(e)
  {
  }

  /** Appending a user turn and then an assistant turn keeps the history a list of pairs. */
  lemma AppendPairAlternates(h: seq<Turn>, question: string, answer: string)
    requires Alternates(h)
    ensures Alternates(h + [Turn(User, question), Turn(Assistant, answer)])
  {
    var h' := h + [Turn(User, question), Turn(Assistant, answer)];
    forall i | 0 <= i < |h'|
      ensures h'[i].role == (if i % 2 == 0 then User else Assistant)
    {
      if i < |h| {
        assert h'[i] == h[i];
      }
    }
  }

  lemma SubmittedKeepsInv(s: Session, input: string, service: string -> Stream)
    requires Inv(s) && s.history.Some?
    ensures Inv(Submitted(s, input, service))
  {
    AppendPairAlternates(s.history.value, input, "");
    assert [] + [""] == [""];
  }

  lemma {:induction false} PulledKeepsInv(s: Session)
    requires Inv(s) && s.generator.Some?
    ensures Inv(Pulled(s))
  {
    var g := s.generator.value;
    if g.cursor < |g.items| {
      var h := s.history.value;
      var h' := AppendToLast(h, g.items[g.cursor]);
      forall i | 0 <= i < |h'|
        ensures h'[i].role == h[i].role
      {
        if i < |h| - 1 {
          assert h'[i] == h'[..|h| - 1][i];
        }
      }
      assert g.items[..g.cursor + 1][..g.cursor] == g.items[..g.cursor];
    }
  }

  /**
   * Every run of the script keeps the invariant; in particular the turn being streamed always
   * holds the concatenation of the items pulled so far, in order.
   */
  lemma ScriptRunKeepsInv(s: Session, apiKey: Option<string>, threadError: Option<string>, input: string,
                          service: string -> Stream)
    requires Inv(s)
    ensures Inv(ScriptRun(s, apiKey, threadError, input, service))
  {
    var t := Initialised(s);
    if ChatReached(apiKey) && threadError.None? && (input != "" || t.streaming.value) {
      if input != "" {
        SubmittedKeepsInv(t, input, service);
      } else {
        PulledKeepsInv(t);
      }
    }
  }

  /** k successive pulls from the session's generator (k script runs with no input). */
  function PulledTimes(s: Session, k: nat): (r: Session)
    requires Inv(s) && s.generator.Some?
    ensures Inv(r) && r.generator.Some? && r.generator.value.items == s.generator.value.items
  {
    if k == 0 then s
    else
      var t := PulledTimes(s, k - 1);
      PulledKeepsInv(t);
      Pulled(t)
  }

  /** The state a cycle is in after k pulls, while the generator still has items. */
  function Streamed(s: Session, input: string, items: seq<string>, k: nat): Session
    requires s.history.Some? && k <= |items|
  {
    Session(Some(s.history.value + [Turn(User, input), Turn(Assistant, Concat(items[..k]))]),
            Some(true), Some(Generator(items, k)))
  }

  lemma PullStreamed(s: Session, input: string, items: seq<string>, k: nat)
    requires s.history.Some? && k < |items|
    ensures Pulled(Streamed(s, input, items, k)) == Streamed(s, input, items, k + 1)
  {
    var h := Streamed(s, input, items, k).history.value;
    var h' := AppendToLast(h, items[k]);
    assert items[..k + 1][..k] == items[..k];
    assert h'[..|h| - 1] == h[..|h| - 1];
    assert h' == Streamed(s, input, items, k + 1).history.value;
  }

  /**
   * One whole cycle: after a submission and k pulls (k no larger than the number of items)
   * the transcript is the old one followed by the user turn and an assistant turn holding the
   * first k items glued together, and the flag is still up.
   */
  lemma {:induction false} CycleTranscript(s: Session, input: string, service: string -> Stream, k: nat)
    requires Inv(s) && s.history.Some?
    requires k <= |Submitted(s, input, service).generator.value.items|
    ensures PulledTimes(Submitted(s, input, service), k)
            == Streamed(s, input, Submitted(s, input, service).generator.value.items, k)
  {
    SubmittedKeepsInv(s, input, service);
    var t := Submitted(s, input, service);
    var items := t.generator.value.items;
    assert items[..0] == [];
    assert t == Streamed(s, input, items, 0);
    PulledFromStreamed(t, s, input, items, k);
  }

  /** k pulls from a freshly submitted state stream exactly the first k items. */
  lemma {:induction false} PulledFromStreamed(t: Session, s: Session, input: string, items: seq<string>, k: nat)
    requires s.history.Some? && k <= |items|
    requires Inv(t) && t == Streamed(s, input, items, 0)
    ensures PulledTimes(t, k) == Streamed(s, input, items, k)
  {
    if k > 0 {
      PulledFromStreamed(t, s, input, items, k - 1);
      PullStreamed(s, input, items, k - 1);
    }
  }

  /**
   * The pull after the last item lowers the flag and leaves the transcript as it is: the old
   * turns, the user turn, and every item of the stream glued together.
   */
  lemma CycleEnds(s: Session, input: string, service: string -> Stream)
    requires Inv(s) && s.history.Some?
    ensures var items := Submitted(s, input, service).generator.value.items;
            PulledTimes(Submitted(s, input, service), |items| + 1)
            == Session(Some(s.history.value + [Turn(User, input), Turn(Assistant, Concat(items))]),
                       Some(false), Some(Generator(items, |items|)))
  {
    var items := Submitted(s, input, service).generator.value.items;
    CycleTranscript(s, input, service, |items|);
    assert items[..|items|] == items;
  }

  /**
   * An exception escaping the loop keeps every item already yielded and glues the
   * "parent error" item on after them, with no separator.
   */
  lemma FailureKeepsPartial(cs: seq<Chunk>, m: string)
    ensures Concat(Decode(Stream(cs, Some(m)))) == Concat(ChunkItems(cs)) + ParentErrorPrefix + m
  {
    var items := ChunkItems(cs) + [ParentErrorPrefix + m];
    assert items[..|items| - 1] == ChunkItems(cs);
  }

  /** A stop chunk yields "", so it adds nothing to the glued answer. */
  lemma StopAddsNothing(cs: seq<Chunk>)
    ensures Concat(ChunkItems(cs + [Stop])) == Concat(ChunkItems(cs))
  {
    ChunkItemsAppend(cs, [Stop]);
    var items := ChunkItems(cs) + [""];
    assert ChunkItems([Stop]) == [""];
    assert items[..|items| - 1] == ChunkItems(cs);
  }

  /** Two deltas glue to their concatenation. */
  lemma TwoDeltas(a: string, b: string)
    ensures Concat(ChunkItems([Delta(a), Delta(b)])) == a + b
  {
    var items := ChunkItems([Delta(a), Delta(b)]);
    assert items == [a, b];
    assert items[..1] == [a] && [a][..0] == [];
    assert Concat([a]) == a;
    assert Concat(items) == Concat(items[..1]) + b;
  }

  /** An exception after some text: the text already shown stays, and the error follows it. */
  lemma PartialAnswerThenFailure()
    ensures Concat(Decode(Stream([Delta("Reykjavik "), Delta("is")], Some("timed out"))))
            == "Reykjavik isparent error: timed out"
  {
    FailureKeepsPartial([Delta("Reykjavik "), Delta("is")], "timed out");
    TwoDeltas("Reykjavik ", "is");
  }

  /** A stop chunk adds nothing: the answer of a finished stream is its deltas glued together. */
  lemma FinishedAnswer()
    ensures Concat(Decode(Stream([Delta("Mild "), Delta("in July."), Stop], None))) == "Mild in July."
  {
    var cs := [Delta("Mild "), Delta("in July.")];
    assert cs + [Stop] == [Delta("Mild "), Delta("in July."), Stop];
    StopAddsNothing(cs);
    TwoDeltas("Mild ", "in July.");
  }

  /** The session objects a Streamlit browser session holds in st.session_state. */
  class ChatSession {
    var hasHistory: bool
    var history: seq<Turn>
    var hasStreaming: bool
    var streaming: bool
    var hasGenerator: bool
    var frags: seq<string>
    var cursor: nat

    /** The keys as a value; a field whose presence flag is down stands for an absent key. */
    function Snapshot(): Session
      reads this
    {
      Session(if hasHistory then Some(history) else None,
              if hasStreaming then Some(streaming) else None,
              if hasGenerator then Some(Generator(frags, cursor)) else None)
    }

    ghost predicate Valid()
      reads this
    {
      Inv(Snapshot())
    }

    constructor ()
      ensures Valid() && Snapshot() == Fresh
    {
      hasHistory, history := false, [];
      hasStreaming, streaming := false, false;
      hasGenerator, frags, cursor := false, [], 0;
    }

    /** Lines 102-105 of main() */
    method InitState()
      requires Valid()
      modifies this
      ensures Valid() && Snapshot() == Initialised(old(Snapshot()))
    {
      if !hasHistory {
        hasHistory, history := true, [];
      }
      if !hasStreaming {
        hasStreaming, streaming := true, false;
      }
    }

    /** Lines 133-140 with a non-empty input: the pair is appended and a new generator installed. */
    method SubmitInput(userInput: string, service: string -> Stream)
      requires Valid() && hasHistory && hasStreaming
      modifies this
      ensures Valid() && Snapshot() == Submitted(old(Snapshot()), userInput, service)
    {
      ghost var after := Submitted(Snapshot(), userInput, service);
      SubmittedKeepsInv(Snapshot(), userInput, service);
      history := history + [Turn(User, userInput)];
      frags, cursor, hasGenerator := Chat(history + [Turn(Assistant, "")], service), 0, true;
      streaming := true;
      history := history + [Turn(Assistant, "")];
      assert Snapshot() == after;
    }

    method ProcessUserInput(userInput: string, service: string -> Stream)
      requires Valid() && hasHistory && hasStreaming
      requires userInput == "" ==> hasGenerator
      modifies this
      ensures Valid() && Snapshot() == Processed(old(Snapshot()), userInput, service)
    {
      if userInput != "" {
        SubmitInput(userInput, service);
      } else {
        UpdateAssistantResponse();
      }
    }

    method UpdateAssistantResponse()
      requires Valid() && hasGenerator
      modifies this
      ensures Valid() && Snapshot() == Pulled(old(Snapshot()))
    {
      PulledKeepsInv(Snapshot());
      if cursor < |frags| {
        var chunk := frags[cursor];
        cursor := cursor + 1;
        history := AppendToLast(history, chunk);
      } else {
        streaming := false;
      }
    }

    /**
     * run_chat_interface, once main() has initialised the keys: threads.create (line 125) either
     * raises, ending the run with nothing processed, or the input is processed when there is
     * input or a response is streaming (line 128).
     */
    method RunChatInterface(threadError: Option<string>, userInput: string, service: string -> Stream)
      returns (raised: Option<string>)
      requires Valid() && hasHistory && hasStreaming
      modifies this
      ensures Valid() && raised == threadError
      ensures Snapshot() == if threadError.None? && (userInput != "" || old(streaming))
                            then Processed(old(Snapshot()), userInput, service)
                            else old(Snapshot())
    {
      if threadError.Some? {
        return threadError;
      }
      raised := None;
      if userInput != "" || streaming {
        ProcessUserInput(userInput, service);
      }
    }

    /**
     * main(): one run of the script for the given API key secret, outcome of threads.create and
     * chat input; it reports the exception that escapes the run, if any.
     */
    method RunScript(apiKey: Option<string>, threadError: Option<string>, userInput: string,
                     service: string -> Stream) returns (raised: Option<string>)
      requires Valid()
      modifies this
      ensures Valid() && Snapshot() == ScriptRun(old(Snapshot()), apiKey, threadError, userInput, service)
      ensures raised == Raised(apiKey, threadError)
    {
      InitState();
      raised := None;
      match apiKey {
        case None =>
        case Some(key) =>
          if key != "" {
            raised := RunChatInterface(threadError, userInput, service);
          }
      }
    }
  }
}
