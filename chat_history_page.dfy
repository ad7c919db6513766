/**
 * streaming_with_chat_history.py: a chat page that keeps its messages in session_state, sends
 * the newest prompt to the assistant, shows the streamed answer through the result buffer,
 * stores the final answer, and finally renders an image tag built by format_image_html.
 */
module ChatHistoryPage {
  import opened Wrappers
  import opened Text
  import opened DeltaBuffer
  import opened Streaming

  // ---------------------------------------------------------------- format_image_html

  const ImgOpen := "<br><img src=\""
  const WidthSep := "\" width=\""
  const HeightSep := "\" height=\""
  const ImgClose := "\">"

  /** Width and height the page passes to format_image_html (line 79). */
  const ImageSide: nat := 500

  /** format_image_html(url, width, height): an f-string, so the numbers appear as str(n). */
  function FormatImageHtml(url: string, width: nat, height: nat): string
  {
    ImgOpen + url + WidthSep + NatToDecimal(width) + HeightSep + NatToDecimal(height) + ImgClose
  }

  /** The three arguments as they can be read back from a tag. */
  datatype ImageTag = ImageTag(url: string, width: nat, height: nat)

  predicate IsDigit(c: char)
  {
    '0' <= c <= '9'
  }

  /** Length of the run of decimal digits at the end of s. */
  function TrailingDigits(s: string): (n: nat)
    ensures n <= |s|
    ensures forall i :: |s| - n <= i < |s| ==> IsDigit(s[i])
    ensures n < |s| ==> !IsDigit(s[|s| - n - 1])
  {
    if s != [] && IsDigit(s[|s| - 1]) then TrailingDigits(s[..|s| - 1]) + 1 else 0
  }

  /** s without the suffix t, when s ends with t. */
  function CutSuffix(s: string, t: string): Option<string>
  {
    if |t| <= |s| && s[|s| - |t|..] == t then Some(s[..|s| - |t|]) else None
  }

  /** s without the prefix t, when s starts with t. */
  function CutPrefix(s: string, t: string): Option<string>
  {
    if |t| <= |s| && s[..|t|] == t then Some(s[|t|..]) else None
  }

  /** Splits "<rest><sep><digits>" into the rest and the value of the digits. */
  function SplitNumber(s: string, sep: string): Option<(string, nat)>
  {
    var n := TrailingDigits(s);
    if n == 0 then None
    else
      var digits := s[|s| - n..];
      assert forall i :: 0 <= i < |digits| ==> digits[i] == s[|s| - n + i];
      match CutSuffix(s[..|s| - n], sep)
      case None => None
      case Some(rest) => Some((rest, DecimalValue(digits)))
  }

  /**
   * Reads the arguments back from a tag, from the right: the height, then the width, then the
   * url, which is everything between the opening text and the width attribute.
   */
  function ParseImageHtml(html: string): Option<ImageTag>
  {
    match CutSuffix(html, ImgClose)
    case None => None
    case Some(a) =>
      match SplitNumber(a, HeightSep)
      case None => None
      case Some((b, height)) =>
        match SplitNumber(b, WidthSep)
        case None => None
        case Some((c, width)) =>
          match CutPrefix(c, ImgOpen)
          case None => None
          case Some(url) => Some(ImageTag(url, width, height))
  }

  lemma {:induction false} TrailingDigitsOf(x: string, d: string)
    requires x != [] && !IsDigit(x[|x| - 1])
    requires forall i :: 0 <= i < |d| ==> IsDigit(d[i])
    ensures TrailingDigits(x + d) == |d|
    decreases |d|
  {
    if d == [] {
      assert x + d == x;
    } else {
      assert (x + d)[..|x + d| - 1] == x + d[..|d| - 1];
      TrailingDigitsOf(x, d[..|d| - 1]);
    }
  }

  lemma CutSuffixOf(x: string, t: string)
    ensures CutSuffix(x + t, t) == Some(x)
  {
    assert (x + t)[|x|..] == t && (x + t)[..|x|] == x;
  }

  lemma CutPrefixOf(t: string, x: string)
    ensures CutPrefix(t + x, t) == Some(x)
  {
    assert (t + x)[..|t|] == t && (t + x)[|t|..] == x;
  }

  /** A number printed after a separator that ends in a non-digit is read back exactly. */
  lemma SplitNumberOf(x: string, sep: string, v: nat)
    requires sep != [] && !IsDigit(sep[|sep| - 1])
    ensures SplitNumber(x + sep + NatToDecimal(v), sep) == Some((x, v))
  {
    var d := NatToDecimal(v);
    var s := x + sep + d;
    assert (x + sep)[|x + sep| - 1] == sep[|sep| - 1];
    TrailingDigitsOf(x + sep, d);
    assert s[..|s| - |d|] == x + sep;
    assert s[|s| - |d|..] == d;
    CutSuffixOf(x, sep);
    DecimalRoundTrip(v);
  }

  /**
   * Every tag format_image_html builds can be read back to its arguments, whatever the url
   * holds (quotes included), because the numbers are digits and are read from the right.
   */
  lemma ParseFormat(url: string, width: nat, height: nat)
    ensures ParseImageHtml(FormatImageHtml(url, width, height)) == Some(ImageTag(url, width, height))
  {
    var c := ImgOpen + url;
    var b := c + WidthSep + NatToDecimal(width);
    var a := b + HeightSep + NatToDecimal(height);
    assert FormatImageHtml(url, width, height) == a + ImgClose;
    CutSuffixOf(a, ImgClose);
    SplitNumberOf(b, HeightSep, height);
    SplitNumberOf(c, WidthSep, width);
    CutPrefixOf(ImgOpen, url);
  }

  /** Different arguments give different tags. */
  lemma FormatImageHtmlInjective(url: string, width: nat, height: nat, url': string, width': nat, height': nat)
    requires FormatImageHtml(url, width, height) == FormatImageHtml(url', width', height')
    ensures url == url' && width == width' && height == height'
  {
    ParseFormat(url, width, height);
    ParseFormat(url', width', height');
  }

  /** The tag the page renders for an image url: a line break and a 500 by 500 image. */
  lemma PageImageTag(url: string)
    ensures FormatImageHtml(url, ImageSide, ImageSide)
            == "<br><img src=\"" + url + "\" width=\"500\" height=\"500\">"
  {
    assert NatToDecimal(500) == NatToDecimal(50) + ['0'];
    assert NatToDecimal(50) == NatToDecimal(5) + ['0'];
  }

  // ---------------------------------------------------------------- the page

  const DefaultModel := "gpt-3.5-turbo"
  const ImageUrlKey := "image_url"

  /** What st.error shows: an exception from the assistant service, or the KeyError of a missing key. */
  datatype PageError = ServiceFailure(msg: string) | MissingKey(key: string)

  /**
   * What the assistant service does with a prompt: it streams text deltas and then either
   * completes with the final message text, or raises an exception with the given text.
   */
  datatype Reply = Answered(deltas: seq<string>, text: string) | Failed(deltas: seq<string>, msg: string)

  /**
   * The session keys the page reads, None while absent: openai_model, messages and image_url;
   * cdnKey says whether the key "cdn.tourradar.com" is present. No line of the page sets the
   * last two.
   */
  datatype PageState = PageState(model: Option<string>, messages: Option<seq<Turn>>, imageUrl: Option<string>, cdnKey: bool)

  /**
   * What one run produced: the content sent to the assistant, every text res_box showed, the
   * image tag rendered and the error shown.
   */
  datatype Outcome = Outcome(sent: Option<string>, redraws: seq<string>, image: Option<string>, error: Option<PageError>)

  /** Lines 38-42: each key gets its default only when it is absent. */
  function WithDefaults(s: PageState): (r: PageState)
    ensures r.model.Some? && r.messages.Some?
    ensures r.model == if s.model.Some? then s.model else Some(DefaultModel)
    ensures r.messages == if s.messages.Some? then s.messages else Some([])
    ensures r.imageUrl == s.imageUrl && r.cdnKey == s.cdnKey
  {
    PageState(
      if s.model.None? then Some(DefaultModel) else s.model,
      if s.messages.None? then Some([]) else s.messages,
      s.imageUrl, s.cdnKey)
  }

  /** Lines 48-75: a prompt adds the user message, and a completed answer adds the assistant message. */
  function Conversation(s: PageState, prompt: string, reply: Reply): (r: PageState)
    requires s.messages.Some?
    ensures r.messages.Some? && r.model == s.model && r.imageUrl == s.imageUrl && r.cdnKey == s.cdnKey
    ensures prompt == "" ==> r.messages == s.messages
    ensures prompt != "" && reply.Answered? ==>
              r.messages.value == s.messages.value + [Turn(User, prompt), Turn(Assistant, reply.text)]
    ensures prompt != "" && reply.Failed? ==> r.messages.value == s.messages.value + [Turn(User, prompt)]
  {
    if prompt == "" then s
    else
      var asked := s.messages.value + [Turn(User, prompt)];
      s.(messages := Some(if reply.Answered? then asked + [Turn(Assistant, reply.text)] else asked))
  }

  /** Lines 78-80: the image tag when image_url is present; only the cdn key present is a KeyError. */
  function ImageSection(s: PageState): (r: (Option<string>, Option<PageError>))
    ensures r.0.Some? <==> s.imageUrl.Some?
    ensures r.0.Some? ==> ParseImageHtml(r.0.value) == Some(ImageTag(s.imageUrl.value, ImageSide, ImageSide))
    ensures r.1.Some? <==> s.imageUrl.None? && s.cdnKey
    ensures r.1.Some? ==> r.1.value == MissingKey(ImageUrlKey)
  {
    if s.imageUrl.Some? then
      ParseFormat(s.imageUrl.value, ImageSide, ImageSide);
      (Some(FormatImageHtml(s.imageUrl.value, ImageSide, ImageSide)), None)
    else if s.cdnKey then (None, Some(MissingKey(ImageUrlKey)))
    else (None, None)
  }

  /**
   * One script run. threadError is the exception of threads.create (line 36), which is raised
   * before anything else; an exception of the stream skips the image section; both end in
   * st.error (lines 81-82). An empty prompt stands for chat_input returning nothing.
   */
  function Run(s: PageState, threadError: Option<string>, prompt: string, reply: Reply): (r: (PageState, Outcome))
    ensures threadError.Some? ==> r.0 == s && r.1.error == Some(ServiceFailure(threadError.value))
    ensures threadError.None? ==> r.0 == Conversation(WithDefaults(s), prompt, reply)
    ensures r.1.sent == if threadError.None? && prompt != "" then Some(prompt) else None
    ensures r.1.redraws == if r.1.sent.Some? then Renders(reply.deltas) else []
  {
    if threadError.Some? then (s, Outcome(None, [], None, Some(ServiceFailure(threadError.value))))
    else
      var t := Conversation(WithDefaults(s), prompt, reply);
      var sent := if prompt == "" then None else Some(prompt);
      var redraws := if prompt == "" then [] else Renders(reply.deltas);
      if prompt != "" && reply.Failed? then (t, Outcome(sent, redraws, None, Some(ServiceFailure(reply.msg))))
      else
        var (image, error) := ImageSection(t);
        (t, Outcome(sent, redraws, image, error))
  }

  /** Re-running the initialisation changes nothing: existing messages and model survive. */
  lemma WithDefaultsIdempotent(s: PageState)
    ensures WithDefaults(WithDefaults(s)) == WithDefaults(s)
    ensures s.messages.Some? && s.model.Some? ==> WithDefaults(s) == s
  {
  }

  /**
   * A run with a prompt and a completed answer grows the history by exactly two messages, the
   * prompt as the user's and the answer as the assistant's, and sends the prompt itself.
   */
  lemma CompletedCycle(s: PageState, prompt: string, deltas: seq<string>, text: string)
    requires prompt != ""
    ensures var r := Run(s, None, prompt, Answered(deltas, text));
            var before := if s.messages.Some? then s.messages.value else [];
            && r.0.messages == Some(before + [Turn(User, prompt), Turn(Assistant, text)])
            && r.1.sent == Some(prompt) && r.1.redraws == Renders(deltas)
  {
  }

  /** An answer that fails midway keeps the user's message without a reply and shows the error. */
  lemma FailedCycle(s: PageState, prompt: string, deltas: seq<string>, msg: string)
    requires prompt != ""
    ensures var r := Run(s, None, prompt, Failed(deltas, msg));
            var before := if s.messages.Some? then s.messages.value else [];
            && r.0.messages == Some(before + [Turn(User, prompt)])
            && r.1.error == Some(ServiceFailure(msg)) && r.1.image == None
  {
  }

  /** While every answer completes, the history stays a list of (user, assistant) pairs. */
  lemma {:induction false} RunKeepsPairs(s: PageState, threadError: Option<string>, prompt: string, reply: Reply)
    requires s.messages.Some? ==> Alternates(s.messages.value)
    requires reply.Answered?
    ensures var r := Run(s, threadError, prompt, reply);
            r.0.messages.Some? ==> Alternates(r.0.messages.value)
  {
    if threadError.None? && prompt != "" {
      AppendPairAlternates(WithDefaults(s).messages.value, prompt, reply.text);
    }
  }

  /**
   * One failed answer breaks the pairing for good: the next prompt lands right after the
   * unanswered one.
   */
  lemma FailureBreaksPairs(p: string, q: string, msg: string, text: string)
    requires p != "" && q != ""
    ensures var s := Run(PageState(None, None, None, false), None, p, Failed([], msg)).0;
            var h := Run(s, None, q, Answered([], text)).0.messages.value;
            h == [Turn(User, p), Turn(User, q), Turn(Assistant, text)] && !Alternates(h)
  {
    var s := Run(PageState(None, None, None, false), None, p, Failed([], msg)).0;
    assert s.messages == Some([] + [Turn(User, p)]);
    var h := Run(s, None, q, Answered([], text)).0.messages.value;
    assert h == [Turn(User, p)] + [Turn(User, q), Turn(Assistant, text)];
    assert h[1].role == User;
  }

  /** The cdn key without image_url is an error even when the page had no prompt. */
  lemma MissingImageUrl(s: PageState)
    requires s.imageUrl.None? && s.cdnKey
    ensures Run(s, None, "", Answered([], "")).1.error == Some(MissingKey(ImageUrlKey))
  {
  }

  /** The session keys of the page, updated in place by each run. */
  class MessagesPage {
    var hasModel: bool
    var openaiModel: string
    var hasMessages: bool
    var messages: seq<Turn>
    var hasImageUrl: bool
    var imageUrl: string
    var hasCdnKey: bool

    function Snapshot(): PageState
      reads this
    {
      PageState(
        if hasModel then Some(openaiModel) else None,
        if hasMessages then Some(messages) else None,
        if hasImageUrl then Some(imageUrl) else None,
        hasCdnKey)
    }

    /** A new session; image_url and the cdn key are whatever other pages of the app stored. */
    constructor (url: Option<string>, cdnKey: bool)
      ensures Snapshot() == PageState(None, None, url, cdnKey)
    {
      hasModel := false;
      openaiModel := "";
      hasMessages := false;
      messages := [];
      hasImageUrl := url.Some?;
      imageUrl := if url.Some? then url.value else "";
      hasCdnKey := cdnKey;
    }

    /** Lines 38-42: the model name and the message list are created only when absent. */
    method InitState()
      modifies this
      ensures Snapshot() == WithDefaults(old(Snapshot()))
    {
      if !hasModel {
        hasModel := true;
        openaiModel := DefaultModel;
      }
      if !hasMessages {
        hasMessages := true;
        messages := [];
      }
    }

    /**
     * Lines 48-75: a prompt is appended as the user's message, messages[-1] is sent, the deltas
     * are shown, and a completed answer is appended as the assistant's message.
     */
    method Converse(prompt: string, reply: Reply) returns (sent: Option<string>, redraws: seq<string>)
      requires hasMessages
      modifies this
      ensures Snapshot() == Conversation(old(Snapshot()), prompt, reply)
      ensures sent == if prompt != "" then Some(prompt) else None
      ensures redraws == if prompt != "" then Renders(reply.deltas) else []
    {
      sent := None;
      redraws := [];
      if prompt != "" {
        messages := messages + [Turn(User, prompt)];
        sent := Some(messages[|messages| - 1].content);
        redraws := RunStream(reply.deltas);
        if reply.Answered? {
          messages := messages + [Turn(Assistant, reply.text)];
        }
      }
    }

    /** Lines 78-80: the image tag, or the KeyError of a cdn key without image_url. */
    method ShowImage() returns (image: Option<string>, error: Option<PageError>)
      ensures (image, error) == ImageSection(Snapshot())
    {
      image := None;
      error := None;
      if hasImageUrl || hasCdnKey {
        if hasImageUrl {
          image := Some(FormatImageHtml(imageUrl, ImageSide, ImageSide));
        } else {
          error := Some(MissingKey(ImageUrlKey));
        }
      }
    }

    /** One script run, lines 35-82. */
    method RunScript(threadError: Option<string>, prompt: string, reply: Reply) returns (out: Outcome)
      modifies this
      ensures (Snapshot(), out) == Run(old(Snapshot()), threadError, prompt, reply)
    {
      if threadError.Some? {
        return Outcome(None, [], None, Some(ServiceFailure(threadError.value)));
      }
      InitState();
      var sent, redraws := Converse(prompt, reply);
      if prompt != "" && reply.Failed? {
        return Outcome(sent, redraws, None, Some(ServiceFailure(reply.msg)));
      }
      var image, error := ShowImage();
      out := Outcome(sent, redraws, image, error);
    }
  }
}
