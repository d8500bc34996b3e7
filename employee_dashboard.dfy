/** The chat state of src/components/employee/EmployeeDashboard.tsx: the active
    tab, the message being typed, the chat history, and the two handlers that
    change the history, `handleSendMessage` and `handleRating`. */
module EmployeeDashboard {
  import opened Wrappers

  // ---------------------------------------------------------------------------
  // String.prototype.trim, as far as the send guard needs it

  /** The code points ECMAScript's `trim` strips: WhiteSpace (tab, vertical
      tab, form feed, zero-width no-break space and every space separator) and
      LineTerminator (line feed, carriage return, line and paragraph
      separators). */
  predicate IsTrimmable(c: char)
  {
    c == '\t' || c == '\n' || c == '\U{B}' || c == '\U{C}' || c == '\r' || c == ' ' ||
    c == '\U{A0}' || c == '\U{1680}' || ('\U{2000}' <= c <= '\U{200A}') ||
    c == '\U{2028}' || c == '\U{2029}' || c == '\U{202F}' || c == '\U{205F}' ||
    c == '\U{3000}' || c == '\U{FEFF}'
  }

  /** The string consists of trimmable characters only (the empty string too). */
  predicate IsBlank(s: string)
  {
    forall i :: 0 <= i < |s| ==> IsTrimmable(s[i])
  }

  /** Drops the leading trimmable characters. */
  function TrimStart(s: string): (r: string)
    ensures |r| <= |s| && r == s[|s| - |r|..]
    ensures IsBlank(s[..|s| - |r|])
    ensures r == [] || !IsTrimmable(r[0])
  {
    if s != [] && IsTrimmable(s[0]) then TrimStart(s[1..]) else s
  }

  /** Drops the trailing trimmable characters. */
  function TrimEnd(s: string): (r: string)
    ensures |r| <= |s| && r == s[..|r|]
    ensures IsBlank(s[|r|..])
    ensures r == [] || !IsTrimmable(r[|r| - 1])
  {
    if s != [] && IsTrimmable(s[|s| - 1]) then TrimEnd(s[..|s| - 1]) else s
  }

  /** `s.trim()`: a contiguous piece of `s`, cut only at trimmable characters,
      with no trimmable character left at either end. */
  function Trim(s: string): (r: string)
    ensures |r| <= |s|
    ensures var k := |s| - |TrimStart(s)|;
      k + |r| <= |s| && r == s[k..k + |r|] && IsBlank(s[..k]) && IsBlank(s[k + |r|..])
    ensures r == [] || (!IsTrimmable(r[0]) && !IsTrimmable(r[|r| - 1]))
  {
    var t := TrimStart(s);
    var r := TrimEnd(t);
    SuffixSlices(s, |s| - |t|, |r|);
    r
  }

  /** Cutting a suffix of `s` at `n` cuts `s` itself at `k + n`. */
  lemma SuffixSlices(s: string, k: nat, n: nat)
    requires k + n <= |s|
    ensures s[k..][..n] == s[k..k + n] && s[k..][n..] == s[k + n..]
  {
  }

  lemma {:induction false} TrimStartEmptyIffBlank(s: string)
    ensures TrimStart(s) == [] <==> IsBlank(s)
  {
    if s != [] {
      if IsTrimmable(s[0]) {
        TrimStartEmptyIffBlank(s[1..]);
        assert forall i :: 1 <= i < |s| ==> s[i] == s[1..][i - 1];
      } else {
        assert !IsBlank(s);
      }
    }
  }

  /** A string that starts with a kept character is not trimmed away. */
  lemma {:induction false} TrimEndKeepsNonBlankHead(t: string)
    requires t != [] && !IsTrimmable(t[0])
    ensures TrimEnd(t) != []
  {
    if IsTrimmable(t[|t| - 1]) {
      TrimEndKeepsNonBlankHead(t[..|t| - 1]);
    }
  }

  /** `!message.trim()` holds exactly when the message is blank. */
  lemma TrimEmptyIffBlank(s: string)
    ensures Trim(s) == [] <==> IsBlank(s)
  {
    TrimStartEmptyIffBlank(s);
    var t := TrimStart(s);
    if t != [] {
      TrimEndKeepsNonBlankHead(t);
    }
  }

  // ---------------------------------------------------------------------------
  // The chat history

  datatype Rating = Up | Down

  /** One exchange of the history: `{id, question, answer, rating?}`. */
  datatype ChatEntry = ChatEntry(id: string, question: string, answer: string, rating: Option<Rating>)

  /** The reply every sent question receives in this demo. */
  const DemoAnswer: string :=
    "This is a demo response. In production, this would be answered by the RAG system analyzing HR policies."

  /** The one exchange the history starts with. */
  const InitialEntry: ChatEntry := ChatEntry(
    "1",
    "How many PTO days do I get per year?",
    "Based on our company policy, full-time employees receive 15 PTO days per year in their first year of employment. After 3 years, this increases to 20 days, and after 5 years, you receive 25 days per year.",
    Some(Up))

  /** The entry `handleSendMessage` appends: the question as typed, untrimmed,
      with the demo answer and no rating. */
  function NewEntry(id: string, question: string): ChatEntry
  {
    ChatEntry(id, question, DemoAnswer, None)
  }

  /** `chatHistory.map(msg => msg.id === messageId ? { ...msg, rating } : msg)`:
      entries with the id get the rating, the others stay as they were. */
  function Rated(history: seq<ChatEntry>, messageId: string, rating: Rating): (r: seq<ChatEntry>)
    ensures |r| == |history|
    ensures forall i :: 0 <= i < |history| ==>
      r[i] == if history[i].id == messageId then history[i].(rating := Some(rating)) else history[i]
  {
    if history == [] then []
    else
      var head := history[0];
      [if head.id == messageId then head.(rating := Some(rating)) else head]
        + Rated(history[1..], messageId, rating)
  }

  /** Rating keeps every id, question and answer in place. */
  lemma RatedKeepsTranscript(history: seq<ChatEntry>, messageId: string, rating: Rating, i: int)
    requires 0 <= i < |history|
    ensures var e := Rated(history, messageId, rating)[i];
      e.id == history[i].id && e.question == history[i].question && e.answer == history[i].answer
  {
  }

  /** Rating an id no entry has leaves the history as it was. */
  lemma {:induction false} RatedAbsentId(history: seq<ChatEntry>, messageId: string, rating: Rating)
    requires forall i :: 0 <= i < |history| ==> history[i].id != messageId
    ensures Rated(history, messageId, rating) == history
  {
    if history != [] {
      RatedAbsentId(history[1..], messageId, rating);
    }
  }

  /** The later of two ratings of the same id is the one that stays; rating
      twice the same way is rating once. */
  lemma {:induction false} RatedLastWins(history: seq<ChatEntry>, messageId: string, first: Rating, second: Rating)
    ensures Rated(Rated(history, messageId, first), messageId, second) == Rated(history, messageId, second)
  {
    if history != [] {
      RatedLastWins(history[1..], messageId, first, second);
      assert Rated(history, messageId, first)[1..] == Rated(history[1..], messageId, first);
    }
  }

  lemma RatedIdempotent(history: seq<ChatEntry>, messageId: string, rating: Rating)
    ensures Rated(Rated(history, messageId, rating), messageId, rating) == Rated(history, messageId, rating)
  {
    RatedLastWins(history, messageId, rating, rating);
  }

  /** Ratings of two different ids do not interfere. */
  lemma {:induction false} RatedDistinctIdsCommute(history: seq<ChatEntry>, a: string, ra: Rating, b: string, rb: Rating)
    requires a != b
    ensures Rated(Rated(history, a, ra), b, rb) == Rated(Rated(history, b, rb), a, ra)
  {
    if history != [] {
      RatedDistinctIdsCommute(history[1..], a, ra, b, rb);
      assert Rated(history, a, ra)[1..] == Rated(history[1..], a, ra);
      assert Rated(history, b, rb)[1..] == Rated(history[1..], b, rb);
    }
  }

  // ---------------------------------------------------------------------------
  // The component's state and handlers

  datatype Tab = ChatTab | ProgressTab

  /** The three state hooks the handlers read and write. */
  datatype ChatState = ChatState(activeTab: Tab, message: string, chatHistory: seq<ChatEntry>)

  const InitialState: ChatState := ChatState(ChatTab, "", [InitialEntry])

  /** `handleSendMessage` with `Date.now().toString()` passed in as `id`: a
      message that trims to nothing is ignored; any other is appended and the
      input box cleared. */
  function Send(s: ChatState, id: string): ChatState
  {
    if Trim(s.message) == [] then s
    else s.(chatHistory := s.chatHistory + [NewEntry(id, s.message)], message := "")
  }

  /** `handleRating` */
  function Rate(s: ChatState, messageId: string, rating: Rating): ChatState
  {
    s.(chatHistory := Rated(s.chatHistory, messageId, rating))
  }

  /** Sending a blank message changes nothing at all. */
  lemma SendBlankIsNoOp(s: ChatState, id: string)
    requires IsBlank(s.message)
    ensures Send(s, id) == s
  {
    TrimEmptyIffBlank(s.message);
  }

  /** Sending anything else appends exactly one entry after the unchanged
      earlier ones, carrying the message as typed, and empties the input. */
  lemma SendAppendsOne(s: ChatState, id: string)
    requires !IsBlank(s.message)
    ensures var t := Send(s, id);
      |t.chatHistory| == |s.chatHistory| + 1 &&
      t.chatHistory[..|s.chatHistory|] == s.chatHistory &&
      t.chatHistory[|s.chatHistory|] == ChatEntry(id, s.message, DemoAnswer, None) &&
      t.message == "" && t.activeTab == s.activeTab
  {
    TrimEmptyIffBlank(s.message);
  }

  /** The history only ever grows: whatever was in it stays, in order. */
  lemma SendKeepsPrefix(s: ChatState, id: string)
    ensures var h := Send(s, id).chatHistory;
      |s.chatHistory| <= |h| <= |s.chatHistory| + 1 && h[..|s.chatHistory|] == s.chatHistory
  {
  }

  /** The component itself, its hooks as fields. */
  class Dashboard {
    var activeTab: Tab
    var message: string
    var chatHistory: seq<ChatEntry>

    constructor ()
      ensures State() == InitialState
      ensures chatHistory == [ChatEntry("1", InitialEntry.question, InitialEntry.answer, Some(Up))]
    {
      activeTab := ChatTab;
      message := "";
      chatHistory := [InitialEntry];
    }

    function State(): ChatState
      reads this
    {
      ChatState(activeTab, message, chatHistory)
    }

    /** The tab buttons. */
    method SetActiveTab(tab: Tab)
      modifies this
      ensures State() == old(State()).(activeTab := tab)
    {
      activeTab := tab;
    }

    /** The input's `onChange` and the quick-topic buttons. */
    method SetMessage(text: string)
      modifies this
      ensures State() == old(State()).(message := text)
    {
      message := text;
    }

    method HandleSendMessage(id: string)
      modifies this
      ensures State() == Send(old(State()), id)
      ensures IsBlank(old(message)) ==> State() == old(State())
      ensures !IsBlank(old(message)) ==>
        chatHistory == old(chatHistory) + [NewEntry(id, old(message))] && message == ""
    {
      TrimEmptyIffBlank(message);
      if Trim(message) == [] {
        return;
      }
      var newMessage := NewEntry(id, message);
      chatHistory := chatHistory + [newMessage];
      message := "";
    }

    method HandleRating(messageId: string, rating: Rating)
      modifies this
      ensures State() == Rate(old(State()), messageId, rating)
      ensures |chatHistory| == |old(chatHistory)|
      ensures forall i :: 0 <= i < |chatHistory| ==>
        chatHistory[i] == if old(chatHistory)[i].id == messageId
                          then old(chatHistory)[i].(rating := Some(rating))
                          else old(chatHistory)[i]
    {
      chatHistory := Rated(chatHistory, messageId, rating);
    }
  }
}
