/** The chat page: the line formatter of a message and the send state, where
    each send appends the user's message at once and schedules a fixed
    assistant reply, delivered later by a timer. */
module Chat {
  import opened Text

  // ----- formatMessage -----

  /** How one line of a message is rendered: in bold (without its stars), as
      a numbered list item, or as a paragraph. */
  datatype Line = Bold(text: string) | Item(text: string) | Para(text: string)

  /** The number of leading ASCII digits. */
  function LeadingDigits(s: string): (k: nat)
    ensures k <= |s|
    ensures forall i | 0 <= i < k :: IsDigit(s[i])
    ensures k < |s| ==> !IsDigit(s[k])
  {
    if s == [] || !IsDigit(s[0]) then 0 else 1 + LeadingDigits(s[1..])
  }

  /** `/^\d+\.\s/` tested against the longest run of leading digits. */
  predicate Numbered(line: string) {
    var k := LeadingDigits(line);
    k >= 1 && k + 1 < |line| && line[k] == '.' && IsSpace(line[k + 1])
  }

  /** The regular expression's own reading: some non-empty run of digits at
      the start, then '.', then a whitespace character. Backtracking cannot
      find another split, since a digit is not a '.'. */
  lemma NumberedMatchesPattern(line: string)
    ensures Numbered(line) <==>
      exists k | 1 <= k && k + 1 < |line| :: AllDigits(line[..k]) && line[k] == '.' && IsSpace(line[k + 1])
  {
    var n := LeadingDigits(line);
    if exists k | 1 <= k && k + 1 < |line| :: AllDigits(line[..k]) && line[k] == '.' && IsSpace(line[k + 1]) {
      var k :| 1 <= k && k + 1 < |line| && AllDigits(line[..k]) && line[k] == '.' && IsSpace(line[k + 1]);
      assert forall i | 0 <= i < k :: IsDigit(line[i]) by {
        forall i | 0 <= i < k ensures IsDigit(line[i]) {
          assert line[..k][i] == line[i];
        }
      }
      assert !IsDigit(line[k]);
      assert n == k;
    }
    if Numbered(line) {
      assert AllDigits(line[..n]) by {
        forall i | 0 <= i < n ensures IsDigit(line[..n][i]) {
          assert line[..n][i] == line[i];
        }
      }
    }
  }

  /** `line.slice(2, -2)` for a line that starts and ends with "**": empty
      when the two pairs of stars overlap. */
  function Unstarred(line: string): string {
    if |line| >= 4 then line[2..|line| - 2] else ""
  }

  /** The rendering of one line; the bold test comes first. */
  function Classify(line: string): (l: Line)
    ensures l.Bold? <==> StartsWith(line, "**") && EndsWith(line, "**")
    ensures l.Item? <==> !l.Bold? && Numbered(line)
    ensures !l.Bold? ==> l.text == line
  {
    if StartsWith(line, "**") && EndsWith(line, "**") then Bold(Unstarred(line))
    else if Numbered(line) then Item(line)
    else Para(line)
  }

  /** Bold text is the line without its stars: wrapping a text in "**" makes
      a bold line of that very text, and a bold line of four characters or
      more is its text wrapped in "**". */
  lemma BoldRoundTrip(t: string, line: string)
    ensures Classify("**" + t + "**") == Bold(t)
    ensures Classify(line).Bold? && |line| >= 4 ==> line == "**" + Classify(line).text + "**"
  {
    var w := "**" + t + "**";
    assert w[..2] == "**" && w[|w| - 2..] == "**" && w[2..|w| - 2] == t;
    if Classify(line).Bold? && |line| >= 4 {
      assert line[..2] == "**" && line[|line| - 2..] == "**";
      assert line == line[..2] + line[2..|line| - 2] + line[|line| - 2..];
    }
  }

  /** `formatMessage(message)`: one rendered element per '\n'-separated line,
      in order. */
  function FormatMessage(message: string): (ls: seq<Line>)
    ensures |ls| == Occurrences(message, '\n') + 1
    ensures forall i | 0 <= i < |ls| :: ls[i] == Classify(Split(message, '\n')[i])
  {
    var lines := Split(message, '\n');
    seq(|lines|, i requires 0 <= i < |lines| => Classify(lines[i]))
  }

  /** A message of one line renders as one element, and the lines of a
      message built by joining lines render one by one. */
  lemma FormatJoinedLines(lines: seq<string>)
    requires |lines| > 0
    requires forall i | 0 <= i < |lines| :: '\n' !in lines[i]
    ensures var ls := FormatMessage(Join(lines, '\n'));
      |ls| == |lines| && forall i | 0 <= i < |lines| :: ls[i] == Classify(lines[i])
  {
    SplitJoin(lines, '\n');
  }

  // ----- handleSendMessage -----

  const Reply := "I'm an AI Health Assistant. How can I help you today?"

  /** A chat message; `timestamp` is the clock text at the time it was made. */
  datatype Message = Message(id: int, text: string, timestamp: string, isUser: bool)

  /** The page state: the messages, the typing flag, and the ids of the
      replies whose timers are still running, oldest first. */
  datatype ChatState = ChatState(messages: seq<Message>, isTyping: bool, scheduled: seq<int>)

  /** `handleSendMessage(message, files)` with `fileCount` attached files and
      the clock text `time`. */
  function Send(c: ChatState, message: string, fileCount: nat, time: string): (d: ChatState)
    ensures Blank(message) && fileCount == 0 ==> d == c
    ensures !(Blank(message) && fileCount == 0) ==>
      && d.messages == c.messages + [Message(|c.messages| + 1, message, time, true)]
      && d.isTyping
      && d.scheduled == c.scheduled + [|c.messages| + 2]
  {
    if Blank(message) && fileCount == 0 then c
    else ChatState(c.messages + [Message(|c.messages| + 1, message, time, true)], true,
                   c.scheduled + [|c.messages| + 2])
  }

  /** The oldest timer fires: the assistant's reply is appended under the id
      computed at its send, and typing stops, even if another reply is still
      on its way. With no timer running nothing happens. */
  function Deliver(c: ChatState, time: string): (d: ChatState)
    ensures c.scheduled == [] ==> d == c
    ensures c.scheduled != [] ==>
      && d.messages == c.messages + [Message(c.scheduled[0], Reply, time, false)]
      && !d.isTyping
      && d.scheduled == c.scheduled[1..]
  {
    if c.scheduled == [] then c
    else ChatState(c.messages + [Message(c.scheduled[0], Reply, time, false)], false, c.scheduled[1..])
  }

  /** Message ids are positions counted from one. */
  predicate Numbering(messages: seq<Message>) {
    forall i | 0 <= i < |messages| :: messages[i].id == i + 1
  }

  /** Ids are positions counted from one, hence distinct, as long as every
      reply arrives before the next send: a send and its reply append the
      next two numbers, the user's message before the assistant's. */
  lemma {:induction false} SendAndReplyKeepNumbering(c: ChatState, message: string, fileCount: nat, t1: string, t2: string)
    requires Numbering(c.messages) && c.scheduled == []
    requires !(Blank(message) && fileCount == 0)
    ensures var d := Deliver(Send(c, message, fileCount, t1), t2);
      && Numbering(d.messages) && d.scheduled == [] && !d.isTyping
      && |d.messages| == |c.messages| + 2
      && d.messages[|c.messages|].isUser && d.messages[|c.messages|].text == message
      && !d.messages[|c.messages| + 1].isUser && d.messages[|c.messages| + 1].text == Reply
  {
    var s := Send(c, message, fileCount, t1);
    var d := Deliver(s, t2);
    assert s.scheduled == [|c.messages| + 2];
    assert d.messages == c.messages + [Message(|c.messages| + 1, message, t1, true), Message(|c.messages| + 2, Reply, t2, false)];
    forall i | 0 <= i < |d.messages| ensures d.messages[i].id == i + 1 {
      if i < |c.messages| {
        assert d.messages[i] == c.messages[i];
      }
    }
  }

  /** Two sends within one reply's delay give two messages the same id: the
      second user message takes id 2, and so does the first reply. */
  lemma OverlappingSendsShareAnId(t: string)
    ensures var d := Deliver(Send(Send(ChatState([], false, []), "a", 0, t), "b", 0, t), t);
      |d.messages| == 3 && d.messages[1].id == 2 && d.messages[2].id == 2 && !d.isTyping && d.scheduled == [3]
  {
    var e := ChatState([], false, []);
    assert !Blank("a") by { assert !IsSpace("a"[0]); }
    assert !Blank("b") by { assert !IsSpace("b"[0]); }
    var s1 := Send(e, "a", 0, t);
    assert s1.messages == [Message(1, "a", t, true)] && s1.scheduled == [2];
    var s2 := Send(s1, "b", 0, t);
    assert s2.messages == [Message(1, "a", t, true), Message(2, "b", t, true)] && s2.scheduled == [2, 3];
  }

  /** The page; its state changes only through the two handlers. */
  class ChatPage {
    var messages: seq<Message>
    var isTyping: bool
    var scheduled: seq<int>

    constructor ()
      ensures messages == [] && !isTyping && scheduled == []
    {
      messages := [];
      isTyping := false;
      scheduled := [];
    }

    function State(): ChatState
      reads this
    {
      ChatState(messages, isTyping, scheduled)
    }

    /** `handleSendMessage`: the user's message goes in at once, the reply is
        scheduled. */
    method HandleSendMessage(message: string, fileCount: nat, time: string)
      modifies this
      ensures State() == Send(old(State()), message, fileCount, time)
    {
      if Blank(message) && fileCount == 0 {
        return;
      }
      var n := |messages|;
      messages := messages + [Message(n + 1, message, time, true)];
      isTyping := true;
      scheduled := scheduled + [n + 2];
    }

    /** The reply timer firing at the clock text `time`. */
    method DeliverReply(time: string)
      modifies this
      ensures State() == Deliver(old(State()), time)
    {
      if scheduled != [] {
        messages := messages + [Message(scheduled[0], Reply, time, false)];
        isTyping := false;
        scheduled := scheduled[1..];
      }
    }
  }
}
