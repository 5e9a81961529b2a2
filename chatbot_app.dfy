/** The chatbot screen: a text box, an exit button and a history of at most ten captioned
    lines stacked upwards from just above the text box. Sending a non-empty message adds the
    user's line and the fixed reply "Hello world!". The history is given first as functions
    (Display, Added, ChatStep); class Chatbot keeps the screen's fields and proves its methods
    against them. */
module ChatbotApp {
  import opened Ui
  import TextEntry

  // ---------------------------------------------------------------------------------------
  // Messages and the lines that show them
  // ---------------------------------------------------------------------------------------

  /** The number of lines the history keeps. */
  const HistoryLimit: nat := 10
  /** The chatbot's only answer. */
  const BotReply: string := "Hello world!"
  /** Distance between two neighbouring lines, and between the newest line and the box. */
  const LineSpacing: nat := 30
  /** Every line is drawn at this x. */
  const LineX: real := 15.0

  /** Sizes of the unsigned integers the y position is computed in. */
  const U32: nat := 0x1_0000_0000
  const U64: nat := 0x1_0000_0000_0000_0000

  datatype Message = Message(text: string, fromUser: bool)

  /** One line of the history: its caption, its colour and its y position. */
  datatype ChatLine = ChatLine(text: string, colour: Colour, x: real, y: int)

  const UserPrefix: string := "You: "
  const BotPrefix: string := "Chatbot: "

  /** The caption of a message: the speaker's prefix, then the message. */
  function Caption(m: Message): string
  {
    (if m.fromUser then UserPrefix else BotPrefix) + m.text
  }

  /** A caption ends with its message unchanged, and starts with "You: " exactly when the
      user wrote it. */
  lemma CaptionParts(m: Message)
    ensures |Caption(m)| >= |m.text| + 5
    ensures Caption(m)[|Caption(m)| - |m.text|..] == m.text
    ensures m.fromUser <==> Caption(m)[..5] == UserPrefix
  {
    var prefix := if m.fromUser then UserPrefix else BotPrefix;
    assert Caption(m)[..5] == prefix[..5] && Caption(m)[|prefix|..] == m.text;
    assert BotPrefix[..5][0] != UserPrefix[0];
  }

  /** User lines are blue, the chatbot's lines green. */
  function CaptionColour(fromUser: bool): (c: Colour)
    ensures c == Blue <==> fromUser
    ensures c == Green <==> !fromUser
  {
    if fromUser then Blue else Green
  }

  /** The y of line i among n: the window height less 120, taken as a 32-bit unsigned value,
      less (n - i) * 30, taken as a 64-bit unsigned value. With room for n lines this is
      height - 120 - (n - i) * 30. */
  function LineY(height: nat, n: nat, i: nat): (y: int)
    requires height < U32 && i <= n
    ensures 0 <= y < U64
    ensures 120 + 30 * n <= height ==> y == height - 120 - 30 * (n - i)
  {
    ((height - 120) % 0x1_0000_0000 - 30 * (n - i)) % 0x1_0000_0000_0000_0000
  }

  /** With room for the lines, the newest sits 150 above the bottom edge, each older line 30
      above the next, and all of them inside the window. */
  lemma LinesStackUpwards(height: nat, n: nat, i: nat)
    requires height < U32 && i < n && 120 + LineSpacing * n <= height
    ensures LineY(height, n, n - 1) == height - 150
    ensures i + 1 < n ==> LineY(height, n, i + 1) == LineY(height, n, i) + LineSpacing
    ensures 0 <= LineY(height, n, i) <= height - 150
  {
  }

  /** In a window lower than 120 the subtraction wraps: every line of a history of at most ten
      lies far below the window's bottom edge. */
  lemma ShortWindowWraps(height: nat, n: nat, i: nat)
    requires height < 120 && i < n <= HistoryLimit
    ensures LineY(height, n, i) == U32 + height - 120 - (n - i) * LineSpacing
    ensures LineY(height, n, i) > height
  {
    assert (height - 120) % U32 == U32 + height - 120;
  }

  /** The line that shows message m as line i of n. */
  function LineFor(m: Message, height: nat, n: nat, i: nat): ChatLine
    requires height < U32 && i <= n
  {
    ChatLine(Caption(m), CaptionColour(m.fromUser), LineX, LineY(height, n, i))
  }

  /** The lines that show ms as the first |ms| of n lines. */
  function LinesOf(ms: seq<Message>, height: nat, n: nat): (lines: seq<ChatLine>)
    requires height < U32 && |ms| <= n
    ensures |lines| == |ms|
    decreases |ms|
  {
    if |ms| == 0 then [] else LinesOf(ms[..|ms| - 1], height, n) + [LineFor(ms[|ms| - 1], height, n, |ms| - 1)]
  }

  lemma {:induction false} LinesOfAt(ms: seq<Message>, height: nat, n: nat, j: nat)
    requires height < U32 && j < |ms| <= n
    ensures LinesOf(ms, height, n)[j] == LineFor(ms[j], height, n, j)
    decreases |ms|
  {
    if j < |ms| - 1 {
      LinesOfAt(ms[..|ms| - 1], height, n, j);
    }
  }

  /** The history that shows messages ms, oldest first. */
  function Display(ms: seq<Message>, height: nat): (lines: seq<ChatLine>)
    requires height < U32
    ensures |lines| == |ms|
  {
    LinesOf(ms, height, |ms|)
  }

  /** Every line of a history is drawn at x = 15, with its caption and its speaker's colour. */
  lemma {:induction false} DisplayLines(ms: seq<Message>, height: nat, j: nat)
    requires height < U32 && j < |ms|
    ensures Display(ms, height)[j].x == LineX
    ensures Display(ms, height)[j].text == Caption(ms[j])
    ensures Display(ms, height)[j].colour == CaptionColour(ms[j].fromUser)
  {
    LinesOfAt(ms, height, |ms|, j);
  }

  /** The first |lines| of n lines, each moved to the position its index gives. */
  function Placed(lines: seq<ChatLine>, height: nat, n: nat): (r: seq<ChatLine>)
    requires height < U32 && |lines| <= n
    ensures |r| == |lines|
    decreases |lines|
  {
    if |lines| == 0 then []
    else Placed(lines[..|lines| - 1], height, n) + [lines[|lines| - 1].(x := LineX, y := LineY(height, n, |lines| - 1))]
  }

  lemma {:induction false} PlacedAt(lines: seq<ChatLine>, height: nat, n: nat, j: nat)
    requires height < U32 && j < |lines| <= n
    ensures Placed(lines, height, n)[j] == lines[j].(x := LineX, y := LineY(height, n, j))
    decreases |lines|
  {
    if j < |lines| - 1 {
      PlacedAt(lines[..|lines| - 1], height, n, j);
    }
  }

  /** Every line moved to the position its index gives. */
  function Relayout(lines: seq<ChatLine>, height: nat): (r: seq<ChatLine>)
    requires height < U32
    ensures |r| == |lines|
  {
    Placed(lines, height, |lines|)
  }

  /** addMessageToChatHistory on a value: append the captioned line, drop the oldest line when
      there are more than ten, move every line to its place. */
  function Added(lines: seq<ChatLine>, height: nat, m: Message): (r: seq<ChatLine>)
    requires height < U32
    ensures |r| == if |lines| < HistoryLimit then |lines| + 1 else |lines|
  {
    var pushed := lines + [LineFor(m, height, |lines|, 0)];
    var kept := if |pushed| > HistoryLimit then pushed[1..] else pushed;
    Relayout(kept, height)
  }

  /** The last k messages, or all of them when there are fewer. */
  function LastAtMost(ms: seq<Message>, k: nat): (r: seq<Message>)
    ensures |r| == if |ms| <= k then |ms| else k
    ensures |ms| <= k ==> r == ms
    ensures |ms| > k ==> r == ms[|ms| - k..]
  {
    if |ms| <= k then ms else ms[|ms| - k..]
  }

  /** Taking the last k before or after appending one message gives the same last k. */
  lemma LastAtMostAppend(ms: seq<Message>, m: Message, k: nat)
    requires k > 0
    ensures LastAtMost(ms + [m], k) == LastAtMost(LastAtMost(ms, k) + [m], k)
  {
    var l := LastAtMost(ms, k);
    var lhs := LastAtMost(ms + [m], k);
    var rhs := LastAtMost(l + [m], k);
    assert |lhs| == |rhs|;
    forall j | 0 <= j < |lhs|
      ensures lhs[j] == rhs[j]
    {
      if j + 1 < |lhs| {
        assert lhs[j] == (ms + [m])[|ms| + 1 - |lhs| + j];
        assert rhs[j] == (l + [m])[|l| + 1 - |rhs| + j];
      }
    }
  }

  /** Adding a message to a history that shows at most ten messages shows the last ten of them
      with the new one. */
  lemma AddedShowsLastTen(ms: seq<Message>, height: nat, m: Message)
    requires height < U32 && |ms| <= HistoryLimit
    ensures Added(Display(ms, height), height, m) == Display(LastAtMost(ms + [m], HistoryLimit), height)
  {
    var after := LastAtMost(ms + [m], HistoryLimit);
    var lhs := Added(Display(ms, height), height, m);
    assert |lhs| == |after|;
    forall j | 0 <= j < |lhs|
      ensures lhs[j] == Display(after, height)[j]
    {
      LinesOfAt(after, height, |after|, j);
      var pushed := Display(ms, height) + [LineFor(m, height, |ms|, 0)];
      var kept := if |pushed| > HistoryLimit then pushed[1..] else pushed;
      PlacedAt(kept, height, |kept|, j);
      if |ms| + 1 > HistoryLimit {
        if j + 1 < |ms| { LinesOfAt(ms, height, |ms|, j + 1); }
        assert after[j] == (ms + [m])[j + 1];
      } else {
        if j < |ms| { LinesOfAt(ms, height, |ms|, j); }
        assert after[j] == (ms + [m])[j];
      }
    }
  }

  /** The history after adding the messages ms one at a time to an empty one. */
  function Replay(ms: seq<Message>, height: nat): seq<ChatLine>
    requires height < U32
    decreases |ms|
  {
    if |ms| == 0 then [] else Added(Replay(ms[..|ms| - 1], height), height, ms[|ms| - 1])
  }

  /** However many messages are added, the history shows exactly the last ten, oldest first. */
  lemma {:induction false} ReplayShowsLastTen(ms: seq<Message>, height: nat)
    requires height < U32
    ensures Replay(ms, height) == Display(LastAtMost(ms, HistoryLimit), height)
    decreases |ms|
  {
    if |ms| > 0 {
      var init, m := ms[..|ms| - 1], ms[|ms| - 1];
      var last := LastAtMost(init, HistoryLimit);
      calc {
        Replay(ms, height);
        Added(Replay(init, height), height, m);
        { ReplayShowsLastTen(init, height); }
        Added(Display(last, height), height, m);
        { AddedShowsLastTen(last, height, m); }
        Display(LastAtMost(last + [m], HistoryLimit), height);
        { LastAtMostAppend(init, m, HistoryLimit); assert init + [m] == ms; }
        Display(LastAtMost(ms, HistoryLimit), height);
      }
    }
  }

  // ---------------------------------------------------------------------------------------
  // The screen's state machine
  // ---------------------------------------------------------------------------------------

  /** The exit button's global bounds: 50 by 50 at (10, 10) with a 2 pixel outline. */
  function ExitBounds(): Rect { ShapeBounds(10.0, 10.0, 50.0, 50.0, 2.0) }

  /** The text box's contents, the history and what was written to the console. */
  datatype ChatState = ChatState(input: string, lines: seq<ChatLine>, log: seq<string>)

  /** sendMessage: a non-empty input becomes a user line, the box is cleared, and the reply
      follows; an empty input changes nothing. */
  function Sent(s: ChatState, height: nat): (r: ChatState)
    requires height < U32
    ensures s.input == [] ==> r == s
    ensures s.input != [] ==> r.input == [] && r.log == s.log
    ensures |s.lines| <= HistoryLimit ==> |r.lines| <= HistoryLimit
  {
    if s.input == [] then s
    else
      var withUser := Added(s.lines, height, Message(s.input, true));
      s.(input := [], lines := Added(withUser, height, Message(BotReply, false)))
  }

  /** Chatbot::handleEvent. */
  function ChatStep(s: ChatState, height: nat, ev: Event): (r: ChatState)
    requires height < U32
    ensures r.log == s.log || r.log == s.log + ["Exiting Chatbot"]
    ensures !(ev.TextEntered? && ev.code == TextEntry.EnterKey) ==> r.lines == s.lines
  {
    match ev
    case MousePressed(button, p) =>
      if button == LeftButton && ExitBounds().Contains(p) then s.(log := s.log + ["Exiting Chatbot"]) else s
    case TextEntered(code) =>
      if code == TextEntry.EnterKey then Sent(s, height) else s.(input := TextEntry.Edit(s.input, code))
    case OtherEvent => s
  }

  /** The messages an event adds to the conversation: the user's and the reply when Enter
      sends a non-empty input, none otherwise. */
  function Said(s: ChatState, ev: Event): (ms: seq<Message>)
    ensures |ms| == 0 || |ms| == 2
  {
    if ev.TextEntered? && ev.code == TextEntry.EnterKey && s.input != [] then
      [Message(s.input, true), Message(BotReply, false)]
    else []
  }

  /** The history on screen shows the last ten messages of the conversation ms. */
  ghost predicate Shows(s: ChatState, height: nat, ms: seq<Message>)
    requires height < U32
  {
    s.lines == Display(LastAtMost(ms, HistoryLimit), height)
  }

  /** The events of a session, handled in order. */
  function Run(s: ChatState, height: nat, evs: seq<Event>): ChatState
    requires height < U32
    decreases |evs|
  {
    if |evs| == 0 then s else Run(ChatStep(s, height, evs[0]), height, evs[1..])
  }

  /** The conversation a session adds. */
  function Conversation(s: ChatState, height: nat, evs: seq<Event>): seq<Message>
    requires height < U32
    decreases |evs|
  {
    if |evs| == 0 then [] else Said(s, evs[0]) + Conversation(ChatStep(s, height, evs[0]), height, evs[1..])
  }

  // ---------------------------------------------------------------------------------------
  // Properties of the state machine
  // ---------------------------------------------------------------------------------------

  /** Sending: an empty box changes nothing; otherwise the box is emptied, the user's line
      (blue, "You: " and the text) comes second to last and the reply (green,
      "Chatbot: Hello world!") last, at 150 above the bottom edge when there is room. */
  lemma SendOutcome(s: ChatState, height: nat, ms: seq<Message>)
    requires height < U32 && Shows(s, height, ms)
    ensures s.input == [] ==> Sent(s, height) == s
    ensures s.input != [] ==>
      var r := Sent(s, height);
      var n := |r.lines|;
      && r.input == [] && r.log == s.log && 2 <= n <= HistoryLimit
      && r.lines[n - 2].text == UserPrefix + s.input && r.lines[n - 2].colour == Blue
      && r.lines[n - 1].text == BotPrefix + BotReply && r.lines[n - 1].colour == Green
      && (120 + LineSpacing * HistoryLimit <= height ==> r.lines[n - 1].y == height - 150)
  {
    if s.input != [] {
      SendShows(s, height, ms);
      var w := LastAtMost(ms + [Message(s.input, true), Message(BotReply, false)], HistoryLimit);
      LinesOfAt(w, height, |w|, |w| - 2);
      LinesOfAt(w, height, |w|, |w| - 1);
    }
  }

  /** Text events other than Enter edit only the box; clicks outside the exit button and
      other events change nothing. */
  lemma OtherEventsKeepHistory(s: ChatState, height: nat, ev: Event)
    requires height < U32
    requires !(ev.TextEntered? && ev.code == TextEntry.EnterKey)
    ensures ChatStep(s, height, ev).lines == s.lines
    ensures ev.TextEntered? ==> ChatStep(s, height, ev).input == TextEntry.Edit(s.input, ev.code)
    ensures ev.MousePressed? && !ExitBounds().Contains(ev.at) ==> ChatStep(s, height, ev) == s
  {
  }

  /** Every event keeps the history showing the last ten messages of the conversation, the
      conversation growing by what the event said. */
  lemma StepShows(s: ChatState, height: nat, ms: seq<Message>, ev: Event)
    requires height < U32 && Shows(s, height, ms)
    ensures Shows(ChatStep(s, height, ev), height, ms + Said(s, ev))
  {
    if ev.TextEntered? && ev.code == TextEntry.EnterKey && s.input != [] {
      SendShows(s, height, ms);
    } else {
      if !(ev.TextEntered? && ev.code == TextEntry.EnterKey) {
        OtherEventsKeepHistory(s, height, ev);
      }
      assert ms + Said(s, ev) == ms;
    }
  }

  /** Sending a non-empty input adds the user's message and the reply to the conversation. */
  lemma SendShows(s: ChatState, height: nat, ms: seq<Message>)
    requires height < U32 && Shows(s, height, ms) && s.input != []
    ensures Shows(Sent(s, height), height, ms + [Message(s.input, true), Message(BotReply, false)])
  {
    var u, b := Message(s.input, true), Message(BotReply, false);
    var l0, l1 := LastAtMost(ms, HistoryLimit), LastAtMost(ms + [u], HistoryLimit);
    AddedShowsLastTen(l0, height, u);
    LastAtMostAppend(ms, u, HistoryLimit);
    AddedShowsLastTen(l1, height, b);
    LastAtMostAppend(ms + [u], b, HistoryLimit);
    calc {
      Sent(s, height).lines;
      Added(Added(s.lines, height, u), height, b);
      Added(Display(l1, height), height, b);
      Display(LastAtMost(l1 + [b], HistoryLimit), height);
      Display(LastAtMost(ms + [u] + [b], HistoryLimit), height);
    }
    assert ms + [u] + [b] == ms + [u, b];
  }

  /** A session started from an empty history shows the last ten messages of its whole
      conversation, so the history never holds more than ten lines. */
  lemma {:induction false} RunShowsLastTen(s: ChatState, height: nat, ms: seq<Message>, evs: seq<Event>)
    requires height < U32 && Shows(s, height, ms)
    ensures Shows(Run(s, height, evs), height, ms + Conversation(s, height, evs))
    ensures |Run(s, height, evs).lines| <= HistoryLimit
    decreases |evs|
  {
    if |evs| > 0 {
      var s1, said := ChatStep(s, height, evs[0]), Said(s, evs[0]);
      var rest := Conversation(s1, height, evs[1..]);
      StepShows(s, height, ms, evs[0]);
      RunShowsLastTen(s1, height, ms + said, evs[1..]);
      assert Conversation(s, height, evs) == said + rest;
      assert ms + said + rest == ms + (said + rest);
    } else {
      assert ms + Conversation(s, height, evs) == ms;
    }
  }

  // ---------------------------------------------------------------------------------------
  // The screen object
  // ---------------------------------------------------------------------------------------

  class Chatbot {
    const height: nat
    var inputText: string
    var history: seq<ChatLine>
    var log: seq<string>
    /** Every message added so far, oldest first; the history shows its last ten. */
    ghost var conversation: seq<Message>

    function State(): ChatState
      reads this
    {
      ChatState(inputText, history, log)
    }

    ghost predicate Valid()
      reads this
    {
      height < U32 && Shows(State(), height, conversation)
    }

    /** The constructor: empty box, empty history. */
    constructor (height: nat)
      requires height < U32
      ensures Valid() && this.height == height && conversation == []
      ensures State() == ChatState([], [], [])
    {
      this.height := height;
      inputText, history, log := [], [], [];
      conversation := [];
    }

    /** addMessageToChatHistory, with the repositioning loop. */
    method AddMessageToChatHistory(message: string, isUser: bool)
      requires height < U32
      modifies this
      ensures history == Added(old(history), height, Message(message, isUser))
      ensures inputText == old(inputText) && log == old(log) && conversation == old(conversation)
    {
      var line := ChatLine((if isUser then UserPrefix else BotPrefix) + message,
                           if isUser then Blue else Green,
                           LineX, LineY(height, |history|, 0));
      var lines := history + [line];
      if |lines| > HistoryLimit {
        lines := lines[1..];
      }
      ghost var kept := lines;
      var i := 0;
      while i < |lines|
        invariant |lines| == |kept| && 0 <= i <= |lines|
        invariant forall j :: 0 <= j < i ==> lines[j] == kept[j].(x := LineX, y := LineY(height, |kept|, j))
        invariant forall j :: i <= j < |lines| ==> lines[j] == kept[j]
      {
        lines := lines[i := lines[i].(x := LineX, y := LineY(height, |lines|, i))];
        i := i + 1;
      }
      forall j | 0 <= j < |lines|
        ensures lines[j] == Relayout(kept, height)[j]
      {
        PlacedAt(kept, height, |kept|, j);
      }
      history := lines;
    }

    /** sendMessage. */
    method SendMessage()
      requires Valid()
      modifies this
      ensures Valid() && State() == Sent(old(State()), height)
      ensures conversation == old(conversation) + Said(old(State()), TextEntered(TextEntry.EnterKey))
    {
      var userMessage := inputText;
      if userMessage != [] {
        ghost var s0 := State();
        StepShows(s0, height, conversation, TextEntered(TextEntry.EnterKey));
        AddMessageToChatHistory(userMessage, true);
        inputText := [];
        AddMessageToChatHistory(BotReply, false);
        conversation := conversation + [Message(userMessage, true), Message(BotReply, false)];
      }
    }

    /** Chatbot::handleEvent; the pointer position is the one the event carries. */
    method HandleEvent(ev: Event)
      requires Valid()
      modifies this
      ensures Valid() && State() == ChatStep(old(State()), height, ev)
      ensures conversation == old(conversation) + Said(old(State()), ev)
    {
      match ev {
        case MousePressed(button, p) =>
          if button == LeftButton && ExitBounds().Contains(p) {
            log := log + ["Exiting Chatbot"];
          }
        case TextEntered(code) =>
          if code == TextEntry.EnterKey {
            SendMessage();
          } else if code == TextEntry.BackspaceKey {
            if |inputText| > 0 {
              inputText := inputText[..|inputText| - 1];
            }
          } else if code < 128 {
            inputText := inputText + [code as char];
          }
        case OtherEvent =>
      }
      assert conversation == old(conversation) + Said(old(State()), ev);
    }
  }
}
