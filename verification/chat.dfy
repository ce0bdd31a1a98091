/** The sales-assistant chat screen (`ChatBotPage.jsx`): a transcript that
    only grows, an input box whose trimmed text is sent as a user message,
    and a canned bot reply that arrives in a second step, after the
    page's timer. */
module Chat {
  import opened Base
  import opened Text

  datatype Sender = Bot | User

  datatype Message = Message(sender: Sender, text: string)

  const Greeting := Message(Bot, "안녕하세요! 매출 분석 어시스턴트입니다. 궁금한 점을 물어보세요.")

  /** The six questions of the suggestion drop-down. */
  const Suggestions: seq<string> := [
    "오늘 매출 요약 보여줘", "최근 인기 메뉴 알려줘", "경쟁점과 비교 결과",
    "다음 달 매출 전망", "피크 시간대 분석", "주요 개선 포인트"]

  /** The canned answer to `msg`: a fixed lead-in of nine characters,
      the question itself, and a fixed closing. */
  function ReplyText(msg: string): (r: string)
    ensures |r| == |msg| + 23 && r[9..9 + |msg|] == msg
  {
    "[API 응답] " + msg + "에 대한 분석 결과입니다."
  }

  /** The transcript the page opens with: the greeting, then the message
      passed in by the navigation when there is one (`""` when none). */
  function Opening(initialMessage: string): (r: seq<Message>)
    ensures |r| >= 1 && r[0] == Greeting
    ensures |r| == 2 <==> initialMessage != ""
    ensures |r| == 2 ==> r[1] == Message(User, initialMessage)
  {
    [Greeting] + if initialMessage != "" then [Message(User, initialMessage)] else []
  }

  /** What `handleSend` does with the input: nothing when it is blank,
      otherwise the trimmed text is sent. */
  function Outgoing(input: string): (r: Option<string>)
    ensures r.None? <==> AllSpace(input)
    ensures r.Some? ==> r.value != "" && Trim(r.value) == r.value && !IsSpace(r.value[0])
  {
    TrimEmptyIffAllSpace(input);
    TrimIdempotent(input);
    if Trim(input) == "" then None else Some(Trim(input))
  }

  /** The send button is disabled exactly when the input is blank, that
      is, when pressing it would send nothing. */
  function SendDisabled(input: string): (r: bool)
    ensures r <==> AllSpace(input)
    ensures r <==> Outgoing(input).None?
  {
    TrimEmptyIffAllSpace(input);
    Trim(input) == ""
  }

  /** Enter sends; Shift+Enter (a new line) and every other key do not. */
  function SendsOnKey(key: string, shift: bool): (r: bool)
    ensures r ==> key == "Enter"
    ensures shift ==> !r
  {
    key == "Enter" && !shift
  }

  /** How many messages of `ms` come from `s`. */
  function CountFrom(ms: seq<Message>, s: Sender): (n: nat)
    ensures n <= |ms|
  {
    if ms == [] then 0
    else CountFrom(ms[..|ms| - 1], s) + (if ms[|ms| - 1].sender == s then 1 else 0)
  }

  lemma CountFromSnoc(ms: seq<Message>, m: Message, s: Sender)
    ensures CountFrom(ms + [m], s) == CountFrom(ms, s) + (if m.sender == s then 1 else 0)
  {
    assert (ms + [m])[..|ms + [m]| - 1] == ms;
  }

  class ChatPage {
    var messages: seq<Message>
    var input: string
    var isTyping: bool
    var dropdownOpen: bool
    /** The questions whose timer is running, oldest first: every call of
        `sendToAPI` starts one timer of the same length, so they fire in
        this order. */
    var pending: seq<string>

    /** Every user message has its reply, delivered or pending; the
        greeting is the one bot message that answers nothing. */
    predicate Balanced()
      reads this
    {
      messages != [] && messages[0] == Greeting
      && CountFrom(messages, User) + 1 == CountFrom(messages, Bot) + |pending|
    }

    constructor ()
      ensures messages == [] && input == "" && !isTyping && !dropdownOpen && pending == []
    {
      messages := [];
      input := "";
      isTyping := false;
      dropdownOpen := false;
      pending := [];
    }

    /** `sendToAPI`: the typing dots show and a reply is scheduled. */
    method Ask(msg: string)
      modifies this`isTyping, this`pending
      ensures isTyping && pending == old(pending) + [msg]
    {
      isTyping := true;
      pending := pending + [msg];
    }

    /** The first effect: the transcript is replaced by the opening one,
        and a passed-in message is asked at once. */
    method Open(initialMessage: string)
      modifies this`messages, this`isTyping, this`pending
      ensures messages == Opening(initialMessage)
      ensures initialMessage != "" ==> isTyping && pending == old(pending) + [initialMessage]
      ensures initialMessage == "" ==> isTyping == old(isTyping) && pending == old(pending)
      ensures old(pending) == [] ==> Balanced()
    {
      messages := Opening(initialMessage);
      if initialMessage != "" {
        Ask(initialMessage);
        assert messages == [Greeting] + [Message(User, initialMessage)];
        CountFromSnoc([Greeting], Message(User, initialMessage), User);
        CountFromSnoc([Greeting], Message(User, initialMessage), Bot);
      } else {
        assert messages == [] + [Greeting];
        CountFromSnoc([], Greeting, Bot);
        CountFromSnoc([], Greeting, User);
      }
    }

    /** Typing into the box. */
    method SetInput(value: string)
      modifies this`input
      ensures input == value
    {
      input := value;
    }

    /** `handleSend`: a blank input changes nothing; otherwise the
        trimmed text is appended as a user message, the box is cleared
        and the question is asked. Returns whether anything was sent. */
    method Send() returns (sent: bool)
      modifies this`messages, this`input, this`isTyping, this`pending
      ensures sent <==> !AllSpace(old(input))
      ensures !sent ==> (messages == old(messages) && input == old(input)
        && isTyping == old(isTyping) && pending == old(pending))
      ensures sent ==> var text := Outgoing(old(input)).value;
        && messages == old(messages) + [Message(User, text)]
        && input == "" && isTyping && pending == old(pending) + [text]
      ensures old(Balanced()) ==> Balanced()
    {
      var out := Outgoing(input);
      sent := out.Some?;
      if sent {
        var text := out.value;
        CountFromSnoc(messages, Message(User, text), User);
        CountFromSnoc(messages, Message(User, text), Bot);
        messages := messages + [Message(User, text)];
        input := "";
        Ask(text);
      }
    }

    /** `handleKeyDown`: Enter without Shift sends, as the button does. */
    method KeyDown(key: string, shift: bool) returns (sent: bool)
      modifies this`messages, this`input, this`isTyping, this`pending
      ensures sent <==> SendsOnKey(key, shift) && !AllSpace(old(input))
      ensures !sent ==> (messages == old(messages) && input == old(input)
        && isTyping == old(isTyping) && pending == old(pending))
      ensures sent ==> var text := Outgoing(old(input)).value;
        && messages == old(messages) + [Message(User, text)]
        && input == "" && isTyping && pending == old(pending) + [text]
      ensures old(Balanced()) ==> Balanced()
    {
      sent := false;
      if SendsOnKey(key, shift) {
        sent := Send();
      }
    }

    /** The timer of the oldest question fires: its canned answer is
        appended and the typing dots go away. */
    method Reply()
      requires pending != []
      modifies this`messages, this`isTyping, this`pending
      ensures messages == old(messages) + [Message(Bot, ReplyText(old(pending)[0]))]
      ensures pending == old(pending)[1..] && !isTyping
      ensures old(Balanced()) ==> Balanced()
    {
      var m := Message(Bot, ReplyText(pending[0]));
      CountFromSnoc(messages, m, User);
      CountFromSnoc(messages, m, Bot);
      messages := messages + [m];
      pending := pending[1..];
      isTyping := false;
    }

    /** The drop-down button opens a closed list and closes an open one. */
    method ToggleDropdown()
      modifies this`dropdownOpen
      ensures dropdownOpen == !old(dropdownOpen)
    {
      dropdownOpen := !dropdownOpen;
    }

    /** `handleDropdownSuggestion`: the question goes into the box, not
        into the transcript, and the list closes. */
    method PickSuggestion(suggestion: string)
      modifies this`input, this`dropdownOpen
      ensures input == suggestion && !dropdownOpen
    {
      input := suggestion;
      dropdownOpen := false;
    }
  }

  /** A picked suggestion is never blank, so it can always be sent. */
  lemma SuggestionsSendable(i: nat)
    requires i < |Suggestions|
    ensures Outgoing(Suggestions[i]) == Some(Suggestions[i])
  {
    var s := Suggestions[i];
    assert s != [] && !IsSpace(s[0]) && !IsSpace(s[|s| - 1]);
    TrimStartSuffix(s);
    TrimEndPrefix(s);
    assert TrimStart(s) == s;
  }
}
