/**
 * src/components/ChatInterface.tsx: the chat screen's own state (the draft,
 * the set of messages whose reasoning is expanded, the typing indicator) and
 * the rules for when a draft is sent.
 */
module ChatInterface {
  import opened Wrappers
  import opened Types
  import JsText

  /** `toggleReasoning` on the set: an absent id is added, a present one removed, every other id kept. */
  function Toggled(expanded: set<string>, id: string): (r: set<string>)
    ensures id in r <==> id !in expanded
    ensures forall x :: x != id ==> (x in r <==> x in expanded)
  {
    if id in expanded then expanded - {id} else expanded + {id}
  }

  /** Toggling the same id twice restores the set. */
  lemma ToggleTwice(expanded: set<string>, id: string)
    ensures Toggled(Toggled(expanded, id), id) == expanded
  {
  }

  /** The send button's `disabled` rule: an all-whitespace draft or a pending request. */
  function SendDisabled(draft: string, isLoading: bool): (disabled: bool)
    ensures disabled <==> isLoading || JsText.AllWhitespace(draft)
  {
    isLoading || JsText.Blank(draft)
  }

  /** A message offers the "Why ... said this" toggle: it is the pet's and carries a non-empty reasoning. */
  function OffersReasoning(m: ChatMessage): (offers: bool)
    ensures offers <==> m.is_from_pet && m.reasoning.Some? && |m.reasoning.value| > 0
  {
    m.is_from_pet && m.reasoning != None && m.reasoning != Some("")
  }

  /** The reasoning text is displayed: the toggle is offered and the message's id is expanded. */
  function ReasoningShown(m: ChatMessage, expanded: set<string>): (shown: Option<string>)
    ensures shown.Some? <==> OffersReasoning(m) && m.id in expanded
    ensures shown.Some? ==> m.reasoning == shown && shown.value != ""
  {
    if OffersReasoning(m) && m.id in expanded then m.reasoning else None
  }

  /** Toggling a message's reasoning flips whether it is shown and leaves every other message as it was. */
  lemma ToggleFlipsShown(messages: seq<ChatMessage>, expanded: set<string>, k: nat)
    requires k < |messages| && OffersReasoning(messages[k])
    ensures ReasoningShown(messages[k], Toggled(expanded, messages[k].id)).Some? <==>
            ReasoningShown(messages[k], expanded).None?
    ensures forall i :: 0 <= i < |messages| && messages[i].id != messages[k].id ==>
      ReasoningShown(messages[i], Toggled(expanded, messages[k].id)) == ReasoningShown(messages[i], expanded)
  {
  }

  /** The screen's state slots. */
  datatype Panel = Panel(newMessage: string, expandedReasons: set<string>, isTyping: bool)

  class ChatPanel {
    var newMessage: string
    var expandedReasons: set<string>
    var isTyping: bool

    function Snap(): Panel
      reads this
    {
      Panel(newMessage, expandedReasons, isTyping)
    }

    constructor ()
      ensures Snap() == Panel("", {}, false)
    {
      newMessage, expandedReasons, isTyping := "", {}, false;
    }

    method ToggleReasoning(id: string)
      modifies this
      ensures Snap() == old(Snap()).(expandedReasons := Toggled(old(expandedReasons), id))
    {
      var next := expandedReasons;
      if id in next {
        next := next - {id};
      } else {
        next := next + {id};
      }
      expandedReasons := next;
    }

    /** The textarea's `onChange`. */
    method OnInputChange(value: string)
      modifies this
      ensures Snap() == old(Snap()).(newMessage := value)
    {
      newMessage := value;
    }

    /**
     * `handleSendMessage`: a blank draft or a pending request sends nothing;
     * otherwise the trimmed draft is handed to the parent, the draft is
     * cleared and the typing indicator turned on.
     */
    method HandleSendMessage(isLoading: bool) returns (sent: Option<string>)
      modifies this
      ensures sent.None? <==> SendDisabled(old(newMessage), isLoading)
      ensures sent.None? ==> Snap() == old(Snap())
      ensures sent.Some? ==>
        sent.value == JsText.Trim(old(newMessage)) && Snap() == old(Snap()).(newMessage := "", isTyping := true)
      ensures sent.Some? ==>
        sent.value != [] && !JsText.IsWhitespace(sent.value[0]) && !JsText.IsWhitespace(sent.value[|sent.value| - 1])
    {
      if JsText.Trim(newMessage) == [] || isLoading {
        return None;
      }
      var userMessage := JsText.Trim(newMessage);
      newMessage := "";
      isTyping := true;
      sent := Some(userMessage);
    }

    /** The typing timer firing. */
    method TypingTimerFires()
      modifies this
      ensures Snap() == old(Snap()).(isTyping := false)
    {
      isTyping := false;
    }

    /** `handleKeyPress`: Enter without Shift suppresses the newline and sends as the button would. */
    method HandleKeyPress(key: string, shiftKey: bool, isLoading: bool)
      returns (preventDefault: bool, sent: Option<string>)
      modifies this
      ensures preventDefault <==> key == "Enter" && !shiftKey
      ensures !preventDefault ==> sent.None? && Snap() == old(Snap())
      ensures preventDefault ==> (sent.None? <==> SendDisabled(old(newMessage), isLoading))
      ensures preventDefault && sent.None? ==> Snap() == old(Snap())
      ensures preventDefault && sent.Some? ==>
        sent.value == JsText.Trim(old(newMessage)) && Snap() == old(Snap()).(newMessage := "", isTyping := true)
    {
      preventDefault := key == "Enter" && !shiftKey;
      sent := None;
      if preventDefault {
        sent := HandleSendMessage(isLoading);
      }
    }
  }
}
