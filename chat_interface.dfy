/**
 * The contractor chat as shown: a transcript kept in component state that starts with one
 * greeting, grows by a user message on each accepted send and by a canned reply when the
 * send's timer fires.
 */
module ChatInterface {
  import opened Wrappers
  import opened Text
  import opened LocalStore

  /** The message's `type`: `'user'` or `'ai'`. */
  datatype Role = UserRole | AiRole

  /** One transcript entry; `timestamp` is the clock reading in milliseconds. */
  datatype Message = Message(id: String, role: Role, content: String, timestamp: nat)

  /** The welcome text naming the project. */
  function GreetingText(projectName: String): String {
    "Hello! I'm your AI Project Controls Agent for \"" + projectName +
    "\". I'm here to help you provide detailed status updates. Let's start - what progress would you like to report today?"
  }

  /** The welcome text contains the project's name. */
  lemma GreetingNamesProject(projectName: String)
    ensures Contains(GreetingText(projectName), projectName)
  {
    ContainsInfix("Hello! I'm your AI Project Controls Agent for \"", projectName,
      "\". I'm here to help you provide detailed status updates. Let's start - what progress would you like to report today?");
  }

  /** The initial transcript entry: an `ai` message with id `'1'` naming the project. */
  function Greeting(projectName: String, now: nat): (m: Message)
    ensures m.id == "1" && m.role == AiRole && Contains(m.content, projectName)
  {
    GreetingNamesProject(projectName);
    Message("1", AiRole, GreetingText(projectName), now)
  }

  /** The ten canned replies. */
  const Responses: seq<String> := [
    "That's helpful information. Can you provide more specific details about the timeline? When do you expect this to be completed?",
    "Thanks for the update. What challenges, if any, are you currently facing with this task?",
    "Good progress! Can you quantify the percentage of completion for this work item?",
    "I understand. Are there any dependencies or resources you need from other team members?",
    "That sounds like significant progress. How does this align with the original project schedule?",
    "Thanks for sharing. What are the next immediate steps you plan to take?",
    "Interesting. Are there any risks or potential delays you foresee?",
    "Great update! Can you provide more details about the quality of work completed?",
    "I see. How does this impact other related tasks or milestones?",
    "Thank you for the detailed information. Is there anything else you'd like to add about this update?"
  ]

  /** `Math.floor(roll * responses.length)` for a random `roll` in [0, 1): always a valid index. */
  function ResponseIndex(roll: real): (k: nat)
    requires 0.0 <= roll < 1.0
    ensures k < |Responses|
    ensures k as real <= roll * |Responses| as real < k as real + 1.0
  {
    (roll * |Responses| as real).Floor
  }

  /** Every reply can be drawn: the roll `k / 10` picks reply `k`. */
  lemma EveryResponseReachable(k: nat)
    requires k < |Responses|
    ensures ResponseIndex(k as real / |Responses| as real) == k
  {
  }

  /** `generateAIResponse`: one of the ten canned replies, chosen by the roll alone. */
  function GenerateAIResponse(userMessage: String, roll: real): (r: String)
    requires 0.0 <= roll < 1.0
    ensures r in Responses
  {
    Responses[ResponseIndex(roll)]
  }

  /** The reply does not depend on what the user wrote. */
  lemma ResponseIgnoresMessage(a: String, b: String, roll: real)
    requires 0.0 <= roll < 1.0
    ensures GenerateAIResponse(a, roll) == GenerateAIResponse(b, roll)
  {
  }

  /** Neighbouring transcript entries never share a role. */
  ghost predicate Alternates(msgs: seq<Message>) {
    forall i :: 0 < i < |msgs| ==> msgs[i].role != msgs[i - 1].role
  }

  /** The chat component's state. */
  class ChatSession {
    var project: Option<StoredProject>
    var messages: seq<Message>
    var inputValue: String
    var isLoading: bool
    /** The reply timer scheduled by the last accepted send, with the input it captured. */
    var pendingReply: Option<String>

    /** A reply timer is pending exactly while the page shows "AI is thinking". */
    ghost predicate Valid()
      reads this
    {
      isLoading <==> pendingReply.Some?
    }

    /** The transcript alternates, and a reply is pending exactly when a user message is last. */
    ghost predicate InTurn()
      reads this
    {
      Valid() && Alternates(messages) &&
      (isLoading <==> messages != [] && messages[|messages| - 1].role == UserRole)
    }

    /** Before the load step: no project, so the page shows "Project not found". */
    constructor ()
      ensures InTurn()
      ensures project == None && messages == [] && inputValue == [] && !isLoading
    {
      project, messages, inputValue, isLoading, pendingReply := None, [], [], false, None;
    }

    /**
     * The load effect: when the route id names a stored project, the page shows it and the
     * transcript becomes exactly the greeting; otherwise nothing changes.
     */
    method LoadProject(routeId: Option<String>, saved: Option<seq<StoredProject>>, now: nat)
      requires Valid()
      modifies this`project, this`messages
      ensures Valid()
      ensures var found := LoadStoredProject(routeId, saved);
        && (found.Some? ==> project == found && messages == [Greeting(found.value.name, now)])
        && (found.None? ==> project == old(project) && messages == old(messages))
      ensures old(InTurn()) && !isLoading ==> InTurn()
    {
      var found := LoadStoredProject(routeId, saved);
      if found.Some? {
        project := found;
        messages := [Greeting(found.value.name, now)];
      }
    }

    /** The send button is disabled exactly when a send would be ignored. */
    predicate SendDisabled()
      reads this
      ensures SendDisabled() <==> IsBlank(inputValue) || isLoading
    {
      TrimEmptyIffBlank(inputValue);
      Trim(inputValue) == [] || isLoading
    }

    /** Typing in the input box, which is disabled while a reply is pending. */
    method OnInputChange(value: String)
      requires !isLoading
      modifies this`inputValue
      ensures inputValue == value
    {
      inputValue := value;
    }

    /**
     * `handleSendMessage`: ignored when the input is blank or a reply is pending; otherwise it
     * appends the untrimmed input as a user message, clears the input, and schedules the reply.
     */
    method HandleSendMessage(now: nat) returns (accepted: bool)
      requires Valid()
      modifies this`messages, this`inputValue, this`isLoading, this`pendingReply
      ensures Valid()
      ensures accepted <==> !IsBlank(old(inputValue)) && !old(isLoading)
      ensures !accepted ==>
        messages == old(messages) && inputValue == old(inputValue) &&
        isLoading == old(isLoading) && pendingReply == old(pendingReply)
      ensures accepted ==>
        messages == old(messages) + [Message(Decimal(now), UserRole, old(inputValue), now)] &&
        inputValue == [] && isLoading && pendingReply == Some(old(inputValue))
      ensures old(InTurn()) ==> InTurn()
    {
      TrimEmptyIffBlank(inputValue);
      if Trim(inputValue) == [] || isLoading {
        return false;
      }
      var userMessage := Message(Decimal(now), UserRole, inputValue, now);
      messages := messages + [userMessage];
      pendingReply := Some(inputValue);
      inputValue := [];
      isLoading := true;
      accepted := true;
    }

    /**
     * The send's timer callback: appends one `ai` message with a canned reply after the user
     * message and ends the pending state.
     */
    method OnReplyTimer(now: nat, roll: real)
      requires Valid() && isLoading
      requires 0.0 <= roll < 1.0
      modifies this`messages, this`isLoading, this`pendingReply
      ensures Valid() && !isLoading
      ensures messages == old(messages) +
        [Message(Decimal(now + 1), AiRole, GenerateAIResponse(old(pendingReply).value, roll), now)]
      ensures old(InTurn()) ==> InTurn()
    {
      var aiResponse := Message(Decimal(now + 1), AiRole, GenerateAIResponse(pendingReply.value, roll), now);
      messages := messages + [aiResponse];
      isLoading := false;
      pendingReply := None;
    }

    /** `handleKeyPress`: Enter without Shift sends; any other key, or Shift+Enter, does nothing. */
    method HandleKeyPress(key: String, shiftKey: bool, now: nat) returns (sent: bool)
      requires Valid()
      modifies this`messages, this`inputValue, this`isLoading, this`pendingReply
      ensures Valid()
      ensures !(key == "Enter" && !shiftKey) ==>
        !sent && messages == old(messages) && inputValue == old(inputValue) &&
        isLoading == old(isLoading) && pendingReply == old(pendingReply)
      ensures key == "Enter" && !shiftKey ==>
        (sent <==> !IsBlank(old(inputValue)) && !old(isLoading))
      ensures key == "Enter" && !shiftKey && !sent ==>
        messages == old(messages) && inputValue == old(inputValue) &&
        isLoading == old(isLoading) && pendingReply == old(pendingReply)
      ensures key == "Enter" && !shiftKey && sent ==>
        messages == old(messages) + [Message(Decimal(now), UserRole, old(inputValue), now)] &&
        inputValue == [] && isLoading && pendingReply == Some(old(inputValue))
      ensures old(InTurn()) ==> InTurn()
    {
      sent := false;
      if key == "Enter" && !shiftKey {
        sent := HandleSendMessage(now);
      }
    }
  }
}
