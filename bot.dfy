/** The per-chat activation state machine of main.py.

    `group_states` maps `str(chat_id)` to a flag: a chat whose key is absent
    has not been activated by a validator; a key mapped to `true` means the
    chat is activated and translation is on; `false` means activated with
    translation switched off by `/disable`. Each handler is a method of
    `ChatBot` that returns the reply it sends, as a tag. Every change of the
    map is followed by `save_state(group_states)`, modelled by the ghost
    snapshot `persisted` of the state file and the ghost count `saves` of
    writes. */
module Bot {

  import opened Wrappers
  import opened PyText
  import Translator

  // ---------------------------------------------------------------------
  // Callback payloads of the approve/reject prompt
  // ---------------------------------------------------------------------

  const ActivatePrefix: string := "activate:"
  const RejectPrefix: string := "reject:"

  /** `f"activate:{chat.id}"`, the payload of the "Да" button. */
  function ActivatePayload(chatId: int): string
  {
    ActivatePrefix + IntToString(chatId)
  }

  /** `f"reject:{chat.id}"`, the payload of the "Нет" button. */
  function RejectPayload(chatId: int): string
  {
    RejectPrefix + IntToString(chatId)
  }

  /** `int(callback.data.split(":")[1])`; `None` is the exception raised when
      the payload has no colon (`IndexError`) or the field is not an integer
      (`ValueError`). */
  function ParseGroupId(data: string): (r: Option<int>)
    ensures ':' !in data ==> r.None?
  {
    match SecondField(data)
    case None => None
    case Some(field) => ParseInt(field)
  }

  /** A payload `<action>:<id>` with a colon-free action reads back as `id`. */
  lemma ParseGroupIdOfJoin(action: string, chatId: int)
    requires ':' !in action
    ensures ParseGroupId(action + ":" + IntToString(chatId)) == Some(chatId)
  {
    SecondFieldOfJoin(action, IntToString(chatId));
    IntToStringRoundTrip(chatId);
  }

  /** Both payloads of a prompt read back as the chat id they were built
      from, negative group ids included. */
  lemma PayloadRoundTrip(chatId: int)
    ensures ParseGroupId(ActivatePayload(chatId)) == Some(chatId)
    ensures ParseGroupId(RejectPayload(chatId)) == Some(chatId)
  {
    assert ActivatePayload(chatId) == "activate" + ":" + IntToString(chatId);
    ParseGroupIdOfJoin("activate", chatId);
    assert RejectPayload(chatId) == "reject" + ":" + IntToString(chatId);
    ParseGroupIdOfJoin("reject", chatId);
  }

  /** Each payload is routed by the `startswith` filters to the handler of
      its own button and not to the other one. */
  lemma PayloadRouting(chatId: int)
    ensures ActivatePrefix <= ActivatePayload(chatId) && !(RejectPrefix <= ActivatePayload(chatId))
    ensures RejectPrefix <= RejectPayload(chatId) && !(ActivatePrefix <= RejectPayload(chatId))
  {
    assert ActivatePayload(chatId)[0] == 'a' && RejectPrefix[0] == 'r';
    assert RejectPayload(chatId)[0] == 'r' && ActivatePrefix[0] == 'a';
  }

  // ---------------------------------------------------------------------
  // The chat map and its transitions
  // ---------------------------------------------------------------------

  /** The contents of `group_states`: `str(chat_id)` to the translation flag. */
  type ChatMap = map<string, bool>

  /** `group_states.get(str(chat_id), False)`: the gate of `translate_handler`. */
  predicate AllowsTranslation(states: ChatMap, chatId: int)
  {
    IntToString(chatId) in states && states[IntToString(chatId)]
  }

  /** `str(chat_id) in group_states.keys()`: the chat has been activated. */
  predicate IsKnown(states: ChatMap, chatId: int)
  {
    IntToString(chatId) in states
  }

  /** The map after `activate_group` approves `chatId`. */
  function Activated(states: ChatMap, chatId: int): ChatMap
  {
    states[IntToString(chatId) := true]
  }

  /** The map after `reject_group` for `chatId` (`pop(key, None)`). */
  function Rejected(states: ChatMap, chatId: int): ChatMap
  {
    states - {IntToString(chatId)}
  }

  /** The map after `/enable` in `chatId`. */
  function Enabled(states: ChatMap, chatId: int): ChatMap
  {
    if IsKnown(states, chatId) then states[IntToString(chatId) := true] else states
  }

  /** The map after `/disable` in `chatId`. */
  function Disabled(states: ChatMap, chatId: int): ChatMap
  {
    if IsKnown(states, chatId) then states[IntToString(chatId) := false] else states
  }

  /** A chat that is not in the map is never translated. */
  lemma UnknownNeverTranslated(states: ChatMap, chatId: int)
    requires !IsKnown(states, chatId)
    ensures !AllowsTranslation(states, chatId)
  {
  }

  /** After approval the chat is known and translated, and no other chat
      changes, whether it is named by its id or by any other key. */
  lemma ActivatedSpec(states: ChatMap, chatId: int, other: int)
    requires other != chatId
    ensures IsKnown(Activated(states, chatId), chatId)
    ensures AllowsTranslation(Activated(states, chatId), chatId)
    ensures Activated(states, chatId).Keys == states.Keys + {IntToString(chatId)}
    ensures IsKnown(Activated(states, chatId), other) == IsKnown(states, other)
    ensures AllowsTranslation(Activated(states, chatId), other) == AllowsTranslation(states, other)
    ensures forall k :: k in states && k != IntToString(chatId) ==> Activated(states, chatId)[k] == states[k]
  {
    if IntToString(other) == IntToString(chatId) {
      IntToStringInjective(other, chatId);
    }
  }

  /** After rejection the chat is unknown and not translated, no other chat
      changes, and rejecting a chat that is not in the map changes nothing. */
  lemma RejectedSpec(states: ChatMap, chatId: int, other: int)
    requires other != chatId
    ensures !IsKnown(Rejected(states, chatId), chatId)
    ensures !AllowsTranslation(Rejected(states, chatId), chatId)
    ensures Rejected(states, chatId).Keys == states.Keys - {IntToString(chatId)}
    ensures !IsKnown(states, chatId) ==> Rejected(states, chatId) == states
    ensures IsKnown(Rejected(states, chatId), other) == IsKnown(states, other)
    ensures AllowsTranslation(Rejected(states, chatId), other) == AllowsTranslation(states, other)
  {
    if IntToString(other) == IntToString(chatId) {
      IntToStringInjective(other, chatId);
    }
  }

  /** `/enable` turns translation on in a known chat, leaves an unknown chat
      unknown (the map does not change at all), never changes which chats are
      known, and touches no other chat. */
  lemma EnabledSpec(states: ChatMap, chatId: int, other: int)
    requires other != chatId
    ensures Enabled(states, chatId).Keys == states.Keys
    ensures IsKnown(states, chatId) ==> AllowsTranslation(Enabled(states, chatId), chatId)
    ensures !IsKnown(states, chatId) ==> Enabled(states, chatId) == states
    ensures AllowsTranslation(Enabled(states, chatId), other) == AllowsTranslation(states, other)
  {
    if IntToString(other) == IntToString(chatId) {
      IntToStringInjective(other, chatId);
    }
  }

  /** `/disable` turns translation off but keeps the chat known, leaves an
      unknown chat unknown, and touches no other chat. */
  lemma DisabledSpec(states: ChatMap, chatId: int, other: int)
    requires other != chatId
    ensures Disabled(states, chatId).Keys == states.Keys
    ensures IsKnown(states, chatId) ==> IsKnown(Disabled(states, chatId), chatId)
    ensures !AllowsTranslation(Disabled(states, chatId), chatId)
    ensures !IsKnown(states, chatId) ==> Disabled(states, chatId) == states
    ensures AllowsTranslation(Disabled(states, chatId), other) == AllowsTranslation(states, other)
  {
    if IntToString(other) == IntToString(chatId) {
      IntToStringInjective(other, chatId);
    }
  }

  /** An in-chat toggle command. */
  datatype Toggle = Enable(chatId: int) | Disable(chatId: int)

  /** The map after a run of `/enable` and `/disable` commands. */
  function ApplyToggles(states: ChatMap, toggles: seq<Toggle>): ChatMap
    decreases |toggles|
  {
    if toggles == [] then states
    else
      var next := match toggles[0]
        case Enable(id) => Enabled(states, id)
        case Disable(id) => Disabled(states, id);
      ApplyToggles(next, toggles[1..])
  }

  /** Toggling never forgets a chat and never admits one: whatever commands
      are issued in the chats, exactly the approved chats stay known, and a
      chat that was never approved is never translated. */
  lemma {:induction false} TogglesKeepKnownChats(states: ChatMap, toggles: seq<Toggle>, chatId: int)
    ensures ApplyToggles(states, toggles).Keys == states.Keys
    ensures !IsKnown(states, chatId) ==> !AllowsTranslation(ApplyToggles(states, toggles), chatId)
    decreases |toggles|
  {
    if toggles != [] {
      var next := match toggles[0]
        case Enable(id) => Enabled(states, id)
        case Disable(id) => Disabled(states, id);
      assert next.Keys == states.Keys;
      TogglesKeepKnownChats(next, toggles[1..], chatId);
    }
  }

  /** Approval followed by `/disable` leaves the chat known but silent;
      `/enable` makes it translated again. */
  lemma EnableThenDisable(states: ChatMap, chatId: int)
    ensures IsKnown(Disabled(Activated(states, chatId), chatId), chatId)
    ensures !AllowsTranslation(Disabled(Activated(states, chatId), chatId), chatId)
    ensures AllowsTranslation(Enabled(Disabled(Activated(states, chatId), chatId), chatId), chatId)
  {
  }

  // ---------------------------------------------------------------------
  // The handlers
  // ---------------------------------------------------------------------

  /** The part of users.json main.py reads: `users["authorized"]` and
      `users["roles"]["chat_validators"]`. */
  datatype Users = Users(authorized: seq<int>, chatValidators: seq<int>)

  /** What a handler sends back. */
  datatype Reply =
    | ActivationConfirmed(groupId: int)  // "Бот успешно активирован." and the notice to the group
    | RequestRejected(groupId: int)      // "Запрос отклонён." and the notice to the group
    | BotEnabled                         // "Бот включён."
    | BotDisabled                        // "Бот выключен."
    | ActivationNotConfirmed             // "Активация бота в данной группе не была подтверждена ..."
    | Greeting                           // "Hello, <name>!"
    | Unauthorized                       // reject_unauthorized_user: "Sorry <name>, ..."
    | Aborted                            // an exception ended the handler before any reply

  /** The approve/reject prompt sent to a validator. */
  datatype Prompt = Prompt(validator: int, activateData: string, rejectData: string)

  /** What `bot_added_to_group_handler` does. */
  datatype JoinOutcome =
    | Ignored                  // the new member is not this bot
    | Prompted(prompt: Prompt) // the prompt went to the first chat validator
    | NoValidator              // `chat_validators[0]` raised `IndexError`

  /** The prefix of every translated reply. */
  const TranslatedPrefix: string := "TRANSLATED TO:\n"

  /** `str(message.text)`: a message without text is translated as "None". */
  function TextOf(text: Option<string>): string
  {
    match text
    case Some(t) => t
    case None => "None"
  }

  class ChatBot {
    /** `group_states`. */
    var groupStates: ChatMap
    /** The contents of the state file, as last written by `save_state`. */
    ghost var persisted: ChatMap
    /** How many times `save_state` has been called. */
    ghost var saves: nat
    /** The contents of users.json, loaded once at startup. */
    const users: Users

    /** The state file always holds the map in memory when a handler ends. */
    ghost predicate Valid()
      reads this
    {
      persisted == groupStates
    }

    /** Startup: `group_states = load_state()` with the loaded map `loaded`
        (the empty map when the state file does not exist). */
    constructor (loaded: ChatMap, users: Users)
      ensures Valid()
      ensures groupStates == loaded && this.users == users && saves == 0
    {
      groupStates := loaded;
      persisted := loaded;
      saves := 0;
      this.users := users;
    }

    /** `save_state(group_states)`: the whole map is written out. */
    method SaveState()
      modifies this
      ensures groupStates == old(groupStates)
      ensures persisted == groupStates && saves == old(saves) + 1
    {
      persisted := groupStates;
      saves := saves + 1;
    }

    /** `bot_added_to_group_handler`: when this bot joins chat `chatId`, ask
        the first chat validator to approve or reject it. The map is not
        touched (the method modifies nothing). */
    method BotAddedToGroup(chatId: int, newMemberId: int, botId: int) returns (outcome: JoinOutcome)
      ensures newMemberId != botId ==> outcome == Ignored
      ensures newMemberId == botId && |users.chatValidators| == 0 ==> outcome == NoValidator
      ensures newMemberId == botId && |users.chatValidators| > 0 ==>
        outcome.Prompted? && outcome.prompt.validator == users.chatValidators[0]
      ensures outcome.Prompted? ==>
        ParseGroupId(outcome.prompt.activateData) == Some(chatId) &&
        ParseGroupId(outcome.prompt.rejectData) == Some(chatId) &&
        ActivatePrefix <= outcome.prompt.activateData &&
        RejectPrefix <= outcome.prompt.rejectData
    {
      if newMemberId != botId {
        return Ignored;
      }
      if |users.chatValidators| == 0 {
        return NoValidator;
      }
      PayloadRoundTrip(chatId);
      PayloadRouting(chatId);
      outcome := Prompted(Prompt(users.chatValidators[0], ActivatePayload(chatId), RejectPayload(chatId)));
    }

    /** `activate_group`, reached for payloads starting with "activate:". */
    method ActivateGroup(data: string) returns (reply: Reply)
      requires Valid()
      requires ActivatePrefix <= data
      modifies this
      ensures Valid()
      ensures match ParseGroupId(data)
        case None =>
          groupStates == old(groupStates) && saves == old(saves) && reply == Aborted
        case Some(id) =>
          groupStates == Activated(old(groupStates), id) && saves == old(saves) + 1 &&
          reply == ActivationConfirmed(id)
    {
      var parsed := ParseGroupId(data);
      if parsed.None? {
        return Aborted;
      }
      var groupId := parsed.value;
      groupStates := groupStates[IntToString(groupId) := true];
      SaveState();
      reply := ActivationConfirmed(groupId);
    }

    /** `reject_group`, reached for payloads starting with "reject:". The
        map is written out even when the chat was not in it. */
    method RejectGroup(data: string) returns (reply: Reply)
      requires Valid()
      requires RejectPrefix <= data
      modifies this
      ensures Valid()
      ensures match ParseGroupId(data)
        case None =>
          groupStates == old(groupStates) && saves == old(saves) && reply == Aborted
        case Some(id) =>
          groupStates == Rejected(old(groupStates), id) && saves == old(saves) + 1 &&
          reply == RequestRejected(id)
    {
      var parsed := ParseGroupId(data);
      if parsed.None? {
        return Aborted;
      }
      var groupId := parsed.value;
      groupStates := groupStates - {IntToString(groupId)};
      SaveState();
      reply := RequestRejected(groupId);
    }

    /** `enable_bot_in_group`: `/enable` in chat `chatId`. */
    method EnableBotInGroup(chatId: int) returns (reply: Reply)
      requires Valid()
      modifies this
      ensures Valid()
      ensures groupStates == Enabled(old(groupStates), chatId)
      ensures IsKnown(old(groupStates), chatId) ==> reply == BotEnabled && saves == old(saves) + 1
      ensures !IsKnown(old(groupStates), chatId) ==> reply == ActivationNotConfirmed && saves == old(saves)
    {
      if IntToString(chatId) in groupStates {
        groupStates := groupStates[IntToString(chatId) := true];
        SaveState();
        reply := BotEnabled;
      } else {
        reply := ActivationNotConfirmed;
      }
    }

    /** `disable_bot_in_group`: `/disable` in chat `chatId`. */
    method DisableBotInGroup(chatId: int) returns (reply: Reply)
      requires Valid()
      modifies this
      ensures Valid()
      ensures groupStates == Disabled(old(groupStates), chatId)
      ensures IsKnown(old(groupStates), chatId) ==> reply == BotDisabled && saves == old(saves) + 1
      ensures !IsKnown(old(groupStates), chatId) ==> reply == ActivationNotConfirmed && saves == old(saves)
    {
      if IntToString(chatId) in groupStates {
        groupStates := groupStates[IntToString(chatId) := false];
        SaveState();
        reply := BotDisabled;
      } else {
        reply := ActivationNotConfirmed;
      }
    }

    /** `command_start_handler`: greet exactly the authorized users. */
    method CommandStart(userId: int) returns (reply: Reply)
      ensures reply == Greeting <==> userId in users.authorized
      ensures reply == Unauthorized <==> userId !in users.authorized
    {
      if userId in users.authorized {
        reply := Greeting;
      } else {
        reply := Unauthorized;
      }
    }

    /** `translate_handler`: a message in a group chat is answered with its
        translation only when the chat is enabled; a failed translation is
        swallowed and nothing is sent. */
    method TranslateHandler(chatId: int, text: Option<string>,
                            service: (string, Translator.Lang) -> Option<string>)
      returns (reply: Option<string>)
      ensures reply.Some? ==> AllowsTranslation(groupStates, chatId)
      ensures !IsKnown(groupStates, chatId) ==> reply.None?
      ensures AllowsTranslation(groupStates, chatId) ==>
        match service(TextOf(text), Translator.Destination(TextOf(text)))
        case Some(t) => reply == Some(TranslatedPrefix + t)
        case None => reply.None?
    {
      if IntToString(chatId) in groupStates && groupStates[IntToString(chatId)] {
        var translated := Translator.Translate(TextOf(text), service);
        if translated.Some? {
          return Some(TranslatedPrefix + translated.value);
        }
      }
      reply := None;
    }
  }

  // ---------------------------------------------------------------------
  // End-to-end runs
  // ---------------------------------------------------------------------

  /** The bot joins group -100123, the validator presses "Да": the group is
      translated afterwards and the state file says so. */
  method ApprovalScenario(botId: int, validator: int) returns (translated: bool, reply: Reply)
    ensures translated && reply == ActivationConfirmed(-100123)
  {
    var bot := new ChatBot(map[], Users([validator], [validator]));
    var outcome := bot.BotAddedToGroup(-100123, botId, botId);
    reply := bot.ActivateGroup(outcome.prompt.activateData);
    translated := AllowsTranslation(bot.groupStates, -100123);
    assert bot.persisted == bot.groupStates && bot.saves == 1;
  }

  /** The bot joins group -100123, the validator presses "Нет": the group is
      unknown afterwards, and `/enable` there is refused. */
  method RejectionScenario(botId: int, validator: int) returns (known: bool, reply: Reply)
    ensures !known && reply == ActivationNotConfirmed
  {
    var bot := new ChatBot(map[], Users([validator], [validator]));
    var outcome := bot.BotAddedToGroup(-100123, botId, botId);
    var _ := bot.RejectGroup(outcome.prompt.rejectData);
    known := IsKnown(bot.groupStates, -100123);
    reply := bot.EnableBotInGroup(-100123);
  }
}
