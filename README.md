# translator_bot: activation state machine and language direction

This project models the two pieces of logic under the chat plumbing of the
Russian/French group translation bot.

- **Per-chat activation (main.py).** The bot keeps `group_states`, a map from
  `str(chat_id)` to a flag. When the bot joins a group, the first chat
  validator gets a prompt. The prompt has two buttons whose payloads are
  `activate:<id>` and `reject:<id>`. Approval sets the chat's flag to `true`.
  Rejection removes the chat. `/enable` and `/disable` set the flag, but only
  for a chat that is already in the map. A group message is translated only
  when `group_states.get(str(chat_id), False)` holds. Every change of the map
  is written out with `save_state`. `/start` greets exactly the users listed
  as authorized.
- **Language direction (translator.py).** `detect_lang` counts the distinct
  lowercase Russian letters of a message minus its distinct lowercase Latin
  letters. `translate` asks for French when that score is positive and for
  Russian otherwise, ties included.

Files:

- `wrappers.dfy`: `Option`.
- `pytext.dfy` (module `PyText`): the Python built-ins main.py applies to chat
  ids. `str(int)` is modelled as `IntToString`, `int(str)` as `ParseInt`, and
  the first two fields of `s.split(":")` as `FirstField` and `SecondField`.
  Their round trip is proved: `ParseInt(IntToString(i)) == Some(i)`. It
  follows that different chat ids never share a key.
- `translator.dfy` (module `Translator`): the two alphabets, `DetectLang`,
  `Destination` and `Translate`, with the score's properties.
- `bot.dfy` (module `Bot`): the payload format and parser, and the map
  transitions as pure functions (`Activated`, `Rejected`, `Enabled`,
  `Disabled`) with lemmas about them. It also holds the class `ChatBot`,
  whose field `groupStates` is the map. Its ghost fields are `persisted`, a
  snapshot of the state file, and `saves`, the number of `save_state` calls.
  Each handler is a method that returns a reply tag. Each mutating handler is
  specified by the matching transition function. After every handler,
  `Valid()` holds: the state file equals the map in memory.

The translation service, the bot's own user id and the contents of the state
file and of users.json are parameters. The service is a function
`(text, dest) -> Option<string>`, where `None` is a result the chat handler
drops. The contents of users.json are a `Users` value with the authorized ids
and the chat validators.

## Notes on the code

- main.py has no separate "pending approval" state. A chat that has been
  prompted but not approved has no key in the map, just like a chat that was
  never seen.
- A chat becomes known only on approval.
- `/start` only tests membership of the sender's numeric id in
  `users["authorized"]`. It binds no handle.

## Model

| member | source | states |
|---|---|---|
| `PyText.DigitChar` | main.py:62-63 | the character produced for a digit is a decimal digit and reads back as that digit |
| `PyText.NatToString` | main.py:79 | `str(n)` of a natural number is a non-empty run of decimal digits with no leading zero except "0" itself |
| `PyText.IntToString` | main.py:62-63 | `str(i)` is non-empty, never contains a colon, and starts with `-` exactly for negative ids |
| `PyText.ParseInt` | main.py:78 | `int(s)` succeeds exactly on an optional sign followed by one or more decimal digits, with the value those digits denote, negated after `-`; anything else is the `ValueError` path |
| `PyText.NatToStringRoundTrip` | main.py:78-79 | the digits of a natural number read back as that number |
| `PyText.IntToStringRoundTrip` | main.py:78-79 | `int(str(i)) == i` for every integer, negative group ids included |
| `PyText.IntToStringInjective` | main.py:79 | different chat ids have different `str(chat_id)` keys |
| `PyText.FirstField` | main.py:78 | `s.split(":")[0]` is a colon-free prefix of `s`, followed by a colon unless it is all of `s` |
| `PyText.SecondField` | main.py:78 | `s.split(":")[1]` fails (`IndexError`) exactly when `s` has no colon; otherwise it is the colon-free text after the first colon, up to the next colon or the end |
| `PyText.FirstFieldNoColon` | main.py:78 | a colon-free string is its own first field |
| `PyText.SecondFieldOfJoin` | main.py:62-63 | the second field of `head:body`, for colon-free `head` and `body`, is `body` |
| `Bot.ParseGroupId` | main.py:78 | the parse of a callback payload without a colon fails |
| `Bot.ParseGroupIdOfJoin` | main.py:78 | a payload `<action>:<id>` with a colon-free action parses back to `id` |
| `Bot.PayloadRoundTrip` | main.py:62-63 | both prompt payloads parse back to the chat id they were built from, negative ids included |
| `Bot.PayloadRouting` | main.py:62-63 | the activate payload starts with `activate:` and not with `reject:`, and the reject payload the other way round, so each reaches the handler of its own button |
| `Bot.UnknownNeverTranslated` | main.py:151 | a chat whose key is not in the map is never translated |
| `Bot.ActivatedSpec` | main.py:78-80 | after approval the chat is known and translated, exactly its key is added, and every other chat and key is unchanged |
| `Bot.RejectedSpec` | main.py:95-97 | after rejection the chat is unknown and not translated, exactly its key is removed, rejecting an absent chat is a no-op, and other chats are unchanged |
| `Bot.EnabledSpec` | main.py:111-116 | `/enable` translates a known chat, changes nothing for an unknown one, never changes the set of known chats, and leaves other chats alone |
| `Bot.DisabledSpec` | main.py:125-130 | `/disable` silences a chat, keeps it known, changes nothing for an unknown one, and leaves other chats alone |
| `Bot.TogglesKeepKnownChats` | main.py:111-130 | any run of `/enable` and `/disable` commands leaves the set of known chats unchanged, so a never-approved chat is never translated |
| `Bot.EnableThenDisable` | main.py:79-130 | after approval and `/disable` the chat stays known and is not translated; a further `/enable` translates it again |
| `Bot.ChatBot.constructor` | main.py:29-38 | the map starts as the loaded state (the empty map when there is no state file), equals the file, and nothing has been written yet |
| `Bot.ChatBot.SaveState` | main.py:41-46 | the whole current map is written out and the count of writes goes up by one |
| `Bot.ChatBot.BotAddedToGroup` | main.py:50-70 | only when the new member is the bot is a prompt sent; it goes to `chat_validators[0]` (an empty list raises); both payloads parse back to the chat id and are routed to their handlers; the map is not touched |
| `Bot.ChatBot.ActivateGroup` | main.py:72-86 | a parsable payload sets the chat's key to `true` and saves the map before replying; an unparsable one raises before any change or write |
| `Bot.ChatBot.RejectGroup` | main.py:89-103 | a parsable payload removes the chat's key and saves the map, even when the key was absent; an unparsable one raises before any change or write |
| `Bot.ChatBot.EnableBotInGroup` | main.py:105-116 | a known chat is set to `true`, saved and answered "enabled"; an unknown chat gets the "activation not confirmed" reply with no change and no write |
| `Bot.ChatBot.DisableBotInGroup` | main.py:119-130 | a known chat is set to `false` (and stays known), saved and answered "disabled"; an unknown chat gets the "activation not confirmed" reply with no change and no write |
| `Bot.ChatBot.CommandStart` | main.py:134-142 | the sender is greeted exactly when their id is in `users["authorized"]` and rejected otherwise; nothing changes |
| `Bot.ChatBot.TranslateHandler` | main.py:144-155 | a reply is sent only in an enabled chat, never in an unknown one; it is the translation of `str(message.text)` in the direction `translate` picks, after the "TRANSLATED TO:" line, and a failed translation sends nothing |
| `Bot.ApprovalScenario` | main.py:57-86 | a bot added to group -100123 whose activate button is pressed leaves that group translated, with the state file matching the map |
| `Bot.RejectionScenario` | main.py:89-116 | a bot added to group -100123 whose reject button is pressed leaves that group unknown, and `/enable` there is refused |
| `Translator.Destination` | translator.py:19-22 | French is chosen only for a message with a Russian letter in it |
| `Translator.Translate` | translator.py:17-23 | the service is called once, with `dest=fr` on a positive score and with `dest=ru` on a zero or negative score |
| `Translator.Alphabetic` | translator.py:14 | the filtered message keeps exactly the characters of the message that lie in one of the two alphabets |
| `Translator.SubsetCardinality` | translator.py:14 | a subset is no larger than its superset (used to bound each intersection with an alphabet by the alphabet) |
| `Translator.IncreasingBounds` | translator.py:3-4 | in a string in increasing code-point order every character lies between the first and the last |
| `Translator.IncreasingLetters` | translator.py:3-4 | a string in increasing code-point order has as many distinct characters as its length |
| `Translator.IncreasingJoin` | translator.py:3 | two increasing strings, the first ending below the start of the second, join into an increasing string |
| `Translator.RuLettersWithoutYo` | translator.py:3 | `ru_alph` is the increasing run from `а` to `я` plus `ё`, which is not in that run |
| `Translator.FrLettersIncreasing` | translator.py:4 | `fr_alph` is built from the increasing run from `a` to `z` |
| `Translator.RuAlphabetRange` | translator.py:3 | every letter of `ru_alph` is a lowercase Russian letter (U+0430 to U+044F, or `ё`) |
| `Translator.FrAlphabetRange` | translator.py:4 | every letter of `fr_alph` is a lowercase ASCII letter |
| `Translator.AlphabetSizes` | translator.py:3-4 | `ru_alph` has 33 letters and `fr_alph` has 26 |
| `Translator.AlphabetsDisjoint` | translator.py:3-4 | no letter is in both alphabets |
| `Translator.DetectLangBounds` | translator.py:13-14 | `-26 <= detect_lang(m) <= 33` |
| `Translator.DetectLangSameCharacters` | translator.py:13-14 | two messages made of the same characters score the same |
| `Translator.DetectLangRepeat` | translator.py:13-14 | repeating a character of a message does not change its score |
| `Translator.DetectLangReorder` | translator.py:13-14 | reordering the characters of a message does not change its score |
| `Translator.DetectLangIgnoresOthers` | translator.py:14 | removing every character outside both alphabets does not change the score |
| `Translator.DetectLangInsertOther` | translator.py:14 | inserting a character outside both alphabets anywhere does not change the score |
| `Translator.UppercaseIgnored` | translator.py:3-4 | uppercase Latin and Russian letters are in neither alphabet |
| `Translator.NoLettersTie` | translator.py:19-22 | a message with no letter of either alphabet, the empty message included, scores 0 and is sent to Russian |
| `Translator.OnlyRussianGoesToFrench` | translator.py:19-20 | a message with a Russian letter and no Latin letter scores above 0 and is sent to French |
| `Translator.OnlyLatinGoesToRussian` | translator.py:21-22 | a message with a Latin letter and no Russian letter scores below 0 and is sent to Russian |
| `Translator.BonjourLeMondeGoesToRussian` | translator.py:19-22 | "Bonjour le monde" scores below 0 and is sent to Russian |

## Left out

- Message transport, which is aiogram's job: the dispatcher, its filters,
  the order in which handlers match, and every `send_message`, `edit_text`,
  `answer` and `reply` call. A reply is a `Reply` tag, and a prompt carries
  only its recipient and button payloads. The `startswith("activate:")` and
  `startswith("reject:")` filters are modelled as preconditions of the two
  callback handlers. The user's `full_name` in greetings is not modelled.
- JSON I/O: `load_state`, `save_state` and users.json are not modelled as
  files. The loaded map and the users are constructor parameters, and
  `save_state` is a ghost snapshot assignment. A failing write is not
  modelled.
- The `atexit` registration of `save_state`: it runs at process exit. As
  registered, it would be called without its argument.
- The googletrans call is a function parameter that returns text or `None`.
  Python's `TypeError` handling is modelled only as that `None`.
- `bot.me()` is replaced by the bot's user id, passed as a parameter.
- dotenv configuration, the token, the Windows stdout re-encoding, logging
  and the asyncio event loop. They are configuration, I/O and concurrency.
- Interleaving of asynchronous handlers. Every handler runs to completion,
  one at a time.
- `PyText.ParseInt`: it models `int()` on an optional sign and ASCII decimal
  digits only. It does not accept the surrounding whitespace, the
  underscores between digits or the non-ASCII decimal digits that Python's
  `int()` accepts, so such payloads take the error path here. The bot's own
  payloads never contain them.
- The identity store, the settings dialog, handle binding and link-pattern
  promotion do not appear in this code and are not modelled.
