# Registration dialogue of the test Telegram bot, in Dafny

The bot in `main.py` registers programmers through a per-user finite state machine
(`Registration`, fourteen states). Each incoming message goes to one handler, which updates
the conversation's state and data dictionary and replies. The answers collected are:

- name and age (digits only);
- university, a closed choice whose "not listed" answer ends the dialogue;
- faculty and a photo;
- one or more specialties, each with a sub-loop that collects its languages from a fixed table;
- three optional fields, each of which can be skipped with "Пропустить".

At the end the bot sends the photo back with a caption summarising the profile and clears
the conversation.

The project has these modules:

- `Registration` (registration.dfy) is the dialogue as values.
  - It holds the states, the data a conversation accumulates (`Draft`), the messages (`Event`: a text, or a photo as its non-empty list of size ids, smallest first) and what the bot sends back (`Effect`).
  - Each handler is a function from the conversation before the message to the conversation after it plus the effect.
  - `Step` routes a message in the bot's registration order: the `/start` command first, then the "Registration" button in any state, then the handler of the current state.
  - `Run` folds `Step` over a sequence of messages.
  - `Caption` builds the final caption.
  - A Python exception becomes the effect `Failed(...)`. It carries the conversation as the handler left it, so a partial update made before the exception is kept.
- `Bot` (session.dfy) is the same dialogue as the bot runs it.
  - A `Session` object holds the state and the data, and there is one method per handler. Each method updates those fields step by step, as the Python does.
  - Each method is proved to end in exactly the conversation, and send exactly the effect, that the matching `Registration` function describes.
  - `Dispatch` is proved equal to `Step`, and the polling loop `Converse` is proved equal to `Run`.
- `RegistrationProperties` (properties.dfy) holds what the dialogue promises, as lemmas over `Step` and `Run`:
  - how each state answers each message;
  - an invariant that every sequence of messages keeps;
  - the line-by-line shape of the caption;
  - one complete registration, traced message by message.
- Helper modules:
  - `Text`: `str.isdigit`, `int`, `str` of an integer, `"\n".join` and splitting on a character;
  - `Lists`: append-if-absent and `list.remove`;
  - `LanguageMap`: an insertion-ordered dictionary of lists with `setdefault(k, []).append(v)`;
  - `Wrappers`: `Option`.

The model follows `main.py` wherever the bot's written description says otherwise:

- Pressing "Готово ✅" with no specialty chosen does nothing: there is no reply and the state stays `programmer_specialty`, because `prompt_for_languages` has no `else` branch.
- A specialty gets a key in `languages` only once a language is chosen for it, because the key is created by `setdefault` on the first append. A specialty finished with no language therefore has no caption line. With no language at all, the caption's specialty block is a single empty line.
- Any text is accepted as a specialty. If it is not in the language table, finishing the selection fails with `KeyError` when that specialty's turn comes.
- The "Start" button of the main menu has no handler of its own. Like any other text, it goes to the handler of the current state. In `programmer_name`, for example, it is stored as the name.
- `founder_name` and `founder_project` have no handler, so the founder branch is a dead end. `custom_university` is never entered.

## Model

| member | source | states |
|---|---|---|
| Registration.LanguagesFor | main.py:32-36 | the language table has an entry exactly for the three offered specialties; any other specialty is the KeyError case |
| Text.NatToStringParseNat | main.py:87-90 | a digit string without a leading zero reads back unchanged after `int` then `str`, so the caption shows the age as typed |
| Text.ParseNatToString | main.py:90 | `int(str(n)) == n` for every age the bot can store |
| Text.SplitOnJoin | main.py:229 | joining lines that hold no line break with "\n" and splitting on "\n" gives the lines back |
| Lists.AppendIfAbsent | main.py:154-156 | the chosen specialties grow by one exactly when the new one is absent, which then goes last, the earlier ones unchanged; a duplicate-free list stays duplicate-free |
| Lists.AppendIfAbsentIdempotent | main.py:154-156 | choosing the same specialty twice is the same as choosing it once |
| Lists.RemoveFirst | main.py:179 | `list.remove` fails (ValueError) exactly when the item is absent; otherwise it drops the first occurrence and keeps every other element in order |
| Lists.RemoveFirstDistinct | main.py:179 | removing from a duplicate-free list shortens it by one and leaves it duplicate-free |
| LanguageMap.SetDefaultAppend | main.py:190 | the language is appended under the current specialty only, a new key goes last, other keys keep their lists, keys stay unique and lists non-empty |
| Registration.LanguageLines | main.py:229 | one caption line per `languages` entry, in insertion order |
| Bot.Session.constructor | main.py:12 | a new conversation has no state and no data |
| Bot.Session.Clear | main.py:115 | `state.clear()` resets the state and every field |
| Bot.Session.StartCommand | main.py:48-50 | `/start` greets with the main menu and changes nothing |
| Bot.Session.RegistrationFromMenu | main.py:53-63 | in-place update equal to `Registration.RegistrationFromMenu`: role keyboard, state `choosing_role`, data kept |
| Bot.Session.ChooseRole | main.py:66-75 | in-place update equal to `Registration.ChooseRole` |
| Bot.Session.ProcessProgrammerName | main.py:78-82 | in-place update equal to `Registration.ProcessProgrammerName` |
| Bot.Session.ProcessProgrammerAge | main.py:85-101 | in-place update equal to `Registration.ProcessProgrammerAge` |
| Bot.Session.ProcessProgrammerUniversity | main.py:104-117 | in-place update equal to `Registration.ProcessProgrammerUniversity` |
| Bot.Session.ProcessProgrammerFaculty | main.py:120-124 | in-place update equal to `Registration.ProcessProgrammerFaculty` |
| Bot.Session.ProcessProgrammerPhoto | main.py:127-142 | in-place update equal to `Registration.ProcessProgrammerPhoto`: the last size's id stored, specialties offered |
| Bot.Session.ProcessProgrammerSpecialty | main.py:145-157 | in-place update equal to `Registration.ProcessProgrammerSpecialty` |
| Bot.Session.PromptForLanguages | main.py:159-168 | in-place update equal to `Registration.PromptForLanguages` (nothing when none is pending, KeyError for an unknown head) |
| Bot.Session.ProcessChoosingLanguage | main.py:171-192 | in-place update equal to `Registration.ProcessChoosingLanguage`, including the ValueError of `remove` |
| Bot.Session.ProcessGithubLink | main.py:195-202 | in-place update equal to `Registration.ProcessGithubLink` |
| Bot.Session.ProcessResumeLink | main.py:205-212 | in-place update equal to `Registration.ProcessResumeLink` |
| Bot.Session.ProcessAboutMe | main.py:215-243 | in-place update equal to `Registration.ProcessAboutMe`: photo and caption sent, then cleared |
| Bot.Session.Dispatch | main.py:48-215 | routing a message to its handler, in registration order, does what `Registration.Step` says |
| Bot.Session.DispatchText | main.py:66-215 | a text reaches the handler of the current state as `Registration.OnText` says; states without a handler ignore it |
| Bot.Session.DispatchTextless | main.py:66-215 | a photo outside `programmer_photo` reaches the current state's handler as `Registration.OnTextless` says |
| Bot.Converse | main.py:246-247 | handling messages one by one, the reply to each is the one `Registration.Run` gives for the messages up to it, and the session ends where `Run` leads (unchanged for no message) |
| Bot.RunSnoc | main.py:246-247 | one more message continues the run from where it stopped |
| RegistrationProperties.NotStartCommand | main.py:48 | text not beginning with '/' is not the `/start` command |
| RegistrationProperties.StartCommandForms | main.py:48 | `/start` alone, followed by any whitespace character and arguments, or with an empty mention is the command; `/started` is not |
| RegistrationProperties.RegistrationFromAnyState | main.py:53-63 | "Registration" in any state moves to `choosing_role` and keeps the data |
| RegistrationProperties.StartKeepsSession | main.py:48-50 | `/start` changes nothing, in every state |
| RegistrationProperties.RoleChoice | main.py:66-75 | only "Программист" (to `programmer_name`) and "Фаундер" (to `founder_name`) leave `choosing_role`; the data never changes |
| RegistrationProperties.FounderNameIsDeadEnd | main.py:28 | every routed message is ignored in `founder_name` |
| RegistrationProperties.AgeStep | main.py:85-101 | non-digit text changes nothing; digits store the integer age and move to `programmer_university` |
| RegistrationProperties.AgeShownAsTyped | main.py:237 | an age typed without a leading zero appears in the caption exactly as typed |
| RegistrationProperties.UniversityStep | main.py:104-117 | "НИУ ВШЭ" is stored and moves on; "моего вуза нет в списке" clears state and data; any other message changes nothing |
| RegistrationProperties.PhotoIgnoresText | main.py:127 | text in `programmer_photo` changes nothing |
| RegistrationProperties.PhotoStep | main.py:127-142 | a photo stores the id of its last size and moves to `programmer_specialty` |
| RegistrationProperties.SpecialtyAdd | main.py:145-157 | a specialty is appended only when absent and keeps the state; choosing it again is a no-op |
| RegistrationProperties.FinishSpecialties | main.py:150-168 | "Готово ✅" with none chosen changes nothing and sends nothing; otherwise the head becomes current and its languages are offered, or the step fails with KeyError |
| RegistrationProperties.LanguagePick | main.py:189-192 | the whole outcome: a language is appended, in order and duplicates allowed, under the current specialty, every other specialty's list and every other field unchanged, and acknowledged |
| RegistrationProperties.LanguageDone | main.py:177-188 | the whole outcome: "Готово ✅" removes exactly the head and keeps the collected languages; then the next specialty becomes current with its language keyboard, or fails with KeyError, or, when none is left, the GitHub link is asked for |
| RegistrationProperties.GithubLinkStep | main.py:195-202 | "Пропустить" leaves the link unset, other text is stored verbatim; `resume_link` follows |
| RegistrationProperties.ResumeLinkStep | main.py:205-212 | "Пропустить" leaves the link unset, other text is stored verbatim; `about_me` follows |
| RegistrationProperties.AboutMeStep | main.py:215-243 | the photo is sent with the caption of the completed data, and the conversation is cleared |
| RegistrationProperties.InitialInv | main.py:12 | a new conversation satisfies the invariant |
| RegistrationProperties.PromptKeepsInv | main.py:159-168 | prompting for languages keeps the invariant |
| RegistrationProperties.LanguageKeepsInv | main.py:171-192 | choosing languages keeps the invariant: pending specialties distinct, keys unique, lists non-empty |
| RegistrationProperties.OnTextKeepsInv | main.py:66-243 | every state handler keeps the invariant |
| RegistrationProperties.StepKeepsInv | main.py:48-243 | every message keeps the invariant |
| RegistrationProperties.RunKeepsInv | main.py:48-243 | the invariant holds after any sequence of messages |
| RegistrationProperties.NoCurrentSpecialtyNeverRaised | main.py:174-190 | no reachable conversation files a language under a missing current specialty |
| RegistrationProperties.StepKeepsOnHead | main.py:159-192 | a step that does not fail keeps the current specialty at the head of the pending list |
| RegistrationProperties.RunKeepsOnHead | main.py:159-192 | along messages none of which fails, the current specialty stays the head of the pending list |
| RegistrationProperties.JoinSingleLine | main.py:229 | joining single-line parts with a single-line separator gives a single line |
| RegistrationProperties.CaptionShape | main.py:234-239 | the caption is the header, the specialty block and the footer, joined by line breaks |
| RegistrationProperties.HeaderSingleLines | main.py:235-238 | no header line of the caption holds a line break of its own |
| RegistrationProperties.FooterSingleLines | main.py:238-239 | no footer line of the caption holds a line break of its own |
| RegistrationProperties.SpecialtyBlockLines | main.py:229 | the specialty block reads as one line per `languages` key, or a single empty line when there is none |
| RegistrationProperties.CaptionLines | main.py:220-239 | line by line the caption is the header, one "spec: l1, l2" line per key in insertion order, a blank line and the three optional fields |
| RegistrationProperties.SkippedFieldsNotGiven | main.py:226-239 | for any draft, skipped optional fields are shown as "Не указано" on the caption's last three lines |
| RegistrationProperties.RunThrough | main.py:48-243 | a run whose every message leads to the next listed conversation ends where the last message leads |
| RegistrationProperties.ScenarioProfileStep | main.py:53-142 | the profile answers of a sample registration lead through the expected conversations |
| RegistrationProperties.ScenarioChoiceStep | main.py:145-212 | the specialty, language and optional-field answers of the sample lead through the expected conversations |
| RegistrationProperties.ScenarioCaption | main.py:220-239 | the sample registration's caption, line by line |
| RegistrationProperties.WholeRegistration | main.py:53-243 | a complete registration sends the photo with the expected caption and clears the conversation |

## Left out

- The bot's bootstrap and transport are I/O and are not modelled: the token from `config`, `Bot`, `Dispatcher`, `MemoryStorage`, `start_polling` and `asyncio.run`. `Converse` stands for the polling loop of a single user.
- `message.reply` and `bot.send_photo` are modelled only by the text, option list, photo id and caption they carry. The keyboard layout (`ReplyKeyboardMarkup`, one button per row, `resize_keyboard`) and the chat id are not modelled.
- async/await, aiogram's per-user storage and concurrent updates from several users are not modelled. The model is one user's conversation.
- `str.isdigit` is modelled for ASCII digits only. Unicode digits, which Python also accepts and `int` may reject, are not modelled.
- The `/start` command filter is modelled as the word `/start` (or `/start@`) alone or followed by any character Python's `str.split()` treats as whitespace. Whitespace before `/start`, which `str.split()` would ignore, is not modelled. Neither is the `/start@botname` form, which depends on the bot's username, nor a `/start` sent as a photo caption.
- A photo without any size is not modelled: Telegram always sends at least one, and aiogram's `content_type` filter would not treat an empty one as a photo. `PhotoSizes` is therefore non-empty.
- A message that has neither text nor a photo (a sticker, a document) is not modelled. Every message is either a text or a photo.
- Bot.Session.DispatchTextless (and `Registration.OnTextless`, which it is proved equal to): in `programmer_specialty`, `choosing_language` and the three optional-field states, a photo yields `Failed(TextMissing)` with the conversation unchanged. Python would instead use `None` as the text: append it, file it as a language, or store it as a link or "about me". Those paths are not modelled.
- Registration.ProcessChoosingLanguage: with no current specialty, a language text yields `Failed(NoCurrentSpecialty)` instead of filing the language under `None`. `NoCurrentSpecialtyNeverRaised` proves this branch unreachable from a new conversation.
- Photo captions sent by the user are ignored. A photo is modelled only by its size ids.
