# Kurimuzon bot: progression store and command dispatch in Dafny

The bot (`index.js`) is a WhatsApp chat bot. It keeps a process-wide map
`xpData` from user address to a record `{ xp, level, game? }`. Every message
that is not a command earns the sender 5 XP through `addXP`. When `xp` reaches
`level * 100`, `addXP` raises `level` once and tells the user. The handler then
checks the body against the command tests, in source order:

- `/profile` reports the sender's level and XP.
- `/tagall` mentions every participant of a group.
- `/crimson <prompt>` forwards the prompt to a completion API.
- `/mute` and `/unmute` mute or unmute a group.
- `/game` opens a number-guessing round (1 to 10).
- `/guess <n>` resolves the open round.

This project models that core:

- `js.dfy`, module `Js`: the JavaScript semantics the code depends on.
  - `Num` is a number property that may be `undefined` or `NaN`.
  - `ParseInt` is `parseInt` without a radix. It skips leading white space, takes a sign, switches to base 16 after `0x`, reads the longest digit run, and gives `NaN` when there are no digits.
  - `IntToString` is number-to-text for template literals.
  - `Split` is `split(' ')`, with `Join` as its inverse.
  - `ReplaceFirst` is `replace` with a string pattern, which replaces only the first match.
- `transport.dfy`, module `Transport`: inbound messages, chats and participants as values. Each outbound client call is an `Effect` recorded in order.
- `progression.dfy`, module `Progression`: the store operations, each a function from the whole bot `State` (store, outbound calls, number of `saveXP` writes) to the next state.
  - `AddXP`, `StartGame`, `ResolveGuess` and `Profile`.
  - `AddXPAll`: a run of awards.
- `dispatch.dfy`, module `Dispatch`: the message handler.
  - The body tests (`Fires`).
  - A classifier (`Classify`) that is proved to agree with them.
  - The `/guess` argument (`GuessArgument`).
  - The `/tagall` builder loop (`BuildTagAll`).
  - `Handle`, the whole handler as a sequence of independent `if`s.
  - `Exclusive`, a single dispatch that is proved equal to `Handle`.
  - Scenario lemmas.
- `runtime.dfy`, module `Runtime`: class `Bot`, whose fields `xpData`, `outbox` and `saves` are updated in place the way `index.js` does it. Each method is proved to produce exactly the state the matching function describes.

Records that `/game` creates are modelled faithfully. On a sender without an entry, `/game` stores `{}`, so `xp` and `level` are `undefined`. Winning that round runs `addXP` on the record: `xp` becomes `NaN`, `level` stays `undefined`, and later chat awards keep `xp` at `NaN`. `NewcomerWinIsNaN` proves this. The model keeps this behaviour and does not default the fields.

Two facts about `index.js` shape the model:

- The command tests are pairwise disjoint, so at most one branch runs (`FiresExactly`, `HandleIsExclusive`).
- `addXP` accepts any integer amount, and so does `AddXP`.

## Model

| member | source | states |
|---|---|---|
| `Progression.AddXP` | index.js:27-36 | creates `{xp: 0, level: 1}` for a missing user; adds exactly `amount` to `xp` (`NaN` if `xp` was missing); `level` rises by at most one, and does so exactly when the new `xp` reaches the old `level * 100`; the level-up message carrying the new level is sent exactly then; the open round and every other user's entry are unchanged; one save |
| `Progression.AddXPToNewcomer` | index.js:28-32 | awarding `amount` to a user without an entry gives `xp = amount`, and level 2 if `amount >= 100` (so 250 gives level 2, not 3), otherwise level 1 |
| `Progression.AddXPAll` | index.js:27-36 | a run of awards, one `addXP` per amount in order: one save per award, outbound calls only appended, no other user's entry changed, and the user has an entry after any award |
| `Progression.AddXPAllSum` | index.js:27-36 | over any run of awards to a complete entry, `xp` grows by exactly the sum of the amounts and `level` by at most one per award; the round, other users and one save per award follow |
| `Progression.StartGame` | index.js:94-100 | the sender's `game` becomes the roll (1..10); an existing entry keeps its `xp`/`level`; a missing entry is created as exactly `{game: roll}`, without `xp`/`level`; only the sender's entry changes; announces the round, one save |
| `Progression.ResolveGuess` | index.js:102-114 | without an open round nothing changes; with one, the round is always closed. A matching guess adds 20 to `xp` via `addXP`, raises `level` by one exactly when `xp + 20` reaches `level * 100`, and sends the congratulation, then the level-up message when the level rose; two saves. Any other guess leaves `xp`/`level` alone and sends the text naming the stored target; one save. Other users are unchanged |
| `Progression.Profile` | index.js:63-66 | never changes the store or saves; reports `Level: 1` / `XP: 0` for a user without an entry, and the stored `level` and `xp` otherwise |
| `Js.Split` | index.js:103 | `split(' ')` gives at least one piece, no piece contains the separator, and a string without the separator is its own single piece |
| `Js.JoinSplit` | index.js:103 | joining the pieces of `split(' ')` with the separator gives the original string back |
| `Js.SplitJoin` | index.js:103 | splitting a join of separator-free pieces gives exactly those pieces |
| `Js.ParseInt` | index.js:103 | `parseInt` without a radix gives a number only when its text holds a decimal digit (no digit gives `NaN`) |
| `Js.ParseSigned` | index.js:103 | after the skipped white space: a leading `-` gives a value of at most zero, no sign or `+` a value of at least zero, and a number needs a digit |
| `Js.ParseMagnitude` | index.js:103 | the unsigned part is a number only when it starts with a decimal digit, is never negative, and always is one when it starts with a digit not followed by `x`/`X` |
| `Js.TrimStart` | index.js:103 | `parseInt` skips leading white space and nothing else: every dropped character is white space, and what remains is a suffix of the input that does not start with white space |
| `Js.DigitPrefix` | index.js:103 | `parseInt` reads the longest prefix of digits in the radix, and the next character is not such a digit |
| `Js.NatToString` | index.js:109 | the number-to-text conversion gives decimal digits only, with no leading zero |
| `Js.ParseIntToString` | index.js:103 | `parseInt` reads back what number-to-text wrote, whatever non-digit text follows (except `x` after `0`, which switches to hex) |
| `Js.NoDigitsIsNaN` | index.js:103 | text without a decimal digit parses to `NaN` |
| `Js.IndexFrom` | index.js:79 | finds the first occurrence of the pattern at or after the start, or reports that there is none |
| `Js.ReplaceFirst` | index.js:79 | `replace` with a string pattern leaves the text unchanged when the pattern does not occur, and otherwise replaces exactly its first occurrence |
| `Js.ReplacePrefix` | index.js:79 | replacing the `/crimson ` prefix with nothing leaves exactly the text after it |
| `Dispatch.Fires` | index.js:61-102 | the branch tests on the body; the chat award's test passes exactly for bodies not starting with `/`, every command test needs a leading `/` |
| `Dispatch.Classify` | index.js:61-102 | a reference classifier: the branch it names is one whose test passes, and a body it leaves unclassified starts with `/` |
| `Dispatch.ClassifyFired` | index.js:61-102 | a body that passes a branch's test is classified as that branch |
| `Dispatch.FiresExactly` | index.js:61-102 | a body passes the test of a branch if and only if `Classify` names that branch |
| `Dispatch.BranchesDisjoint` | index.js:61-102 | no body passes two branch tests; the 5-XP chat award excludes every command |
| `Dispatch.HandleIsExclusive` | index.js:61-114 | the handler's sequence of independent `if`s equals a single dispatch on the one branch that fires |
| `Dispatch.GuessArgument` | index.js:103 | `parseInt(msg.body.split(' ')[1])`: a body without a space has no second word and gives `NaN` |
| `Dispatch.GuessArgumentOfNumber` | index.js:103 | `/guess n` yields the guess `n` |
| `Dispatch.GuessArgumentWithoutDigits` | index.js:103 | a second word without digits (including an empty word) gives `NaN` |
| `Dispatch.ReplyText` | index.js:54 | the reply is never empty, and it is the content itself whenever the content is non-empty |
| `Dispatch.BuildTagAll` | index.js:68-76 | exactly one mention per participant, in participant order, and text equal to the header followed by `@<user> ` per participant |
| `Dispatch.ChatterStep` | index.js:61 | the chat award changes only the sender's entry, only appends, and saves once exactly when the body does not start with `/` |
| `Dispatch.ProfileStep` | index.js:63-66 | the `/profile` test: store and saves unchanged, one outbound call exactly when the body is `/profile` |
| `Dispatch.TagAllStep` | index.js:68-76 | the `/tagall` branch changes the state exactly for `/tagall` in a group with a participant list, then by one appended call; never the store or saves |
| `Dispatch.MuteStep` | index.js:84-87 | the `/mute` branch changes the state exactly for `/mute` in a group, only by appending calls |
| `Dispatch.UnmuteStep` | index.js:89-92 | the `/unmute` branch changes the state exactly for `/unmute` in a group, only by appending calls |
| `Dispatch.GameStep` | index.js:94-100 | the `/game` test: only the sender's entry changes, one save exactly for `/game`, which stores the roll as the sender's round |
| `Dispatch.GuessStep` | index.js:102-114 | the `/guess` test: only the sender's entry changes, and a change happens only for a `/guess` body with an open round, which it closes |
| `Dispatch.ChatBranches` | index.js:68-92 | `/tagall`, `/crimson `, `/mute` and `/unmute` never change the store or save; the handler stops exactly when the completion for a `/crimson ` prompt rejects |
| `Dispatch.Tail` | index.js:68-114 | after the chat award and `/profile`, the remaining branches change no entry but the sender's and only append outbound calls |
| `Dispatch.Handle` | index.js:57-115 | one message changes no entry other than the sender's and only appends outbound calls |
| `Dispatch.ChatterEarnsFive` | index.js:61 | a body not starting with `/` earns exactly 5 XP via `addXP` and does nothing else |
| `Dispatch.CommandsEarnNothing` | index.js:61-100 | a body starting with `/` (other than a `/guess`) changes no user's `xp` or `level`; an entry it creates has no `xp` |
| `Dispatch.ProfileOnlyReports` | index.js:63-66 | `/profile` runs only the profile report |
| `Dispatch.TagAllOnlyInGroups` | index.js:68-76 | `/tagall` outside a group, or with no participant list, changes nothing; in a group it makes exactly one mention-carrying call to the chat |
| `Dispatch.CrimsonForwardsPrompt` | index.js:78-82 | `/crimson p` asks the collaborator about exactly `p` and replies with its answer (or `...`) after the marker; a rejection sends nothing |
| `Dispatch.GuessWithoutRoundIsSilent` | index.js:102-104 | `/guess` with no open round changes nothing and sends nothing |
| `Dispatch.GameOnlyStarts` | index.js:94-100 | `/game` runs only the round opening |
| `Dispatch.GuessOnlyResolves` | index.js:102-114 | a body starting with `/guess` runs only the guess resolution, on the parsed second word |
| `Dispatch.GameThenGuessResolves` | index.js:94-113 | `/game` followed by `/guess <roll>` resolves the round with a matching guess |
| `Dispatch.GameThenCorrectGuess` | index.js:94-113 | for a complete entry, `/game` then the correct `/guess` adds 20 XP and closes the round; a further `/guess` is silent |
| `Dispatch.NewcomerWinIsNaN` | index.js:97-107 | a user whose first store entry comes from `/game` ends with `xp = NaN` and no `level` after winning, and chat awards keep `xp` at `NaN` |
| `Runtime.Bot.constructor` | index.js:23 | the bot starts with the loaded store, no outbound calls and no saves |
| `Runtime.Bot.SaveXP` | index.js:24-26 | each save is counted once |
| `Runtime.Bot.AddXP` | index.js:27-36 | the in-place update leaves exactly the state `Progression.AddXP` describes |
| `Runtime.Bot.StartGame` | index.js:94-100 | the in-place update leaves exactly the state `Progression.StartGame` describes |
| `Runtime.Bot.Guess` | index.js:102-114 | the in-place update leaves exactly the state `Progression.ResolveGuess` describes |
| `Runtime.Bot.ChatCommands` | index.js:68-92 | the `/tagall`, `/crimson `, `/mute` and `/unmute` branches, run in place, leave exactly the state `Dispatch.ChatBranches` describes, and stop with nothing changed exactly when the completion rejects |
| `Runtime.Bot.OnMessage` | index.js:57-115 | the handler, run in place, leaves exactly the state `Dispatch.Handle` describes |

## Left out

- The WhatsApp client is not modelled: construction, `qr`/`ready` handlers and `initialize` (index.js:1-2, 17-19, 117-120), and the delivery of messages. The chat arrives as a value. Outbound calls are only recorded. A rejected `getChat`, `mute` or `unmute` promise is not modelled.
- `getCrimsonReply`'s HTTP request and JSON decoding (index.js:38-53) are not modelled. The collaborator is a function parameter that answers or rejects; only the `|| '...'` fallback is modelled.
- `saveXP` writes a file and the start-up load reads it (index.js:23-26). The model only counts the writes and takes the loaded map as the constructor argument. The JSON round trip (for example `NaN` written as `null`) is not modelled.
- The `OPENAI_API_KEY` check and `process.exit` (index.js:7-15) are process configuration and are not modelled.
- `Math.random` (index.js:95) is replaced by the `roll` parameter, constrained to 1..10.
- Handlers for different messages can interleave at `await` points. The model runs each message as one sequential step, so lost updates under interleaving are not captured.
- Numbers are exact integers. The model does not capture rounding above 2^53, exponent notation at 10^21 and above, `-0`, or non-integer values loaded from disk. For comparisons with targets 1..10 these make no difference.
